/**
 * The two scenarios the harness's tests assert, on the compiled form of
 * `def func(a: int, b: float): return 1`.
 */
module MiscTests {
  import opened Wrappers
  import opened Abi
  import opened CompiledCodes
  import opened ArgsBuilders

  /** Bit patterns of the float literals 1.0 and 2.0. */
  const One: F64 := F64(0x3FF0_0000_0000_0000)
  const Two: F64 := F64(0x4000_0000_0000_0000)

  /** The compiled test function: parameters (int, float), returns int, body `return 1`. */
  function Func(): (code: CompiledCode)
    ensures code.sig.params == [IntType, FloatType] && code.sig.ret == Some(IntType)
  {
    CompiledCode(Signature([IntType, FloatType], Some(IntType)), _ => 1)
  }

  /** `test_invoke`: too few, too many, a mistyped and a well-typed call. */
  lemma TestInvoke()
    ensures Invoke(Func(), [Int(1)]) == Err(WrongNumberOfArguments)
    ensures Invoke(Func(), [Int(1), Float(Two), Int(0)]) == Err(WrongNumberOfArguments)
    ensures Invoke(Func(), [Int(1), Int(1)]) == Err(ArgumentTypeMismatch)
    ensures Invoke(Func(), [Int(1), Float(Two)]) == Ok(Some(Int(1)))
  {
  }

  /**
   * First half of `test_args_builder`: slot 0 accepts an int, slot 1 refuses
   * one, slot 0 stays set and slot 1 unset, and the builder yields no `Args`.
   */
  method TestArgsBuilderIncomplete()
    returns (set0: Result<(), JitArgumentError>, set1: Result<(), JitArgumentError>,
             before0: bool, before1: bool, after0: bool, after1: bool, args: Option<Args>)
    ensures set0 == Ok(()) && set1 == Err(ArgumentTypeMismatch)
    ensures before0 && !before1 && after0 && !after1
    ensures args.None?
  {
    var builder := new ArgsBuilder(Func());
    set0 := builder.Set(0, Int(1));
    before0 := builder.IsSet(0);
    before1 := builder.IsSet(1);
    set1 := builder.Set(1, Int(1));
    after0 := builder.IsSet(0);
    after1 := builder.IsSet(1);
    args := builder.IntoArgs();
  }

  /**
   * Second half of `test_args_builder`: both slots accept well-typed values,
   * the builder yields `Args`, and invoking them returns `Int(1)`.
   */
  method TestArgsBuilderComplete()
    returns (set0: Result<(), JitArgumentError>, set1: Result<(), JitArgumentError>,
             is0: bool, is1: bool, result: Option<Option<AbiValue>>)
    ensures set0 == Ok(()) && set1 == Ok(())
    ensures is0 && is1
    ensures result == Some(Some(Int(1)))
  {
    var builder := new ArgsBuilder(Func());
    set0 := builder.Set(0, Int(1));
    set1 := builder.Set(1, Float(One));
    is0 := builder.IsSet(0);
    is1 := builder.IsSet(1);
    var args := builder.IntoArgs();
    result := match args
      case Some(a) => Some(InvokeArgs(a))
      case None => None;
  }
}
