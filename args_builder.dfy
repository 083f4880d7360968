/**
 * `ArgsBuilder`: one slot per parameter of a compiled function, filled in
 * place one `set` at a time, each value validated against its parameter's
 * kind as it arrives, and consumed by `into_args`.
 */
module ArgsBuilders {
  import opened Wrappers
  import opened Abi
  import opened CompiledCodes

  class ArgsBuilder {
    const code: CompiledCode
    const values: array<Option<AbiValue>>
    /** Set by `IntoArgs`, which takes the builder by value: nothing may use it afterwards. */
    ghost var consumed: bool

    /** One slot per parameter, and every filled slot holds a value of its parameter's kind. */
    ghost predicate Valid()
      reads this, values
    {
      values.Length == |code.sig.params| &&
      forall i :: 0 <= i < values.Length && values[i].Some? ==> values[i].value.Kind() == code.sig.params[i]
    }

    /** The slots as the caller sees them. */
    ghost function Slots(): seq<Option<AbiValue>>
      reads this, values
    {
      values[..]
    }

    /** `CompiledCode::args_builder`: every slot starts unset. */
    constructor (code: CompiledCode)
      ensures Valid() && !consumed && fresh(values)
      ensures this.code == code
      ensures Slots() == seq(|code.sig.params|, _ => None)
    {
      this.code := code;
      values := new Option<AbiValue>[|code.sig.params|](_ => None);
      consumed := false;
    }

    /**
     * `set(idx, value)`: accepts `value` only when slot `idx` exists and has
     * its kind; an accepted value replaces whatever the slot held, and a
     * refused call leaves every slot as it was.
     */
    method Set(idx: nat, value: AbiValue) returns (r: Result<(), JitArgumentError>)
      requires Valid() && !consumed
      modifies values
      ensures Valid()
      ensures r == Ok(()) <==> idx < |code.sig.params| && value.Kind() == code.sig.params[idx]
      ensures r == Err(IndexOutOfRange) <==> idx >= |code.sig.params|
      ensures r == Err(ArgumentTypeMismatch) <==> idx < |code.sig.params| && value.Kind() != code.sig.params[idx]
      ensures Slots() == if r.Ok? then old(Slots())[idx := Some(value)] else old(Slots())
    {
      if idx >= values.Length {
        return Err(IndexOutOfRange);
      }
      if value.Kind() != code.sig.params[idx] {
        return Err(ArgumentTypeMismatch);
      }
      values[idx] := Some(value);
      r := Ok(());
    }

    /** `is_set(idx)`: whether slot `idx` holds a value (a slot that does not exist holds none). */
    method IsSet(idx: nat) returns (b: bool)
      requires Valid() && !consumed
      ensures b <==> idx < |Slots()| && Slots()[idx].Some?
    {
      b := idx < values.Length && values[idx].Some?;
    }

    /**
     * `into_args()`: consumes the builder; yields the validated `Args` when
     * every slot is set, holding the slots' values in order, and nothing otherwise.
     */
    method IntoArgs() returns (r: Option<Args>)
      requires Valid() && !consumed
      modifies this
      ensures consumed && Slots() == old(Slots())
      ensures r.None? <==> exists i :: 0 <= i < |Slots()| && Slots()[i].None?
      ensures r.Some? ==> r.value.code == code && |r.value.values| == |Slots()|
      ensures r.Some? ==> forall i :: 0 <= i < |Slots()| ==> Slots()[i] == Some(r.value.values[i])
    {
      var vals: seq<AbiValue> := [];
      var i := 0;
      while i < values.Length
        invariant 0 <= i <= values.Length
        invariant |vals| == i
        invariant forall j :: 0 <= j < i ==> values[j] == Some(vals[j])
      {
        match values[i]
        case None =>
          consumed := true;
          return None;
        case Some(v) =>
          vals := vals + [v];
        i := i + 1;
      }
      consumed := true;
      r := Some(ArgList(code, vals));
    }
  }

  /**
   * The bulk entry point's promised equivalence: building the arguments
   * slot by slot, in order, and invoking the result has the outcome of
   * `Invoke` on the same values.
   */
  method InvokeThroughBuilder(code: CompiledCode, args: seq<AbiValue>)
    returns (r: Result<Option<AbiValue>, JitArgumentError>)
    ensures r == Invoke(code, args)
  {
    if |args| != |code.sig.params| {
      return Err(WrongNumberOfArguments);
    }
    var builder := new ArgsBuilder(code);
    var i := 0;
    while i < |args|
      invariant 0 <= i <= |args|
      invariant builder.Valid() && !builder.consumed && builder.code == code && fresh(builder.values)
      invariant forall j :: 0 <= j < i ==> builder.Slots()[j] == Some(args[j])
      invariant forall j :: 0 <= j < i ==> args[j].Kind() == code.sig.params[j]
    {
      var accepted := builder.Set(i, args[i]);
      if accepted.Err? {
        return Err(ArgumentTypeMismatch);
      }
      i := i + 1;
    }
    var built := builder.IntoArgs();
    assert built.Some?;
    assert built.value.values == args;
    r := Ok(InvokeArgs(built.value));
  }
}
