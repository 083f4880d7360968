/**
 * A compiled function: its signature, its native entry point, the bulk
 * `invoke` entry point that validates a slice of arguments, and `Args`,
 * the validated argument tuple from which the trampoline may be reached.
 */
module CompiledCodes {
  import opened Wrappers
  import opened Abi

  /** Ordered parameter kinds (fixed arity) and an optional return kind. */
  datatype Signature = Signature(params: seq<AbiType>, ret: Option<AbiType>) {
    function Arity(): nat { |params| }
  }

  /**
   * The handle produced by the code generator. `native` stands for the
   * machine code, which is not modelled: it maps the argument registers to
   * the return register.
   */
  datatype CompiledCode = CompiledCode(sig: Signature, native: seq<u64> -> u64)

  /** The argument registers, in parameter order. */
  function Registers(vals: seq<AbiValue>): seq<u64> {
    seq(|vals|, i requires 0 <= i < |vals| => ToRaw(vals[i]))
  }

  /**
   * The layout loses nothing on a well-typed call: the callee, reading each
   * argument register at its parameter's declared kind, sees exactly the
   * argument passed in that position.
   */
  lemma CalleeSeesArguments(params: seq<AbiType>, vals: seq<AbiValue>)
    requires WellTyped(params, vals)
    ensures |Registers(vals)| == |params|
    ensures forall i :: 0 <= i < |params| ==> FromRaw(params[i], Registers(vals)[i]) == vals[i]
  {
    forall i | 0 <= i < |params| ensures FromRaw(params[i], Registers(vals)[i]) == vals[i] {
      RawRoundTrip(vals[i]);
    }
  }

  /**
   * The trampoline: performs the native call on arguments that already
   * passed validation, and tags the return register with the declared
   * return kind; with no declared return kind it yields nothing.
   */
  function Trampoline(code: CompiledCode, vals: seq<AbiValue>): (r: Option<AbiValue>)
    requires WellTyped(code.sig.params, vals)
    ensures r.Some? <==> code.sig.ret.Some?
    ensures r.Some? ==> r.value.Kind() == code.sig.ret.value
    ensures r.Some? ==> ToRaw(r.value) == code.native(Registers(vals))
  {
    match code.sig.ret
    case None => None
    case Some(t) =>
      RawTagRoundTrip(t, code.native(Registers(vals)));
      Some(FromRaw(t, code.native(Registers(vals))))
  }

  /**
   * The first position whose value's kind differs from the declared kind,
   * checking positions in order; `None` when every position matches.
   */
  function FirstMismatch(params: seq<AbiType>, vals: seq<AbiValue>): (r: Option<nat>)
    requires |vals| == |params|
    ensures r.None? <==> WellTyped(params, vals)
    ensures r.Some? ==> r.value < |vals| && vals[r.value].Kind() != params[r.value]
    ensures r.Some? ==> forall j :: 0 <= j < r.value ==> vals[j].Kind() == params[j]
  {
    if vals == [] then None
    else if vals[0].Kind() != params[0] then Some(0)
    else match FirstMismatch(params[1..], vals[1..])
      case None => None
      case Some(k) => Some(k + 1)
  }

  /**
   * `CompiledCode::invoke`: the arity is compared first, then each position's
   * kind in order, and only when both checks pass is the native code called.
   */
  function Invoke(code: CompiledCode, args: seq<AbiValue>): (r: Result<Option<AbiValue>, JitArgumentError>)
    ensures r == Err(WrongNumberOfArguments) <==> |args| != code.sig.Arity()
    ensures r == Err(ArgumentTypeMismatch) <==>
      |args| == code.sig.Arity() && exists i :: 0 <= i < |args| && args[i].Kind() != code.sig.params[i]
    ensures r.Ok? <==> WellTyped(code.sig.params, args)
    ensures r != Err(IndexOutOfRange)
    ensures r.Ok? ==> WellTyped(code.sig.params, args) && r.value == Trampoline(code, args)
  {
    if |args| != |code.sig.params| then Err(WrongNumberOfArguments)
    else if FirstMismatch(code.sig.params, args).Some? then Err(ArgumentTypeMismatch)
    else Ok(Trampoline(code, args))
  }

  /** Arity is checked before kinds: a wrong count wins even when every supplied position matches. */
  lemma ArityCheckedFirst(code: CompiledCode, args: seq<AbiValue>)
    requires |args| != code.sig.Arity()
    requires forall i :: 0 <= i < |args| && i < code.sig.Arity() ==> args[i].Kind() == code.sig.params[i]
    ensures Invoke(code, args) == Err(WrongNumberOfArguments)
  {
  }

  /** A well-typed call always succeeds, with a result of the declared return kind, or none. */
  lemma WellTypedCallSucceeds(code: CompiledCode, args: seq<AbiValue>)
    requires WellTyped(code.sig.params, args)
    ensures Invoke(code, args).Ok?
    ensures code.sig.ret.None? ==> Invoke(code, args) == Ok(None)
    ensures code.sig.ret.Some? ==>
      Invoke(code, args).value.Some? && Invoke(code, args).value.value.Kind() == code.sig.ret.value
  {
  }

  /** The raw contents of an `Args`: the code to call and one value per parameter. */
  datatype ArgList = ArgList(code: CompiledCode, values: seq<AbiValue>)

  /** `Args`: an argument tuple that can only exist fully populated and well-typed. */
  type Args = a: ArgList | WellTyped(a.code.sig.params, a.values)
    witness ArgList(CompiledCode(Signature([], None), _ => 0), [])

  /** `Args::invoke`: the same outcome as the bulk entry point on the same values. */
  function InvokeArgs(a: Args): (r: Option<AbiValue>)
    ensures Invoke(a.code, a.values) == Ok(r)
    ensures r.Some? <==> a.code.sig.ret.Some?
    ensures r.Some? ==> r.value.Kind() == a.code.sig.ret.value
  {
    Trampoline(a.code, a.values)
  }
}
