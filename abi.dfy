/**
 * The values that may cross the boundary into compiled code: their kinds,
 * their tagged carrier, the errors of argument validation, and the raw
 * 64-bit register form a value takes under the native calling convention.
 */
module Abi {

  /** A 64-bit signed integer, the payload of an `Int` value. */
  newtype i64 = x: int | -0x8000_0000_0000_0000 <= x < 0x8000_0000_0000_0000

  /** The content of one 64-bit register, read as an unsigned number. */
  newtype u64 = x: int | 0 <= x < 0x1_0000_0000_0000_0000

  /** A 64-bit float, kept as its bit pattern: only its kind matters here. */
  datatype F64 = F64(bits: u64)

  /** The closed set of kinds a compiled function's parameters and result may have. */
  datatype AbiType = IntType | FloatType

  /** A concrete value of one kind; equality is structural (kind and payload). */
  datatype AbiValue = Int(i: i64) | Float(f: F64) {

    /** The kind of this value, read without consuming it. */
    function Kind(): AbiType {
      match this
      case Int(_) => IntType
      case Float(_) => FloatType
    }
  }

  /** Why a set of arguments was refused before any native call. */
  datatype JitArgumentError =
    | WrongNumberOfArguments
    | ArgumentTypeMismatch
    | IndexOutOfRange

  /** `vals` has exactly one value per parameter, each of the declared kind. */
  predicate WellTyped(params: seq<AbiType>, vals: seq<AbiValue>) {
    |vals| == |params| &&
    forall i :: 0 <= i < |vals| ==> vals[i].Kind() == params[i]
  }

  const TwoTo64: int := 0x1_0000_0000_0000_0000

  /** The register content that carries `v` into compiled code (two's complement for integers). */
  function ToRaw(v: AbiValue): u64 {
    match v
    case Int(x) => if x >= 0 then x as int as u64 else (x as int + TwoTo64) as u64
    case Float(f) => f.bits
  }

  /** Reads a register as a value of kind `t`; the result always has that kind. */
  function FromRaw(t: AbiType, raw: u64): (v: AbiValue)
    ensures v.Kind() == t
    ensures t == FloatType ==> v == Float(F64(raw))
    ensures t == IntType && raw < 0x8000_0000_0000_0000 ==> v == Int(raw as int as i64)
  {
    match t
    case IntType =>
      if raw < 0x8000_0000_0000_0000 then Int(raw as int as i64)
      else Int((raw as int - TwoTo64) as i64)
    case FloatType => Float(F64(raw))
  }

  /** Reading back a register with the kind it was written with gives the original value. */
  lemma RawRoundTrip(v: AbiValue)
    ensures FromRaw(v.Kind(), ToRaw(v)) == v
  {
  }

  /** Conversely, tagging a register and passing the value back writes the same register. */
  lemma RawTagRoundTrip(t: AbiType, raw: u64)
    ensures ToRaw(FromRaw(t, raw)) == raw
  {
  }
}
