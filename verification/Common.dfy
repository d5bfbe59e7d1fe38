/** Small definitions shared by every component. */
module Common {

  datatype Option<+T> = None | Some(value: T)

  /** The completion of an operation that may throw. */
  datatype Result<+T> = Ok(value: T) | Err(error: Error)

  datatype Error = TypeError | RangeError

  /** The result of ToIntegerOrInfinity: an integer or one of the infinities. */
  datatype ExtInt = Fin(i: int) | PosInf | NegInf

  /** 2^53 - 1, `Value::maximumLength()`. */
  const MAX_LENGTH: int := 9007199254740991

  /**
   * The clamp every relative index goes through: a negative index counts from
   * the end and stops at zero, a non-negative one stops at the length.
   */
  function Clamp(relative: ExtInt, len: nat): (r: nat)
    ensures r <= len
    ensures relative.Fin? && 0 <= relative.i <= len ==> r == relative.i
    ensures relative.Fin? && 0 - len <= relative.i < 0 ==> r == relative.i + len
    ensures relative.PosInf? || (relative.Fin? && len < relative.i) ==> r == len
    ensures relative.NegInf? || (relative.Fin? && relative.i < 0 - len) ==> r == 0
  {
    match relative
    case PosInf => len
    case NegInf => 0
    case Fin(i) =>
      if i < 0 then (if len + i < 0 then 0 else len + i)
      else if i < len then i else len
  }

  /** The same for an end index, which defaults to the length. */
  function ClampEnd(end: Option<ExtInt>, len: nat): (r: nat)
    ensures r <= len
    ensures end.None? || end.value.PosInf? || (end.value.Fin? && len < end.value.i) ==> r == len
    ensures end.Some? && end.value.Fin? && 0 <= end.value.i <= len ==> r == end.value.i
    ensures end.Some? && end.value.Fin? && 0 - len <= end.value.i < 0 ==> r == end.value.i + len
    ensures end.Some? && (end.value.NegInf? || (end.value.Fin? && end.value.i < 0 - len)) ==> r == 0
  {
    if end.None? then len else Clamp(end.value, len)
  }
}
