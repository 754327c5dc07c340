/** Shared value types: optional and failing results, JavaScript numbers and instants. */
module Values {

  datatype Option<+T> = None | Some(value: T) {
    /** The value, or `default` when there is none. */
    function GetOr(default: T): (v: T)
      ensures Some? ==> v == value
      ensures None? ==> v == default
    {
      match this
      case Some(v) => v
      case None => default
    }
  }

  /** A thrown exception becomes `Err`; a returned value becomes `Ok`. */
  datatype Result<+T, +E> = Ok(value: T) | Err(error: E)

  type Pos = n: int | n > 0 witness 1

  /** A JavaScript number. A finite number is kept exactly as the fraction
      `numer / denom`; `NotFinite` stands for NaN and the two infinities. */
  datatype Num = Finite(numer: int, denom: Pos) | NotFinite

  /** `Number.isInteger`: finite and without a fractional part. */
  predicate IsInteger(n: Num) {
    n.Finite? && n.numer % n.denom == 0
  }

  /** The whole number an integral `Num` stands for. */
  function IntValue(n: Num): (i: int)
    requires IsInteger(n)
    ensures i * n.denom == n.numer
  {
    n.numer / n.denom
  }

  /** The `Num` a JavaScript integer is. */
  function FromInt(i: int): (n: Num)
    ensures IsInteger(n) && IntValue(n) == i
  {
    Finite(i, 1)
  }

  /** A point in time as a `Date` holds it: milliseconds since the epoch. The
      model treats instants as opaque values supplied by the caller. */
  type Instant = int
}
