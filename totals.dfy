/** The counter's persisted aggregate, the `Total` schema that validates a
    stored record, and the transition `getNewTotal` that folds one delta into
    it. Both revisions of the worker (src/index.tsx and src/index.ts) declare
    the same schema and the same transition; they are defined once here. */
module Totals {
  import opened Values

  /** A validated total: a whole-number count and two instants. */
  datatype Total = Total(count: int, createdAt: Instant, updatedAt: Instant)

  /** A record as it sits in storage, before `Total.parse` has looked at it. */
  datatype RawTotal = RawTotal(count: Num, createdAt: Instant, updatedAt: Instant)

  /** Why `Total.parse` rejects a record: `z.number()` refuses NaN, and
      `.int()` refuses a fraction. A stored count that is not finite is
      reported as not a number: in this model it only arises from a NaN
      delta, never from an infinity. */
  datatype TotalError = CountNotANumber | CountNotInteger

  /** The record a total is stored as; `Total.parse` reads it back unchanged. */
  function ToRaw(t: Total): (raw: RawTotal)
    ensures raw.createdAt == t.createdAt && raw.updatedAt == t.updatedAt
    ensures IsInteger(raw.count) && IntValue(raw.count) == t.count
    ensures ParseTotal(raw) == Ok(t)
  {
    RawTotal(FromInt(t.count), t.createdAt, t.updatedAt)
  }

  /** `Total.parse`: accepts a record exactly when its count is a whole
      number, and then keeps that number and both instants. */
  function ParseTotal(raw: RawTotal): (r: Result<Total, TotalError>)
    ensures r.Ok? <==> IsInteger(raw.count)
    ensures r.Ok? ==> r.value.count * raw.count.denom == raw.count.numer
    ensures r.Ok? ==> r.value.createdAt == raw.createdAt && r.value.updatedAt == raw.updatedAt
  {
    match raw.count
    case NotFinite => Err(CountNotANumber)
    case Finite(n, d) =>
      if n % d == 0 then Ok(Total(IntValue(raw.count), raw.createdAt, raw.updatedAt))
      else Err(CountNotInteger)
  }

  /** `getNewTotal(lastTotal, delta = 1)`: an existing total gets the delta
      added, keeps its creation time and is stamped `now`; without one, the
      delta itself becomes the count, created and updated `now`. */
  function NewTotal(last: Option<Total>, delta: Option<int>, now: Instant): (t: Total)
    ensures last.Some? ==> t.count == last.value.count + delta.GetOr(1)
    ensures last.Some? ==> t.createdAt == last.value.createdAt
    ensures last.None? ==> t.count == delta.GetOr(1) && t.createdAt == now
    ensures t.updatedAt == now
    ensures last.Some? && last.value.createdAt <= now ==> t.createdAt <= t.updatedAt
  {
    var d := delta.GetOr(1);
    match last
    case Some(previous) => Total(previous.count + d, previous.createdAt, now)
    case None => Total(d, now, now)
  }
}
