/** Queue payloads (`DeltaMsg`), the net delta of a batch, and the producer
    side of the delta queue. */
module Messages {
  import opened Values

  /** `{ delta, timestamp }`: the change to apply and when it was sent. */
  datatype DeltaMsg = DeltaMsg(delta: int, timestamp: Instant)

  /** The sum of the deltas of a batch, accumulated front to back as the
      queue handlers walk `batch.messages`. */
  function NetDelta(batch: seq<DeltaMsg>): (d: int)
    ensures batch == [] ==> d == 0
    ensures |batch| == 1 ==> d == batch[0].delta
    decreases |batch|
  {
    if batch == [] then 0 else NetDelta(batch[..|batch| - 1]) + batch[|batch| - 1].delta
  }

  /** Splitting a batch in two and netting the halves gives the same delta:
      how messages are grouped into batches does not change the sum. */
  lemma {:induction false} NetDeltaAppend(a: seq<DeltaMsg>, b: seq<DeltaMsg>)
    ensures NetDelta(a + b) == NetDelta(a) + NetDelta(b)
    decreases |b|
  {
    if b == [] {
      assert a + b == a;
    } else {
      var b' := b[..|b| - 1];
      assert (a + b)[..|a + b| - 1] == a + b';
      NetDeltaAppend(a, b');
    }
  }

  /** The net delta with the message at index `j` taken out. */
  lemma NetDeltaWithout(s: seq<DeltaMsg>, j: nat)
    requires j < |s|
    ensures NetDelta(s) == NetDelta(s[..j] + s[j + 1..]) + s[j].delta
  {
    assert s == s[..j] + ([s[j]] + s[j + 1..]);
    NetDeltaAppend(s[..j], [s[j]] + s[j + 1..]);
    NetDeltaAppend([s[j]], s[j + 1..]);
    NetDeltaAppend(s[..j], s[j + 1..]);
  }

  /** When `b` is a reordering of `a`, some index of `b` holds the last
      message of `a`, and the rest of `b` is a reordering of the rest of `a`. */
  lemma MatchLast(a: seq<DeltaMsg>, b: seq<DeltaMsg>) returns (j: nat)
    requires a != [] && multiset(a) == multiset(b)
    ensures j < |b| && b[j] == a[|a| - 1]
    ensures multiset(b[..j] + b[j + 1..]) == multiset(a[..|a| - 1])
  {
    var x := a[|a| - 1];
    var a' := a[..|a| - 1];
    assert a == a' + [x];
    assert multiset(a) == multiset(a') + multiset{x};
    assert x in multiset(b);
    j :| 0 <= j < |b| && b[j] == x;
    var b' := b[..j] + b[j + 1..];
    assert b == b[..j] + [b[j]] + b[j + 1..];
    assert multiset(b) == multiset(b[..j]) + multiset{x} + multiset(b[j + 1..]);
    assert multiset(b') == multiset(b[..j]) + multiset(b[j + 1..]);
    assert multiset(b') + multiset{x} == multiset(a') + multiset{x};
    assert multiset(b') == multiset(b') + multiset{x} - multiset{x};
    assert multiset(a') == multiset(a') + multiset{x} - multiset{x};
  }

  /** The net delta does not depend on the order of the messages. */
  lemma {:induction false} NetDeltaPermutation(a: seq<DeltaMsg>, b: seq<DeltaMsg>)
    requires multiset(a) == multiset(b)
    ensures NetDelta(a) == NetDelta(b)
    decreases |a|
  {
    if a == [] {
      assert |b| == |multiset(b)| == 0;
    } else {
      var a' := a[..|a| - 1];
      var j := MatchLast(a, b);
      NetDeltaPermutation(a', b[..j] + b[j + 1..]);
      NetDeltaWithout(b, j);
    }
  }

  /** The producer's view of the delta queue: the messages accepted by
      `send`, in the order they were sent. Delivery is not modelled. */
  class DeltaQueue {
    var sent: seq<DeltaMsg>

    constructor ()
      ensures sent == []
    {
      sent := [];
    }

    /** `queue.send(message)`. */
    method Send(message: DeltaMsg)
      modifies this
      ensures sent == old(sent) + [message]
    {
      sent := sent + [message];
    }
  }
}
