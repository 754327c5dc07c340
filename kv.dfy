/** The KV revision of the worker (src/index.ts): the total lives in a KV
    namespace under the key `'count'`, absence stays `null`, and the queue
    consumer reads, updates and writes the total once per message. */
module KvRevision {
  import opened Values
  import opened Totals
  import opened Messages

  /** The KV key the counter lives under. */
  const CountKey := "count"

  /** `MaybeTotal = Total.nullable()`: nothing stored stays "no total"; a
      stored record must pass `Total.parse`. */
  function MaybeTotal(value: Option<RawTotal>): (r: Result<Option<Total>, TotalError>)
    ensures value.None? ==> r == Ok(None)
    ensures value.Some? ==> (r.Ok? <==> IsInteger(value.value.count))
    ensures value.Some? && r.Ok? ==> r.value.Some? && ParseTotal(value.value) == Ok(r.value.value)
  {
    match value
    case None => Ok(None)
    case Some(raw) =>
      match ParseTotal(raw)
      case Ok(t) => Ok(Some(t))
      case Err(e) => Err(e)
  }

  /** The KV namespace: its entries, and the log of every `put` made to it
      (the log only records; it is never read by the worker). */
  class KvStore {
    var entries: map<string, RawTotal>
    ghost var puts: seq<(string, RawTotal)>

    constructor (entries: map<string, RawTotal>)
      ensures this.entries == entries && puts == []
    {
      this.entries := entries;
      puts := [];
    }

    /** What `get(key, { type: 'json' })` yields: `None` for `null`. */
    function Lookup(key: string): (v: Option<RawTotal>)
      reads this
      ensures v.Some? <==> key in entries
      ensures v.Some? ==> v.value == entries[key]
    {
      if key in entries then Some(entries[key]) else None
    }

    /** `get(key, { type: 'json' })`. */
    method Get(key: string) returns (v: Option<RawTotal>)
      ensures v == Lookup(key)
    {
      v := if key in entries then Some(entries[key]) else None;
    }

    /** `put(key, JSON.stringify(value))`. */
    method Put(key: string, value: RawTotal)
      modifies this
      ensures entries == old(entries)[key := value]
      ensures puts == old(puts) + [(key, value)]
    {
      entries := entries[key := value];
      puts := puts + [(key, value)];
    }
  }

  /** `GET /total`: the stored total, `null` when there is none, and an
      error when the stored record fails `Total.parse`. */
  method TotalRoute(kv: KvStore) returns (r: Result<Option<Total>, TotalError>)
    ensures CountKey !in kv.entries ==> r == Ok(None)
    ensures CountKey in kv.entries ==> (r.Ok? <==> IsInteger(kv.entries[CountKey].count))
    ensures CountKey in kv.entries && r.Ok? ==>
              var stored := kv.entries[CountKey];
              r.value.Some? && r.value.value.count * stored.count.denom == stored.count.numer
              && r.value.value.createdAt == stored.createdAt && r.value.value.updatedAt == stored.updatedAt
  {
    var value := kv.Get(CountKey);
    r := MaybeTotal(value);
  }

  /** The total after applying the first messages of a batch one by one, as
      the loop of the queue consumer does, starting from `start` (`None` for
      a namespace without a total). `clock[i]` is the instant message `i` is
      applied at. */
  function Fold(start: Option<Total>, batch: seq<DeltaMsg>, clock: seq<Instant>): (r: Option<Total>)
    requires |clock| == |batch|
    ensures r.Some? <==> start.Some? || batch != []
    ensures start.Some? ==> r.value.createdAt == start.value.createdAt
    decreases |batch|
  {
    if batch == [] then start
    else
      var n := |batch| - 1;
      Some(NewTotal(Fold(start, batch[..n], clock[..n]), Some(batch[n].delta), clock[n]))
  }

  /** The `put`s the queue consumer makes for a batch: one per message, in
      message order, each the total reached so far. */
  function Puts(start: Option<Total>, batch: seq<DeltaMsg>, clock: seq<Instant>): (p: seq<(string, RawTotal)>)
    requires |clock| == |batch|
    ensures |p| == |batch|
    ensures forall i :: 0 <= i < |p| ==> p[i].0 == CountKey
    ensures batch != [] ==> p[|p| - 1] == (CountKey, ToRaw(Fold(start, batch, clock).value))
    decreases |batch|
  {
    if batch == [] then []
    else
      var n := |batch| - 1;
      Puts(start, batch[..n], clock[..n]) + [(CountKey, ToRaw(Fold(start, batch, clock).value))]
  }

  /** After a batch the count is the starting count (0 if there was none)
      plus the batch's net delta; the creation time is the old one, or the
      instant of the first message; the update time is that of the last. */
  lemma {:induction false} FoldTotal(start: Option<Total>, batch: seq<DeltaMsg>, clock: seq<Instant>)
    requires |clock| == |batch|
    requires start.Some? || batch != []
    ensures Fold(start, batch, clock).Some?
    ensures Fold(start, batch, clock).value.count == (if start.Some? then start.value.count else 0) + NetDelta(batch)
    ensures Fold(start, batch, clock).value.createdAt == if start.Some? then start.value.createdAt else clock[0]
    ensures Fold(start, batch, clock).value.updatedAt == if batch == [] then start.value.updatedAt else clock[|clock| - 1]
    decreases |batch|
  {
    if batch != [] {
      var n := |batch| - 1;
      if start.Some? || n > 0 {
        FoldTotal(start, batch[..n], clock[..n]);
      } else {
        assert batch[..n] == [];
      }
    }
  }

  /** Exactly one `put` per message, in message order: the `i`-th writes the
      total reached after the first `i + 1` messages under `'count'`. */
  lemma {:induction false} PutsInOrder(start: Option<Total>, batch: seq<DeltaMsg>, clock: seq<Instant>)
    requires |clock| == |batch|
    ensures |Puts(start, batch, clock)| == |batch|
    ensures forall i :: 0 <= i < |batch| ==>
              Puts(start, batch, clock)[i] == (CountKey, ToRaw(Fold(start, batch[..i + 1], clock[..i + 1]).value))
    decreases |batch|
  {
    if batch != [] {
      var n := |batch| - 1;
      PutsInOrder(start, batch[..n], clock[..n]);
      forall i | 0 <= i < |batch|
        ensures Puts(start, batch, clock)[i] == (CountKey, ToRaw(Fold(start, batch[..i + 1], clock[..i + 1]).value))
      {
        if i < n {
          assert batch[..n][..i + 1] == batch[..i + 1];
          assert clock[..n][..i + 1] == clock[..i + 1];
        } else {
          assert batch[..i + 1] == batch && clock[..i + 1] == clock;
        }
      }
    }
  }

  /** The queue consumer: for every message, read the total, validate it,
      fold the delta in and write it back. An empty batch writes nothing; a
      stored record that fails `Total.parse` stops the batch before any
      write (a written total always passes it). */
  method QueueHandler(batch: seq<DeltaMsg>, kv: KvStore, clock: seq<Instant>) returns (ok: bool)
    requires |clock| == |batch|
    modifies kv
    ensures batch == [] ==> ok && kv.entries == old(kv.entries) && kv.puts == old(kv.puts)
    ensures MaybeTotal(old(kv.Lookup(CountKey))).Err? && batch != [] ==>
              !ok && kv.entries == old(kv.entries) && kv.puts == old(kv.puts)
    ensures MaybeTotal(old(kv.Lookup(CountKey))).Ok? ==>
              var start := MaybeTotal(old(kv.Lookup(CountKey))).value;
              ok && kv.puts == old(kv.puts) + Puts(start, batch, clock)
              && kv.entries == if batch == [] then old(kv.entries)
                               else old(kv.entries)[CountKey := ToRaw(Fold(start, batch, clock).value)]
  {
    ghost var parsed := MaybeTotal(kv.Lookup(CountKey));
    ghost var start := if parsed.Ok? then parsed.value else None;
    var i := 0;
    while i < |batch|
      invariant 0 <= i <= |batch|
      invariant i > 0 ==> parsed.Ok?
      invariant kv.entries == if i == 0 then old(kv.entries)
                              else old(kv.entries)[CountKey := ToRaw(Fold(start, batch[..i], clock[..i]).value)]
      invariant kv.puts == old(kv.puts) + Puts(start, batch[..i], clock[..i])
    {
      var value := kv.Get(CountKey);
      var previousTotal := MaybeTotal(value);
      if previousTotal.Err? {
        return false;
      }
      assert previousTotal.value == Fold(start, batch[..i], clock[..i]);
      var total := NewTotal(previousTotal.value, Some(batch[i].delta), clock[i]);
      assert batch[..i + 1][..i] == batch[..i] && clock[..i + 1][..i] == clock[..i];
      kv.Put(CountKey, ToRaw(total));
      i := i + 1;
    }
    assert batch[..i] == batch && clock[..i] == clock;
    return true;
  }

  /** A batch delivered twice is applied twice: nothing deduplicates it. */
  lemma RedeliveryCountsTwice(start: Option<Total>, batch: seq<DeltaMsg>, first: seq<Instant>, second: seq<Instant>)
    requires |first| == |batch| && |second| == |batch|
    requires start.Some? || batch != []
    ensures Fold(Fold(start, batch, first), batch, second).Some?
    ensures Fold(Fold(start, batch, first), batch, second).value.count
            == (if start.Some? then start.value.count else 0) + 2 * NetDelta(batch)
  {
    FoldTotal(start, batch, first);
    FoldTotal(Fold(start, batch, first), batch, second);
  }

  /** `GET /inc`: enqueue +1. */
  method Inc(queue: DeltaQueue, now: Instant)
    modifies queue
    ensures queue.sent == old(queue.sent) + [DeltaMsg(1, now)]
  {
    queue.Send(DeltaMsg(1, now));
  }

  /** `GET /dec`: enqueue -1. */
  method Dec(queue: DeltaQueue, now: Instant)
    modifies queue
    ensures queue.sent == old(queue.sent) + [DeltaMsg(-1, now)]
  {
    queue.Send(DeltaMsg(-1, now));
  }
}
