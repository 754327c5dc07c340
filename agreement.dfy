/** How the two revisions of the queue consumer relate: the Durable Object
    revision nets a batch into one POST, the KV revision folds the batch in
    message by message, and both end at the same count. */
module Agreement {
  import opened Values
  import opened Totals
  import opened Messages
  import opened Prompts
  import DurableRevision
  import KvRevision

  /** The record a slot holds for a total, or nothing. */
  function StoredSlot(t: Option<Total>): (slot: Option<RawTotal>)
    ensures slot.Some? <==> t.Some?
    ensures t.Some? ==> ParseTotal(slot.value) == Ok(t.value)
  {
    match t
    case Some(total) => Some(ToRaw(total))
    case None => None
  }

  /** The outcome of the Durable Object consumer for a batch: one POST of
      the batch's net delta against the stored slot. */
  function DurableBatch(slot: Option<RawTotal>, batch: seq<DeltaMsg>, now: Instant): (o: DurableRevision.Outcome) {
    DurableRevision.Handle(slot, DurableRevision.NetPost(NetDelta(batch)), now)
  }

  /** For any batch and any starting total, both revisions end at the
      starting count plus the batch's net delta (a missing total counting as
      0). With a starting total both keep its creation time. They differ on
      an empty batch against an empty store: the Durable Object writes a zero
      total, the KV namespace stays empty. */
  lemma {:induction false} RevisionsAgree(start: Option<Total>, batch: seq<DeltaMsg>, clock: seq<Instant>, now: Instant)
    requires |clock| == |batch|
    ensures var o := DurableBatch(StoredSlot(start), batch, now);
            var kv := KvRevision.Fold(start, batch, clock);
            var base := if start.Some? then start.value.count else 0;
            && o.write.Some? && ParseTotal(o.write.value).Ok?
            && ParseTotal(o.write.value).value.count == base + NetDelta(batch)
            && (kv.Some? <==> start.Some? || batch != [])
            && (kv.Some? ==> kv.value.count == base + NetDelta(batch))
            && (start.Some? ==> ParseTotal(o.write.value).value.createdAt == start.value.createdAt
                                && kv.value.createdAt == start.value.createdAt)
  {
    DurableRevision.QueryDeltaRoundTrip(NetDelta(batch));
    if start.Some? || batch != [] {
      KvRevision.FoldTotal(start, batch, clock);
    }
  }

  /** Reordering the messages of a batch changes nothing the Durable Object
      writes, nor the count the KV namespace ends at. */
  lemma {:induction false} OrderDoesNotMatter(start: Option<Total>, a: seq<DeltaMsg>, b: seq<DeltaMsg>,
                           clockA: seq<Instant>, clockB: seq<Instant>, now: Instant)
    requires multiset(a) == multiset(b)
    requires |clockA| == |a| && |clockB| == |b|
    ensures DurableBatch(StoredSlot(start), a, now) == DurableBatch(StoredSlot(start), b, now)
    ensures KvRevision.Fold(start, a, clockA).Some? <==> KvRevision.Fold(start, b, clockB).Some?
    ensures KvRevision.Fold(start, a, clockA).Some? ==>
              KvRevision.Fold(start, a, clockA).value.count == KvRevision.Fold(start, b, clockB).value.count
  {
    NetDeltaPermutation(a, b);
    assert |a| == |multiset(a)| == |multiset(b)| == |b|;
    if start.Some? || a != [] {
      KvRevision.FoldTotal(start, a, clockA);
      KvRevision.FoldTotal(start, b, clockB);
    }
  }

  /** Delivering `a` and `b` as two batches leaves the Durable Object with the
      same count as delivering them as one batch. */
  lemma GroupingDoesNotMatter(start: Option<Total>, a: seq<DeltaMsg>, b: seq<DeltaMsg>,
                              now1: Instant, now2: Instant, now: Instant)
    ensures var first := DurableBatch(StoredSlot(start), a, now1).write;
            var second := DurableBatch(first, b, now2).write;
            var together := DurableBatch(StoredSlot(start), a + b, now).write;
            && second.Some? && together.Some?
            && ParseTotal(second.value).Ok? && ParseTotal(together.value).Ok?
            && ParseTotal(second.value).value.count == ParseTotal(together.value).value.count
  {
    NetDeltaAppend(a, b);
    var na, nb := NetDelta(a), NetDelta(b);
    match start
    case Some(t) =>
      DurableRevision.PostAppliesDelta(t, na, now1);
      DurableRevision.PostAppliesDelta(Total(t.count + na, t.createdAt, now1), nb, now2);
      DurableRevision.PostAppliesDelta(t, na + nb, now);
    case None =>
      DurableRevision.FreshCounter(na, now1);
      DurableRevision.PostAppliesDelta(Total(na, now1, now1), nb, now2);
      DurableRevision.FreshCounter(na + nb, now);
  }

  /** Two batches against a fresh Durable Object: `[+1, +1, -1]` at `t1`
      gives a count of 1 created and updated at `t1`; then `[+5]` at `t2`
      gives 6, still created at `t1`, updated at `t2`. */
  lemma TwoBatchScenario(s1: Instant, s2: Instant, s3: Instant, s4: Instant, t1: Instant, t2: Instant)
    ensures var first := DurableBatch(None, [DeltaMsg(1, s1), DeltaMsg(1, s2), DeltaMsg(-1, s3)], t1).write;
            && first == Some(ToRaw(Total(1, t1, t1)))
            && DurableBatch(first, [DeltaMsg(5, s4)], t2).write == Some(ToRaw(Total(6, t1, t2)))
  {
    var batch := [DeltaMsg(1, s1), DeltaMsg(1, s2), DeltaMsg(-1, s3)];
    var one, two := [DeltaMsg(1, s1)], [DeltaMsg(1, s1), DeltaMsg(1, s2)];
    assert two[..1] == one;
    assert NetDelta(two) == 2;
    assert batch[..2] == two;
    assert NetDelta(batch) == 1;
    DurableRevision.FreshCounter(1, t1);
    DurableRevision.PostAppliesDelta(Total(1, t1, t1), 5, t2);
  }

  /** A message the model answers with `{"delta": -10}` is enqueued as -10,
      and a batch of just that message takes a count of 6 to -4. */
  lemma TextToCountScenario(jsonParse: string -> Option<Json>, text: string, stamp: Instant,
                            createdAt: Instant, updatedAt: Instant, now: Instant)
    requires text != ""
    requires jsonParse(text) == Some(JObject(map["delta" := JNumber(Finite(-10, 1))]))
    ensures ParseUpdateCount(jsonParse, Some(text)) == Ok(UpdateCount(-10))
    ensures DurableBatch(Some(ToRaw(Total(6, createdAt, updatedAt))), [DeltaMsg(-10, stamp)], now).write
            == Some(ToRaw(Total(-4, createdAt, now)))
  {
    DurableRevision.PostAppliesDelta(Total(6, createdAt, updatedAt), -10, now);
  }
}
