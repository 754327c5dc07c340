/** The Durable Object revision of the worker (src/index.tsx): one counter
    object owns a storage slot under the key `'count'`; the queue consumer
    nets a whole batch into one delta and POSTs it to that object. */
module DurableRevision {
  import opened Values
  import opened Totals
  import opened Messages
  import opened Decimal
  import opened Prompts

  /** The storage key the counter lives under. */
  const CountKey := "count"

  /** `MaybeTotal = Total.optional().default(...)`: nothing stored reads as a
      zero count created and updated `now`; a stored record must pass
      `Total.parse`. */
  function MaybeTotal(slot: Option<RawTotal>, now: Instant): (r: Result<Total, TotalError>)
    ensures slot.None? ==> r == Ok(Total(0, now, now))
    ensures slot.Some? ==> (r.Ok? <==> IsInteger(slot.value.count))
    ensures slot.Some? && r.Ok? ==>
              && r.value.count * slot.value.count.denom == slot.value.count.numer
              && r.value.createdAt == slot.value.createdAt
              && r.value.updatedAt == slot.value.updatedAt
  {
    match slot
    case None => Ok(Total(0, now, now))
    case Some(raw) => ParseTotal(raw)
  }

  /** The part of a request `fetch` looks at: the method, the URL's path and
      the `delta` search parameter (`None` when it is missing). */
  datatype Request = Request(verb: string, path: string, deltaParam: Option<string>)

  /** A JSON body holding a total, a 404, or the exception `fetch` throws
      when the stored record fails `Total.parse`. */
  datatype Response = Body(total: RawTotal) | NotFound | Failed(error: TotalError)

  /** What one `fetch` answers and what it `put`s under `'count'`, if anything. */
  datatype Outcome = Outcome(response: Response, write: Option<RawTotal>)

  /** `parseInt(url.searchParams.get('delta') || '1')`: a missing or empty
      parameter means 1; otherwise the parameter's decimal value, or NaN
      (`None`). */
  function QueryDelta(param: Option<string>): (d: Option<int>)
    ensures param.None? || param == Some("") ==> d == Some(1)
    ensures param.Some? && param.value != "" ==> d == ParseInt(param.value)
  {
    var text := if param.None? || param.value == "" then "1" else param.value;
    ParseInt(text)
  }

  /** The decimal delta the queue consumer writes into `?delta=` is the one
      `fetch` reads back. */
  lemma QueryDeltaRoundTrip(n: int)
    ensures QueryDelta(Some(ShowInt(n))) == Some(n)
  {
    ParseShowInt(n);
  }

  /** The request the queue consumer sends: `POST /?delta=${cumdelta}`. It
      reaches the counter's POST branch, and the delta `fetch` reads from it is
      exactly `cumdelta`. */
  function NetPost(cumdelta: int): (req: Request)
    ensures req.verb == "POST" && req.path == "/"
    ensures QueryDelta(req.deltaParam) == Some(cumdelta)
  {
    QueryDeltaRoundTrip(cumdelta);
    Request("POST", "/", Some(ShowInt(cumdelta)))
  }

  /** The new total a POST computes from the one read: `getNewTotal` with the
      parsed delta. A NaN delta leaves a NaN count behind. */
  function Posted(total: Total, delta: Option<int>, now: Instant): (raw: RawTotal)
    ensures delta.Some? ==> raw == ToRaw(NewTotal(Some(total), delta, now))
    ensures delta.None? ==> !IsInteger(raw.count) && raw.createdAt == total.createdAt && raw.updatedAt == now
  {
    match delta
    case Some(d) => ToRaw(NewTotal(Some(total), Some(d), now))
    case None => RawTotal(NotFinite, total.createdAt, now)
  }

  /** `DurableCounter.fetch` as a function of the stored slot: the path is
      checked first, then the slot is read and validated, then the method
      decides. Only a POST writes, and it writes what it answers. */
  function Handle(slot: Option<RawTotal>, req: Request, now: Instant): (o: Outcome)
    ensures req.path != "/" ==> o == Outcome(NotFound, None)
    ensures req.path == "/" && MaybeTotal(slot, now).Err? ==> o == Outcome(Failed(MaybeTotal(slot, now).error), None)
    ensures o.write.Some? <==> (req.path == "/" && req.verb == "POST" && MaybeTotal(slot, now).Ok?)
    ensures o.write.Some? ==> o.response == Body(o.write.value)
    ensures o.write.Some? ==> o.write.value == Posted(MaybeTotal(slot, now).value, QueryDelta(req.deltaParam), now)
    ensures req.verb == "GET" ==> o.write.None?
    ensures req.path == "/" && req.verb == "GET" && MaybeTotal(slot, now).Ok? ==>
              o.response == Body(ToRaw(MaybeTotal(slot, now).value))
    ensures req.path == "/" && req.verb != "GET" && req.verb != "POST" && MaybeTotal(slot, now).Ok? ==>
              o == Outcome(NotFound, None)
  {
    if req.path != "/" then Outcome(NotFound, None)
    else match MaybeTotal(slot, now)
      case Err(e) => Outcome(Failed(e), None)
      case Ok(total) =>
        if req.verb == "GET" then Outcome(Body(ToRaw(total)), None)
        else if req.verb == "POST" then
          var raw := Posted(total, QueryDelta(req.deltaParam), now);
          Outcome(Body(raw), Some(raw))
        else Outcome(NotFound, None)
  }

  /** Storage after an outcome: the write, if any, replaces `'count'` and
      every other key is left alone; no other key appears. */
  function Written(storage: map<string, RawTotal>, write: Option<RawTotal>): (s: map<string, RawTotal>)
    ensures s.Keys == storage.Keys + (if write.Some? then {CountKey} else {})
    ensures forall k :: k in storage && k != CountKey ==> k in s && s[k] == storage[k]
    ensures write.Some? ==> CountKey in s && s[CountKey] == write.value
    ensures write.None? ==> s == storage
  {
    match write
    case Some(raw) => storage[CountKey := raw]
    case None => storage
  }

  /** A fresh counter answers GET with a zero count created and updated now,
      and its first POST of `n` creates a total of `n` created and updated
      now. */
  lemma FreshCounter(n: int, now: Instant)
    ensures Handle(None, Request("GET", "/", None), now) == Outcome(Body(ToRaw(Total(0, now, now))), None)
    ensures Handle(None, NetPost(n), now).write == Some(ToRaw(Total(n, now, now)))
  {
  }

  /** A POST of `n` against a stored total adds `n`, keeps the creation time,
      stamps `now`, and answers with exactly what it stores. */
  lemma PostAppliesDelta(t: Total, n: int, now: Instant)
    ensures var w := ToRaw(Total(t.count + n, t.createdAt, now));
            Handle(Some(ToRaw(t)), NetPost(n), now) == Outcome(Body(w), Some(w))
  {
  }

  /** A POST with no `delta`, or an empty one, adds 1. */
  lemma DefaultDeltaIsOne(t: Total, param: Option<string>, now: Instant)
    requires param.None? || param == Some("")
    ensures var w := ToRaw(Total(t.count + 1, t.createdAt, now));
            Handle(Some(ToRaw(t)), Request("POST", "/", param), now) == Outcome(Body(w), Some(w))
  {
  }

  /** A POST whose `delta` starts with a letter (which `parseInt` reads as
      NaN) stores a NaN count; from then on every request to `/` fails and
      nothing more is written. */
  lemma NonNumericDeltaPoisons(t: Total, param: string, now: Instant, next: Request, at: Instant)
    requires param != "" && ('a' <= param[0] <= 'z' || 'A' <= param[0] <= 'Z')
    requires next.path == "/"
    ensures var o := Handle(Some(ToRaw(t)), Request("POST", "/", Some(param)), now);
            o.write.Some? && Handle(o.write, next, at) == Outcome(Failed(CountNotANumber), None)
  {
  }

  /** The Durable Object: its storage, of which only the key `'count'` is
      ever touched. */
  class DurableCounter {
    var storage: map<string, RawTotal>

    constructor (storage: map<string, RawTotal>)
      ensures this.storage == storage
    {
      this.storage := storage;
    }

    /** `this.state.storage.get('count')`. */
    function Slot(): (slot: Option<RawTotal>)
      reads this
      ensures slot.Some? <==> CountKey in storage
      ensures slot.Some? ==> slot.value == storage[CountKey]
    {
      if CountKey in storage then Some(storage[CountKey]) else None
    }

    /** `fetch(request)`: serve, update or refuse, as `Handle` says. */
    method Fetch(req: Request, now: Instant) returns (resp: Response)
      modifies this
      ensures resp == Handle(old(Slot()), req, now).response
      ensures storage == Written(old(storage), Handle(old(Slot()), req, now).write)
    {
      if req.path != "/" {
        return NotFound;
      }
      var parsed := MaybeTotal(Slot(), now);
      if parsed.Err? {
        return Failed(parsed.error);
      }
      if req.verb == "GET" {
        resp := Body(ToRaw(parsed.value));
      } else if req.verb == "POST" {
        var total := Posted(parsed.value, QueryDelta(req.deltaParam), now);
        storage := storage[CountKey := total];
        resp := Body(total);
      } else {
        resp := NotFound;
      }
    }
  }

  /** The loop of the queue consumer: `cumdelta` accumulates every message's
      delta. */
  method CumulativeDelta(messages: seq<DeltaMsg>) returns (cumdelta: int)
    ensures cumdelta == NetDelta(messages)
  {
    cumdelta := 0;
    for i := 0 to |messages|
      invariant cumdelta == NetDelta(messages[..i])
    {
      assert messages[..i + 1][..i] == messages[..i];
      cumdelta := cumdelta + messages[i].delta;
    }
    assert messages[..|messages|] == messages;
  }

  /** The queue consumer: one POST per batch, carrying the batch's net delta.
      An empty batch still POSTs a delta of 0. */
  method QueueHandler(batch: seq<DeltaMsg>, counter: DurableCounter, now: Instant) returns (resp: Response)
    modifies counter
    ensures resp == Handle(old(counter.Slot()), NetPost(NetDelta(batch)), now).response
    ensures counter.storage == Written(old(counter.storage), Handle(old(counter.Slot()), NetPost(NetDelta(batch)), now).write)
    ensures old(counter.Slot()).None? ==>
              resp == Body(ToRaw(Total(NetDelta(batch), now, now))) && counter.storage[CountKey] == resp.total
    ensures old(counter.Slot()).Some? && ParseTotal(old(counter.Slot()).value).Ok? ==>
              var previous := ParseTotal(old(counter.Slot()).value).value;
              resp == Body(ToRaw(Total(previous.count + NetDelta(batch), previous.createdAt, now)))
              && counter.storage[CountKey] == resp.total
    ensures old(counter.Slot()).Some? && ParseTotal(old(counter.Slot()).value).Err? ==>
              resp.Failed? && counter.storage == old(counter.storage)
  {
    var cumdelta := CumulativeDelta(batch);
    resp := counter.Fetch(NetPost(cumdelta), now);
  }

  /** `sendDeltaMessage(queue, delta)`: one message, stamped `now`. */
  method SendDeltaMessage(queue: DeltaQueue, delta: int, now: Instant)
    modifies queue
    ensures queue.sent == old(queue.sent) + [DeltaMsg(delta, now)]
  {
    queue.Send(DeltaMsg(delta, now));
  }

  /** `GET /inc`: enqueue +1. */
  method Inc(queue: DeltaQueue, now: Instant)
    modifies queue
    ensures queue.sent == old(queue.sent) + [DeltaMsg(1, now)]
  {
    SendDeltaMessage(queue, 1, now);
  }

  /** `GET /dec`: enqueue -1. */
  method Dec(queue: DeltaQueue, now: Instant)
    modifies queue
    ensures queue.sent == old(queue.sent) + [DeltaMsg(-1, now)]
  {
    SendDeltaMessage(queue, -1, now);
  }

  /** `POST /update-count` after the model has answered with `response`: the
      answer's delta is enqueued only if `UpdateCount.parse` accepts it. */
  method UpdateCountRoute(queue: DeltaQueue, jsonParse: string -> Option<Json>, response: Option<string>, now: Instant)
    returns (r: Result<UpdateCount, ParseError>)
    modifies queue
    ensures r == ParseUpdateCount(jsonParse, response)
    ensures r.Ok? ==> queue.sent == old(queue.sent) + [DeltaMsg(r.value.delta, now)]
    ensures r.Err? ==> queue.sent == old(queue.sent)
  {
    r := ParseUpdateCount(jsonParse, response);
    if r.Ok? {
      SendDeltaMessage(queue, r.value.delta, now);
    }
  }
}
