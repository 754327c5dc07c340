# Counter total: a verified model of the delta pipeline

This project models the core of a Cloudflare Worker that keeps one counter, the
*total*: a record `{count, createdAt, updatedAt}`. Producers enqueue signed
integer deltas: `/inc` sends +1, `/dec` sends -1, and `/update-count` sends
whatever delta a language model extracts from free text, once
`UpdateCount.parse` has checked it. A queue consumer later folds each batch of
deltas into the stored total. The repository holds two revisions of the worker,
and both are modelled:

- **Durable Object revision** (`src/index.tsx`, module `DurableRevision`). A
  `DurableCounter` object owns one storage slot under `'count'`. Its `fetch`
  is a small state machine. GET serves the stored total, or a zero total
  created and updated now when nothing is stored. POST parses `?delta=`
  (default 1), applies it with `getNewTotal` and stores the result. Anything
  else is a 404. The queue consumer sums the whole batch into `cumdelta` and
  sends a single `POST /?delta=${cumdelta}`.
- **KV revision** (`src/index.ts`, module `KvRevision`). The total lives in a
  KV namespace under `'count'`, and a missing total stays `null`. The queue
  consumer does a read-validate-update-write on the namespace for every
  message of the batch.
- **`src/prompts.ts`** (module `Prompts`). `schematize(schema).parse` rejects
  absent or empty input, runs `JSON.parse`, then checks the schema.
  `UpdateCount` requires `{delta: integer}`.

Shared pieces live in their own modules. `Totals` holds the `Total` schema and
`getNewTotal`, which both revisions declare identically. `Messages` holds the
queue payload, the net delta of a batch and the producer side of the queue.
`Decimal` holds `${n}` and `parseInt` on decimal strings. `Values` holds
`Option`, `Result`, JavaScript numbers and instants. `Agreement` relates the
two revisions. Its headline lemma, `RevisionsAgree`, states that for any batch
and any starting total both revisions end at the starting count plus the sum of
the batch's deltas.

Modelling choices:

- A JavaScript number is `Num`: an exact fraction `Finite(numer, denom)`, or
  `NotFinite` for NaN and the infinities. `Total.parse` and `UpdateCount`
  accept a number exactly when it is a whole number, as `z.number().int()`
  does. An integer-valued fraction such as `-3.0` is accepted.
- Clock reads (`new Date()`) are parameters. A Durable Object request gets
  one `now`. A KV batch gets a `clock` with one instant per message, because
  `getNewTotal` runs once per message there.
- `JSON.parse` is a parameter `jsonParse: string -> Option<Json>`, where
  `None` means it threw a `SyntaxError`. The model's answer is an opaque
  string that is handed to it.
- Storage and KV are classes whose entries are a `map` field. The KV store
  also keeps a ghost log of its `put`s, so that "one write per message, in
  order" can be stated. The delta queue is a class whose `sent` field is a
  `seq` that `Send` appends to.
- An exception becomes `Err`, or the `Failed` response of `fetch`.

Behaviours of the code worth knowing, which the model keeps:

- On an empty batch the Durable Object consumer still POSTs `delta=0`. That
  creates a zero total, or moves `updatedAt`. The KV consumer writes nothing
  for an empty batch.
- The Durable Object revision reads a missing total as a zero total, so
  `getNewTotal`'s "no previous total" branch is never reached from `fetch`.
  The KV revision keeps a missing total as `null`.
- `createdAt <= updatedAt` holds only when the clock does not go backwards.
  `NewTotal` guarantees it only when `now` is not earlier than the creation
  time.
- The Durable Object reads and validates the stored record before it looks
  at the HTTP method. So a request with an unknown method against a
  malformed record throws instead of answering 404.

## Model

| member | source | states |
|---|---|---|
| `Totals.ParseTotal` | src/index.ts:113-117 | `Total.parse` accepts a stored record exactly when its count is a whole number, and then keeps that number and both instants; NaN and fractions are rejected |
| `Totals.ToRaw` | src/index.ts:139 | a total as stored has an integral count equal to the total's, the same instants, and `Total.parse` reads it back unchanged |
| `Totals.NewTotal` | src/index.tsx:204-221 | `getNewTotal` (identical at src/index.ts:89-106): with a previous total, count = old count + delta, `createdAt` kept, `updatedAt = now`; without one, count = delta and `createdAt = updatedAt = now`; an omitted delta is 1; the creation time is not after the update time when `now` is not earlier than it |
| `Messages.NetDeltaAppend` | src/index.tsx:227-231 | netting a concatenation of batches gives the sum of their net deltas, so batch grouping does not change the sum |
| `Messages.NetDelta` | src/index.tsx:227-231 | the `cumdelta` the queue consumer sums over `batch.messages`: 0 for an empty batch, the message's own delta for a single message |
| `Messages.NetDeltaPermutation` | src/index.tsx:227-231 | two batches holding the same messages in any order have the same net delta |
| `Messages.DeltaQueue.Send` | src/index.tsx:137-139 | `queue.send` appends exactly the message to what the queue has accepted |
| `Decimal.ParseInt` | src/index.tsx:189 | on sign-and-digits text, `parseInt` yields a number exactly for non-empty digits, or a `+` or `-` followed by non-empty digits; digits read as their decimal value, `+` keeps it and `-` negates it; other text is taken as NaN (see Left out) |
| `Decimal.ShowInt` | src/index.tsx:235 | `${cumdelta}` writes a minus sign exactly for a negative number, then decimal digits with no leading zero (0 is `"0"`) |
| `Decimal.ShowNatValue` | src/index.tsx:235 | the decimal digits written for a natural number have that number as their value |
| `Decimal.ParseShowInt` | src/index.tsx:235 | an integer written in decimal by `${cumdelta}` is read back unchanged by `parseInt`, negative numbers included |
| `Prompts.Schematize` | src/prompts.ts:15-21 | absent or empty input throws `'Invalid input'` before any parsing; text that does not parse is a syntax error; otherwise the schema decides, and its value or issue is passed through |
| `Prompts.UpdateCountSchema` | src/prompts.ts:35-39 | `{delta: z.number().int()}` accepts exactly an object whose `delta` is a whole number and returns it; no object, no `delta`, a non-number and a fraction each fail with their own issue |
| `Prompts.ParseUpdateCount` | src/prompts.ts:15-20 | `UpdateCount.parse` succeeds exactly when the text is given, parses and has a whole-number `delta`, and returns that number; `'Invalid input'` exactly for absent or empty text, a syntax error exactly for text that does not parse |
| `Prompts.AcceptsWholeDelta` | src/prompts.ts:37 | `{"delta": -3}` (or `-3.0`) is accepted as -3 |
| `Prompts.RejectsFraction` | src/prompts.ts:37 | `{"delta": 2.5}` is rejected as not an integer |
| `Prompts.RejectsText` | src/prompts.ts:37 | `{"delta": "five"}` is rejected as not a number |
| `Prompts.RejectsMissingDelta` | src/prompts.ts:36-38 | an object without `delta` is rejected, whatever else it holds |
| `DurableRevision.MaybeTotal` | src/index.tsx:154-161 | nothing stored reads as count 0 created and updated now; a stored record is accepted exactly when its count is whole, keeping its value and instants |
| `DurableRevision.QueryDelta` | src/index.tsx:189 | a missing or empty `delta` parameter means 1; any other parameter is `parseInt` of it |
| `DurableRevision.QueryDeltaRoundTrip` | src/index.tsx:235 | the `?delta=${cumdelta}` the consumer writes is read back by `fetch` as exactly `cumdelta` (0 included, which is not replaced by the default) |
| `DurableRevision.NetPost` | src/index.tsx:235 | the consumer's request is a POST to `/` whose `delta` parameter `fetch` reads back as exactly `cumdelta` |
| `DurableRevision.Posted` | src/index.tsx:188-191 | a POST's new total is `getNewTotal` of the total read with the parsed delta; a NaN delta leaves a non-integral count, the old creation time and `updatedAt = now` |
| `DurableRevision.Handle` | src/index.tsx:171-202 | a path other than `/` is 404 with no write; a stored record failing `Total.parse` makes `fetch` throw with no write; only a POST writes, it writes `getNewTotal` of the total read with the parsed `delta` (NaN included), and it answers with exactly what it writes; GET never writes and serves the total read; any other method is 404 with no write |
| `DurableRevision.Written` | src/index.tsx:191 | a write replaces the `'count'` entry and leaves every other key as it was; the keys afterwards are the old keys plus `'count'` when written, and no others; no write leaves storage unchanged |
| `DurableRevision.FreshCounter` | src/index.tsx:177-181 | on a fresh counter GET answers count 0 created and updated now, and the first POST of `n` stores count `n` created and updated now |
| `DurableRevision.PostAppliesDelta` | src/index.tsx:188-192 | a POST of `n` against a stored total stores and answers count + `n`, the old creation time and `updatedAt = now` |
| `DurableRevision.DefaultDeltaIsOne` | src/index.tsx:189-191 | a POST with no `delta`, or an empty one, stores and answers count + 1, the old creation time and `updatedAt = now` |
| `DurableRevision.NonNumericDeltaPoisons` | src/index.tsx:189-191 | a POST whose `delta` starts with a letter, which `parseInt` reads as NaN, stores a NaN count, after which every request to `/` throws and writes nothing |
| `DurableRevision.DurableCounter.constructor` | src/index.tsx:167-169 | the counter starts from the storage it is given |
| `DurableRevision.DurableCounter.Slot` | src/index.tsx:177 | `storage.get('count')` yields the entry under `'count'`, or nothing when there is none |
| `DurableRevision.DurableCounter.Fetch` | src/index.tsx:171-202 | the response is `Handle`'s, and storage afterwards is the old storage with `Handle`'s write, if any, under `'count'` |
| `DurableRevision.CumulativeDelta` | src/index.tsx:227-231 | the loop's `cumdelta` ends as the net delta of the batch |
| `DurableRevision.QueueHandler` | src/index.tsx:226-236 | one POST per batch carrying its net delta: from nothing, count = net delta created and updated now; from a valid total, count = old count + net delta with `createdAt` kept; a malformed stored record fails and storage is unchanged |
| `DurableRevision.SendDeltaMessage` | src/index.tsx:137-139 | exactly one message with the given delta, stamped now, is enqueued |
| `DurableRevision.Inc` | src/index.tsx:128-131 | `/inc` enqueues +1 |
| `DurableRevision.Dec` | src/index.tsx:132-135 | `/dec` enqueues -1 |
| `DurableRevision.UpdateCountRoute` | src/index.tsx:122-124 | the model's answer is enqueued as its delta only when `UpdateCount.parse` accepts it; a rejected answer enqueues nothing |
| `KvRevision.MaybeTotal` | src/index.ts:119 | `Total.nullable()`: nothing stored stays "no total"; a stored record is accepted exactly when `Total.parse` accepts it |
| `KvRevision.KvStore.constructor` | src/index.ts:19 | the namespace starts from the entries it is given, with no writes made |
| `KvRevision.KvStore.Lookup` | src/index.ts:135 | `get('count', {type: 'json'})` yields the entry under the key, or `null` when there is none |
| `KvRevision.KvStore.Get` | src/index.ts:135 | reading returns the entry under the key, or `null` |
| `KvRevision.KvStore.Put` | src/index.ts:139 | a put replaces the entry under the key and is logged after every earlier put |
| `KvRevision.TotalRoute` | src/index.ts:50-53 | `/total` on an empty namespace returns `null`, not a zero total; a stored record is returned exactly when its count is whole |
| `KvRevision.Fold` | src/index.ts:132-140 | the total the loop has reached after the first messages: there is one exactly when a total was stored or a message was applied, and an existing creation time is kept |
| `KvRevision.Puts` | src/index.ts:132-140 | the loop's writes: one per message, every one under `'count'`, the last holding the total after the whole batch |
| `KvRevision.FoldTotal` | src/index.ts:132-140 | after a batch the count is the starting count (0 when absent) plus the net delta; `createdAt` is the old one, or the first message's instant when there was none; `updatedAt` is the last message's instant |
| `KvRevision.PutsInOrder` | src/index.ts:132-140 | exactly one put per message, in message order, the `i`-th writing under `'count'` the total reached after the first `i + 1` messages |
| `KvRevision.QueueHandler` | src/index.ts:130-141 | an empty batch writes nothing; a malformed stored record stops the batch before any write; otherwise the puts are exactly those of `PutsInOrder` and the namespace ends holding the folded total |
| `KvRevision.RedeliveryCountsTwice` | src/index.ts:132-140 | a batch delivered twice adds its net delta twice: nothing deduplicates it |
| `KvRevision.Inc` | src/index.ts:80-83 | `/inc` enqueues +1 |
| `KvRevision.Dec` | src/index.ts:84-87 | `/dec` enqueues -1 |
| `Agreement.StoredSlot` | src/index.tsx:191 | a slot holding a stored total reads back as that total |
| `Agreement.RevisionsAgree` | src/index.ts:132-140 | for any batch and starting total, the Durable Object's one netted POST (src/index.tsx:227-235) and the KV per-message loop both end at the starting count plus the net delta, and both keep an existing creation time; only an empty batch on an empty store differs, where the KV namespace stays empty |
| `Agreement.OrderDoesNotMatter` | src/index.tsx:227-235 | reordering a batch changes nothing the Durable Object writes, nor the count the KV revision ends at |
| `Agreement.GroupingDoesNotMatter` | src/index.tsx:227-235 | two batches POSTed one after the other leave the same count as one batch holding both |
| `Agreement.TwoBatchScenario` | src/index.tsx:204-221 | `[+1, +1, -1]` at t1 on a fresh counter gives count 1 created and updated at t1; then `[+5]` at t2 gives 6, created at t1 and updated at t2 |
| `Agreement.TextToCountScenario` | src/index.tsx:122-124 | a model answer `{"delta": -10}` parses to -10, and a batch of it takes a count of 6 to -4 |

## Left out

- HTTP routing (Hono), the `zValidator` form and JSON checks, including the
  1 to 512 character bound on `message`, and the `onError` JSON response.
  These are plumbing around the core. Requests reach `fetch` as
  method, path and `delta` parameter.
- Workers AI calls, SSE streaming, the `/ai` and `/total/ai` routes, the
  prompt text, `renderString`, `systemExtractCount` and the `jsonSchema`
  produced by `zodToJsonSchema`. These are external inference and library
  code. The model's answer enters as an opaque optional string.
- `src/pages.tsx`, the HTML pages. They have no invariants.
- The Worker-side `/total` route of src/index.tsx. It sends a GET to the
  counter and runs `Total.parse` on the JSON body. It is not modelled
  separately; `Handle` models the GET it relies on.
- `JSON.parse` itself and zod's internals. Parsed JSON is the `Json`
  datatype, and `JSON.parse` is a parameter.
- Decimal.ParseInt, DurableRevision.QueryDelta: `parseInt` is modelled only on
  sign-and-digits text and on the missing or empty parameter. Text such as
  `"12abc"`, `" 7"` or `"0x10"` is read as NaN here, although JavaScript reads
  a leading number from it.
- Totals.NewTotal: counts are unbounded integers. The source's counts are
  doubles, which lose precision beyond 2^53.
- Decimal.ParseShowInt: JavaScript writes magnitudes of 10^21 and above in
  exponent form, which `parseInt` does not read back. Such sums lie outside
  the doubles' exact range and are not modelled.
- The `typeof value === 'string'` branch of src/index.tsx:178-180. It runs
  `JSON.parse` on a string-valued storage entry, and the counter itself never
  stores one.
- `z.coerce.date()` on malformed dates. Instants are opaque values that the
  caller supplies.
- The two clock reads of one Durable Object POST, one in the `MaybeTotal`
  default and one in `getNewTotal`. They are modelled as the same instant.
- The KV namespace stores `JSON.stringify(total)`. The model stores the
  record itself and treats the JSON round trip of a whole-number count and
  its dates as the identity.
- Queue delivery and batching, at-least-once redelivery after a consumer
  throws, concurrency, and the Durable Object's single-writer serialisation.
  The code relies on the platform for all of these. `RedeliveryCountsTwice`
  only states what a second delivery does.
- Failure of `send` or `put`. No code retries either. A failed `send` in
  `/inc`, `/dec` or `/update-count` reaches the `onError` handler
  (src/index.tsx:39-41, src/index.ts:37-39), which answers with the error as
  JSON. A failed `put` makes the queue handler, or the counter's `fetch`,
  throw. The model's `send` and `put` always succeed.
- The ISO-8601 `timestamp` string of a message is kept as an instant. It is
  never read by the consumers.
