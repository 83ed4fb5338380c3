# langfuse-go event delivery, modelled in Dafny

This project models the event-delivery path of the langfuse-go client:

- the `observer` package's FIFO `queue[T]` (`model.dfy`, `observer.dfy`);
- the handler step that drains that queue, passes the drained events to an
  injected delivery function and puts the events it returns back into the queue;
- the `closed` guard that turns `flush` and `flushAndWait` into no-ops;
- the client in `langfuse.go`. This covers batch formation, which is written
  twice: recursively in `pushData` and as a loop in `pushDataBatch`. Events are
  taken while they fit a 3 MiB budget, and the event that overflows it is added
  to the batch being closed (see "## Findings"). It also covers the retry ceiling on the events of a failed
  batch, the delivery function that `New` installs, `buildID`, and the facade
  methods, which validate domain records and dispatch ingestion events.

Modules:

- `Model`: the seven ingestion event type tags, the `IngestionEvent` envelope
  and the domain records. Only the fields that the logic reads or writes are kept.
- `Observer`: the `Queue` and `Handler` classes, plus the `Requeue` function.
  `Requeue` says what putting events back one at a time does.
- `Batching`: the batch-formation specification `Batches`, which mirrors
  `pushData`'s recursion on `index`, and `FormBatch`, the scan loop shared by
  both pushers, as written. The lemmas prove partition, non-emptiness and the
  shape of the code's batches. The module also holds the split that the code's
  comment at langfuse.go:66 and :104 describes (`IntendedBatches`,
  `FormIntendedBatch`) with its size bound and greediness, and two inputs on
  which the two splits differ.
- `Langfuse`: retries, the two pushers, the delivery function and the `Client`
  facade.

Abstractions:

- `len(json.Marshal(e))` is a function `marshal` that returns an encoded length
  or an error. An error costs 0 bytes, because the code discards the marshal error.
- The ingestion sink is a function `ingest` that says whether a batch was accepted.
- `uuid.New` is an abstract sequence `uuid` that is drawn in order.
- `time.Now().In(location)` is a `now` parameter.
- Durations are in nanoseconds.
- Go's zero value of `T` is passed to the queue's constructor.
- `TryEnqueue` is called by the handler but not defined in `queue.go`. Its
  admission test is an abstract function `admit(items, item)` of the queue. The
  item is either appended at the tail or dropped.
- The definition of `Dispatch` is not among the modelled source files. A call
  to it is modelled as appending the event to a ghost log `dispatched`.

Behaviours of the code that the model keeps as written:

- The queue is unbounded and keeps no byte count. There is no blocking `Enqueue`
  and no capacity.
- `FailCount < 3` is tested before the increment. An event that starts at 0 is
  therefore collected again after its first, second and third failures, and is
  dropped only at the fourth (`NewEventDroppedAtFourthFailure`).
- Nothing ever re-queues failed events:
  - `pushDataBatch`'s collection of failed events is commented out;
  - the delivery function in `New` always returns an empty list (`Deliver`);
  - `pushData` has no caller in these files other than its own recursive call
    (langfuse.go:85).
  So with this client, a handle step always leaves the queue empty
  (`ClientHandleLeavesQueueEmpty`).
- `createTrace` always returns an error. `Generation`, `Span` and `Event` with
  an empty trace ID therefore always fail, after dispatching a trace-create event.
- `SpanEnd` reports a missing span ID with the same error as `GenerationEnd`
  ("generation ID is required").

## Model

| member | source | states |
|---|---|---|
| `Observer.Queue.constructor` | internal/pkg/observer/queue.go:37-39 | a new queue is empty |
| `Observer.Queue.Enqueue` | internal/pkg/observer/queue.go:11-15 | the item is appended at the tail and every earlier item is unchanged |
| `Observer.Queue.TryEnqueue` | internal/pkg/observer/handler.go:105-106 | the item is appended at the tail exactly when admission accepts it; otherwise the queue is unchanged |
| `Observer.Queue.Dequeue` | internal/pkg/observer/queue.go:18-28 | on an empty queue: returns the zero value and changes nothing; otherwise returns the head and leaves the rest in order |
| `Observer.Queue.Len` | internal/pkg/observer/queue.go:31-35 | returns the item count and changes nothing |
| `Observer.Queue.Clear` | internal/pkg/observer/queue.go:42-46 | the queue is empty afterwards |
| `Observer.Queue.All` | internal/pkg/observer/queue.go:49-55 | returns exactly the queued items in order and leaves the queue empty |
| `Observer.DrainTwice` | internal/pkg/observer/queue.go:49-55 | a second drain-all right after a first returns an empty sequence |
| `Observer.FifoOrder` | internal/pkg/observer/queue.go:11-28 | enqueuing x1..xn into a new queue and dequeuing n times yields x1..xn in order |
| `Observer.Requeue` | internal/pkg/observer/handler.go:104-107 | putting returned events back only appends: the old contents stay a prefix, and at most one item is added per returned event |
| `Observer.RequeueKeepsSubsequence` | internal/pkg/observer/handler.go:103-108 | putting returned events back keeps the old contents in front, followed by exactly the admitted events in result order: no reordering, no duplication |
| `Observer.RequeueAllAdmitted` | internal/pkg/observer/handler.go:104-107 | when every event is admitted, the whole result is appended in order |
| `Observer.Handler.constructor` | internal/pkg/observer/handler.go:32-40 | a new handler has a one-second ticker period, five worker slots, is not closed and has called the delivery function on nothing |
| `Observer.Handler.WithTick` | internal/pkg/observer/handler.go:42-45 | changes only the ticker period and returns the same handler |
| `Observer.Handler.MarkClosed` | internal/pkg/observer/handler.go:93-95 | sets `closed`; it is the only writer, so `closed` never goes back to false |
| `Observer.Handler.Handle` | internal/pkg/observer/handler.go:97-109 | an empty drain calls nothing and leaves the queue empty; otherwise the delivery function gets exactly the drained items in order, and the queue then holds what putting back its result leaves |
| `Observer.NoRetriesLeaveQueueEmpty` | internal/pkg/observer/handler.go:102-103 | when the delivery function returns nothing, the queue is empty after a handle step |
| `Observer.Handler.Flush` | internal/pkg/observer/handler.go:111-120 | once closed, or when the command is not taken, nothing changes; otherwise one handle step runs |
| `Observer.Handler.FlushAndWait` | internal/pkg/observer/handler.go:122-136 | once closed, nothing changes; otherwise a final handle step runs; either way the handler ends closed |
| `Batching.Fill` | langfuse.go:100-113 | the scan of one batch stops within the input, at or after where it resumed |
| `Batching.FillWithinBudget` | langfuse.go:100-112 | the events taken before the overflow test fires fit the budget, and the test fires before the end only because the next event would not fit |
| `Batching.BatchEnd` | langfuse.go:100-113 | each batch ends strictly after it starts, so `index` strictly increases and batch formation terminates |
| `Batching.BatchEndShape` | langfuse.go:100-113 | a batch without its last event fits the budget; a batch that stops before the end of the input exceeds the budget, because the overflowing event is added to it |
| `Batching.Batches` | langfuse.go:56-86 | the batches the code forms from `index` on: at least one and at most one per remaining event while events remain, none once `index` reaches the end |
| `Batching.BatchesConcat` | langfuse.go:97-113 | concatenating the batches in order gives back the events exactly, so each event is in exactly one batch and order is kept |
| `Batching.BatchesNonEmpty` | langfuse.go:98-115 | no batch is empty: every pass of the outer loop takes at least one event |
| `Batching.BatchesOverflowShape` | langfuse.go:97-113 | every batch without its last event fits the budget, and every batch followed by another exceeds it |
| `Batching.FormBatch` | langfuse.go:100-113 | the scan loop as written, with `index` advancing together with `i`, returns the batch up to and including the overflowing event, and the index just past it |
| `Batching.IntendedEndProperties` | langfuse.go:103-106 | with the overflow test compared to the batch start, a batch fits the budget or is a single event that alone exceeds it; a batch that is not last would overflow if the next event were added |
| `Batching.IntendedBatchesConcat` | langfuse.go:97-113 | the intended batches also partition the events in order |
| `Batching.IntendedBatchesWithinBudget` | langfuse.go:103-106 | every intended batch fits the budget, except a singleton whose one event alone exceeds it |
| `Batching.IntendedBatchesGreedy` | langfuse.go:102-108 | an intended batch that is not last was closed only because the next batch's first event would push it past the budget |
| `Batching.FormIntendedBatch` | langfuse.go:103-106 | the scan loop with the overflow test compared to the batch start returns exactly the intended batch and the index just past it |
| `Batching.OverflowJoinsBatch` | langfuse.go:103-106 | four one-byte events under a three-byte budget form one four-byte batch as written, and two batches (three bytes and one) as intended |
| `Batching.OversizedEventJoinsBatch` | langfuse.go:103-106 | events of one and ten bytes under a three-byte budget form one eleven-byte batch as written, while the intended split sends the oversized event alone |
| `Langfuse.RetryOne` | langfuse.go:79-82 | a failed event yields at most one retried copy, with the same ID and body and a counter at most 3 |
| `Langfuse.Retried` | langfuse.go:78-83 | the retried events of a failed batch are at most as many as its events |
| `Langfuse.RetriedMembers` | langfuse.go:78-83 | every event with FailCount < 3 is collected with FailCount + 1; every collected event comes from such an event, so events at or above the ceiling are dropped |
| `Langfuse.FailuresUntilDropped` | langfuse.go:78-83 | after k failed deliveries, an event whose counter was c <= 3 is still pending with counter c + k exactly when c + k <= 3; otherwise it has been dropped |
| `Langfuse.NewEventDroppedAtFourthFailure` | langfuse.go:79-81 | a new event survives three failed deliveries and is dropped at the fourth |
| `Langfuse.CollectRetries` | langfuse.go:78-83 | the collection loop appends, in batch order, the retried events of the failed batch to `failEvents` |
| `Langfuse.EffectiveParallel` | langfuse.go:90-92 | the worker count is `parallel` when positive and 5 otherwise |
| `Langfuse.PushData` | langfuse.go:56-86 | the recursive pusher sends exactly the batches the code forms, in order, and collects the retried events of every failed batch in order |
| `Langfuse.PushDataBatch` | langfuse.go:89-136 | the iterative pusher forms exactly the batches the code forms; they partition the events in order, none is empty, each fits the budget without its last event, and each one but the last exceeds the budget |
| `Langfuse.PushersAgree` | langfuse.go:56-113 | the recursive and iterative pushers, both as written, form the same batch sequence, and it reproduces the events |
| `Langfuse.Deliver` | langfuse.go:42-49 | the delivery function installed by `New` never returns events for retry |
| `Langfuse.ClientHandleLeavesQueueEmpty` | langfuse.go:42-49 | a handle step of a handler whose delivery function is the one `New` installs leaves the queue empty |
| `Langfuse.BuildID` | langfuse.go:418-426 | a given non-empty ID is kept; a missing or empty one is replaced by a freshly generated ID; the result is non-empty when the generated ID is |
| `Langfuse.Client.MakeID` | langfuse.go:418-426 | `buildID` at a call site: the result is `BuildID` of the given ID and the next UUID, and a UUID is drawn exactly when the given ID is missing or empty |
| `Langfuse.BuildIDIdempotent` | langfuse.go:418-426 | building an ID from an already built ID returns it unchanged |
| `Langfuse.CheckEnd` | langfuse.go:245-251 | a missing ID is reported first, then a missing trace ID; validation passes exactly when both are present |
| `Langfuse.Client.constructor` | langfuse.go:33-53 | a new client has the 500 ms flush interval and the given parallelism, and nothing has been dispatched |
| `Langfuse.Client.WithFlushInterval` | langfuse.go:138-141 | changes only the flush interval and returns the same client |
| `Langfuse.Client.Trace` | langfuse.go:153-168 | the trace's ID is built, one trace-create event with a fresh ID is dispatched, and no error is returned |
| `Langfuse.Client.TraceWithTime` | langfuse.go:171-182 | as Trace, but the event carries the trace's ID and the given time |
| `Langfuse.Client.CreateTrace` | langfuse.go:399-410 | dispatches one trace-create event for a trace with a fresh ID and always returns an error |
| `Langfuse.Client.Generation` | langfuse.go:185-213 | an empty trace ID gives an error after one trace-create event; otherwise the ID and parent are stamped and exactly one generation-create event is dispatched |
| `Langfuse.Client.GenerationWithTime` | langfuse.go:216-241 | as Generation, but the event carries the generation's ID and the given time |
| `Langfuse.Client.GenerationEnd` | langfuse.go:244-266 | an empty ID, else an empty trace ID, gives an error and dispatches nothing; otherwise exactly one generation-update event is dispatched |
| `Langfuse.Client.GenerationEndWithTime` | langfuse.go:269-287 | as GenerationEnd, but the event carries the generation's ID and the given time |
| `Langfuse.Client.Score` | langfuse.go:290-308 | an empty trace ID gives an error and dispatches nothing; otherwise the ID is stamped and exactly one score-create event is dispatched |
| `Langfuse.Client.Span` | langfuse.go:311-340 | an empty trace ID gives an error after one trace-create event; otherwise the ID and parent are stamped and exactly one span-create event is dispatched |
| `Langfuse.Client.SpanEnd` | langfuse.go:343-365 | an empty ID, else an empty trace ID, gives an error and dispatches nothing; otherwise exactly one span-update event is dispatched |
| `Langfuse.Client.Event` | langfuse.go:368-397 | an empty trace ID gives an error after one trace-create event; otherwise the ID and parent are stamped and exactly one event-create event is dispatched |

## Findings

| source | as written | input that shows it | evidently intended | confidence | as-written member | corrected member |
|---|---|---|---|---|---|---|
| langfuse.go:100-113 | `index` advances with `i`, so the test `i == index` at the overflow always holds and the overflowing event is added to the batch being closed; every batch but the last exceeds 3 MiB | four events of one byte under a three-byte budget form one batch of four bytes; events of one and ten bytes form one batch of eleven bytes | only an event that alone exceeds the budget is sent past it, as a batch of its own (the comment at line 104); every other batch fits | high, not executed | `Batching.FormBatch`, `Batching.OverflowJoinsBatch` | `Batching.FormIntendedBatch`, `Batching.IntendedBatchesWithinBudget` |
| langfuse.go:62-75 | the same scan in `pushData`, with the same test against the advancing `index` | the same inputs | the same as above (the comment at line 66) | high, not executed | `Batching.FormBatch`, `Batching.OversizedEventJoinsBatch` | `Batching.FormIntendedBatch`, `Batching.IntendedBatchesGreedy` |

## Left out

- The queue's mutex. The model is single-threaded, and every queue or handler
  method is one atomic step.
- `handler.listen` (internal/pkg/observer/handler.go:47-91) is concurrency and
  timing, so it is not modelled. That covers:
  - the ticker, `ctx.Done` cancellation and the command channel;
  - the try-acquire worker semaphore and the `WaitGroup`.
  Only its reaction to the two commands is kept: one handle step, and for
  flush-and-wait a final handle step followed by closing.
- `Observer.Handler.Flush`: whether the listen loop takes the non-blocking send
  is an input (`accepted`). It is not derived from the loop's state.
- `Observer.Handler.FlushAndWait`: the channel send, the drain loop and the
  `recover` that turns a send on a closed channel into a no-op are not modelled.
  The call and the loop's exit are one step, so the model sets `closed` before
  returning, while the code may set it slightly later.
- `Langfuse.PushDataBatch`: the worker goroutines, the buffered-channel
  semaphore and the `WaitGroup` are not modelled, because they are concurrency.
  The batches are formed, but handing each batch to a worker and sending it
  through `ingest` are left out. Failures there are only logged.
- `Langfuse.PushData`: the collected `failEvents` are returned to the caller
  here. In Go the slice is passed by value, so the top-level caller never sees
  them. Go slice aliasing is not modelled.
- `ingest` and `api.Client.Ingestion` (langfuse.go:143-150) are HTTP I/O. The
  sink is an abstract predicate on a batch.
- `json.Marshal`, `uuid.New`, `time.Now`, `time.LoadLocation` and `In` are
  serialisation, randomness and the wall clock. They become the parameters
  described above.
- The observer itself (`NewObserver`, `Dispatch`, `Wait`) and therefore the
  client's `Flush` (langfuse.go:413-415). observer.go is not part of this model.
- The records are values. Go's pointer sharing between the caller's struct and
  the dispatched event body is not modelled: later changes to the caller's
  struct would show in a queued event.
- Record fields that no logic reads or writes are not modelled: inputs,
  outputs, usage, metadata, levels, timestamps inside records, and
  `IngestionEvent.Metadata`.
- Integer widths are not modelled: Go `int` overflow of `FailCount` and of the
  running batch size is ignored.
- Logging (`log.Println`, internal/pkg/log) is not modelled.
- `Langfuse.PushData`, `Langfuse.PushDataBatch`: they form the batches as
  written, so they do not promise the 3 MiB bound. The intended split is
  defined and proved beside them, but no pusher uses it.
