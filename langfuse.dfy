/**
 * The ingestion client: the two batch pushers, the retry ceiling applied to
 * the events of a failed batch, the delivery function installed in the
 * handler, identifier construction, and the facade that validates domain
 * records and dispatches ingestion events.
 *
 * The HTTP sink is a function `ingest` that says whether a batch was
 * accepted; serialisation is a function `marshal`; the UUID generator is an
 * abstract sequence `uuid` drawn from in order; the clock is a `now`
 * parameter.
 */
module Langfuse {
  import opened Model
  import opened Batching
  import Observer

  /** Maximum serialized payload of one batch: 3 MiB. */
  const BatchSize: nat := 3 * 1024 * 1024

  /** An event is retried while its failure counter is below this ceiling. */
  const RetryCeiling: int := 3

  /** Parallelism used when the configured one is not positive. */
  const DefaultParallel: nat := 5

  /** Default flush interval of the client: 500 ms, in nanoseconds. */
  const DefaultFlushInterval: int := 500_000_000

  datatype Option<T> = None | Some(value: T)

  /** The errors the facade reports to its caller. */
  datatype FacadeError =
    | GenerationIDRequired   // "generation ID is required"
    | TraceIDRequired        // "trace ID is required"
    | UnableToGetTraceID     // "unable to get trace ID"

  datatype Result<T> = Ok(value: T) | Err(error: FacadeError)

  /** The byte cost of an event: its encoded length, zero when encoding fails. */
  function SizeOf(marshal: IngestionEvent -> Marshalled): IngestionEvent -> nat {
    e => EncodedSize(marshal(e))
  }

  // ---------------------------------------------------------------------
  // Retry ceiling

  /** What a failed delivery makes of one event: retried with one more failure, or dropped. */
  function RetryOne(e: IngestionEvent): (r: seq<IngestionEvent>)
    ensures |r| <= 1
    ensures forall x :: x in r ==> x.failCount <= RetryCeiling && x.id == e.id && x.body == e.body
  {
    if e.failCount < RetryCeiling then [e.(failCount := e.failCount + 1)] else []
  }

  /** The events of a failed batch that are collected for another attempt, in order. */
  function Retried(batch: seq<IngestionEvent>): (r: seq<IngestionEvent>)
    ensures |r| <= |batch|
  {
    if batch == [] then [] else Retried(batch[..|batch| - 1]) + RetryOne(batch[|batch| - 1])
  }

  /**
   * Every event below the ceiling is collected with its counter raised by
   * one, and every collected event is such an event: so an event at or above
   * the ceiling is dropped, and nothing is collected at a counter above it.
   */
  lemma {:induction false} RetriedMembers(batch: seq<IngestionEvent>)
    ensures forall e :: e in batch && e.failCount < RetryCeiling ==>
      e.(failCount := e.failCount + 1) in Retried(batch)
    ensures forall e :: e in Retried(batch) ==>
      e.failCount <= RetryCeiling && e.(failCount := e.failCount - 1) in batch
  {
    RetriedKeepsLive(batch);
    RetriedOnlyLive(batch);
  }

  lemma {:induction false} RetriedKeepsLive(batch: seq<IngestionEvent>)
    ensures forall e :: e in batch && e.failCount < RetryCeiling ==>
      e.(failCount := e.failCount + 1) in Retried(batch)
  {
    if batch != [] {
      var init, last := batch[..|batch| - 1], batch[|batch| - 1];
      assert batch == init + [last];
      RetriedKeepsLive(init);
    }
  }

  lemma {:induction false} RetriedOnlyLive(batch: seq<IngestionEvent>)
    ensures forall e :: e in Retried(batch) ==>
      e.failCount <= RetryCeiling && e.(failCount := e.failCount - 1) in batch
  {
    if batch != [] {
      var init, last := batch[..|batch| - 1], batch[|batch| - 1];
      assert batch == init + [last];
      RetriedOnlyLive(init);
      if last.failCount < RetryCeiling {
        assert last.(failCount := last.failCount + 1).(failCount := last.failCount) == last;
      }
    }
  }

  /** The events of `batch` after `k` consecutive failed deliveries. */
  function AfterFailures(batch: seq<IngestionEvent>, k: nat): seq<IngestionEvent>
    decreases k
  {
    if k == 0 then batch else AfterFailures(Retried(batch), k - 1)
  }

  /**
   * An event survives a failed delivery for as long as its counter stays at
   * or below the ceiling: after `k` failures it is still pending, with `k`
   * more failures counted, exactly when its counter plus `k` is at most 3.
   */
  lemma {:induction false} FailuresUntilDropped(e: IngestionEvent, k: nat)
    requires e.failCount <= RetryCeiling
    ensures AfterFailures([e], k) ==
      if e.failCount + k <= RetryCeiling then [e.(failCount := e.failCount + k)] else []
    decreases k
  {
    if k > 0 {
      assert [e][..0] == [];
      assert Retried([e]) == RetryOne(e);
      if e.failCount < RetryCeiling {
        FailuresUntilDropped(e.(failCount := e.failCount + 1), k - 1);
      } else {
        NoFailuresOfNothing(k - 1);
      }
    }
  }

  lemma {:induction false} NoFailuresOfNothing(k: nat)
    ensures AfterFailures([], k) == []
  {
    if k > 0 {
      NoFailuresOfNothing(k - 1);
    }
  }

  /** A new event is sent again after each of its first three failures and dropped at the fourth. */
  lemma NewEventDroppedAtFourthFailure(e: IngestionEvent)
    requires e.failCount == 0
    ensures AfterFailures([e], 3) == [e.(failCount := 3)]
    ensures AfterFailures([e], 4) == []
  {
    FailuresUntilDropped(e, 3);
    FailuresUntilDropped(e, 4);
  }

  /** The collection loop run over a batch whose ingestion failed. */
  method CollectRetries(batch: seq<IngestionEvent>, failEvents: seq<IngestionEvent>)
    returns (collected: seq<IngestionEvent>)
    ensures collected == failEvents + Retried(batch)
  {
    collected := failEvents;
    for i := 0 to |batch|
      invariant collected == failEvents + Retried(batch[..i])
    {
      var e := batch[i];
      assert batch[..i + 1][..i] == batch[..i];
      if e.failCount < RetryCeiling {
        e := e.(failCount := e.failCount + 1);
        collected := collected + [e];
      }
    }
    assert batch[..|batch|] == batch;
  }

  // ---------------------------------------------------------------------
  // Batch pushers

  /** The events collected for retry over a sequence of batches sent to `ingest`. */
  function FailedRetries(batches: seq<seq<IngestionEvent>>, ingest: seq<IngestionEvent> -> bool): seq<IngestionEvent> {
    if batches == [] then []
    else (if ingest(batches[0]) then [] else Retried(batches[0])) + FailedRetries(batches[1..], ingest)
  }

  lemma AppendAssoc<T>(a: seq<T>, b: seq<T>, c: seq<T>)
    ensures (a + b) + c == a + (b + c)
  {
  }

  lemma FailedRetriesCons(batch: seq<IngestionEvent>, rest: seq<seq<IngestionEvent>>, ingest: seq<IngestionEvent> -> bool)
    ensures FailedRetries([batch] + rest, ingest) == (if ingest(batch) then [] else Retried(batch)) + FailedRetries(rest, ingest)
  {
    assert ([batch] + rest)[1..] == rest;
  }

  /** The worker count of the parallel pusher: `parallel`, or 5 when it is not positive. */
  function EffectiveParallel(parallel: int): (n: nat)
    ensures n >= 1
    ensures parallel > 0 ==> n == parallel
    ensures parallel <= 0 ==> n == DefaultParallel
  {
    if parallel <= 0 then DefaultParallel else parallel
  }

  /**
   * pushData: forms the batch that starts at `index`, sends it, collects
   * the retryable events of a failed batch, and recurses from the index
   * just past the batch. `sent` lists the batches handed to `ingest`, in
   * order; `collected` is `failEvents` as the innermost call holds it.
   */
  method PushData(events: seq<IngestionEvent>, index: nat, failEvents: seq<IngestionEvent>,
                  marshal: IngestionEvent -> Marshalled, ingest: seq<IngestionEvent> -> bool)
    returns (sent: seq<seq<IngestionEvent>>, collected: seq<IngestionEvent>)
    ensures sent == Batches(events, SizeOf(marshal), BatchSize, index)
    ensures collected == failEvents + FailedRetries(sent, ingest)
    decreases |events| - index
  {
    if index >= |events| || |events| == 0 {
      return [], failEvents;
    }
    var size := SizeOf(marshal);
    var batch, next := FormBatch(events, index, size, BatchSize);
    var fails := failEvents;
    if !ingest(batch) {
      fails := CollectRetries(batch, failEvents);
    }
    ghost var retried := if ingest(batch) then [] else Retried(batch);
    assert fails == failEvents + retried;
    var rest;
    rest, collected := PushData(events, next, fails, marshal, ingest);
    sent := [batch] + rest;
    FailedRetriesCons(batch, rest, ingest);
    AppendAssoc(failEvents, retried, FailedRetries(rest, ingest));
  }

  /**
   * pushDataBatch: forms the batches one after another and hands each to a
   * worker, with at most `workers` in flight. Only the batches formed are
   * modelled: the workers' sends and the failures they log are not.
   */
  method PushDataBatch(parallel: int, events: seq<IngestionEvent>, marshal: IngestionEvent -> Marshalled)
    returns (workers: nat, batches: seq<seq<IngestionEvent>>)
    ensures workers == EffectiveParallel(parallel)
    ensures batches == Batches(events, SizeOf(marshal), BatchSize, 0)
    ensures Concat(batches) == events
    ensures AllNonEmpty(batches)
    ensures OverflowShape(batches, SizeOf(marshal), BatchSize)
  {
    workers := EffectiveParallel(parallel);
    var size := SizeOf(marshal);
    var index := 0;
    batches := [];
    while index < |events| && |events| > 0
      invariant index <= |events|
      invariant batches + Batches(events, size, BatchSize, index) == Batches(events, size, BatchSize, 0)
      decreases |events| - index
    {
      ghost var start := index;
      var batch;
      batch, index := FormBatch(events, index, size, BatchSize);
      ghost var rest := Batches(events, size, BatchSize, index);
      assert Batches(events, size, BatchSize, start) == [batch] + rest;
      if |batch| > 0 {
        AppendAssoc(batches, [batch], rest);
        batches := batches + [batch];
      }
    }
    BatchesConcat(events, size, BatchSize, 0);
    BatchesNonEmpty(events, size, BatchSize, 0);
    BatchesOverflowShape(events, size, BatchSize, 0);
  }

  /** The recursive and the iterative pusher form the same batches, in the same order. */
  method PushersAgree(parallel: int, events: seq<IngestionEvent>,
                      marshal: IngestionEvent -> Marshalled, ingest: seq<IngestionEvent> -> bool)
    returns (recursive: seq<seq<IngestionEvent>>, iterative: seq<seq<IngestionEvent>>)
    ensures recursive == iterative
    ensures Concat(recursive) == events
  {
    var collected, workers;
    recursive, collected := PushData(events, 0, [], marshal, ingest);
    workers, iterative := PushDataBatch(parallel, events, marshal);
  }

  /** The delivery function `New` installs, as its handler sees it: the result of `Deliver`. */
  const Delivery: seq<IngestionEvent> -> seq<IngestionEvent> := events => []

  /**
   * The delivery function the client installs in its handler: it pushes the
   * drained events with the parallel pusher and returns its `failEvents`,
   * which nothing ever appends to, so nothing is ever handed back for retry.
   */
  method Deliver(parallel: int, events: seq<IngestionEvent>, marshal: IngestionEvent -> Marshalled)
    returns (retry: seq<IngestionEvent>)
    ensures retry == [] && retry == Delivery(events)
  {
    var failEvents: seq<IngestionEvent> := [];
    if |events| == 0 {
      return [];
    }
    var _, _ := PushDataBatch(parallel, events, marshal);
    retry := failEvents;
  }

  /** A handle step of a handler that delivers through `Deliver` leaves its queue empty. */
  lemma ClientHandleLeavesQueueEmpty(h: Observer.Handler<IngestionEvent>, items: seq<IngestionEvent>)
    requires h.fn == Delivery
    ensures h.AfterHandle(items) == []
  {
    Observer.NoRetriesLeaveQueueEmpty(h, items);
  }

  // ---------------------------------------------------------------------
  // Identifiers and validation

  /** Whether a caller-supplied ID is present and non-empty. */
  predicate Given(id: Option<string>) {
    id.Some? && id.value != ""
  }

  /** buildID: the given ID when present and non-empty, else the generated one. */
  function BuildID(id: Option<string>, generated: string): (r: string)
    ensures Given(id) ==> r == id.value
    ensures !Given(id) ==> r == generated
    ensures generated != "" ==> r != ""
  {
    if id.None? then generated
    else if id.value == "" then generated
    else id.value
  }

  /** Building an ID from a built ID keeps it: the second call draws nothing new. */
  lemma BuildIDIdempotent(id: Option<string>, generated: string, other: string)
    requires generated != ""
    ensures BuildID(Some(BuildID(id, generated)), other) == BuildID(id, generated)
  {
  }

  /**
   * The checks of GenerationEnd and SpanEnd, in order: the record's ID
   * first, then its trace ID.
   */
  function CheckEnd(id: string, traceId: string): (r: Option<FacadeError>)
    ensures r == None <==> id != "" && traceId != ""
    ensures id == "" ==> r == Some(GenerationIDRequired)
    ensures id != "" && traceId == "" ==> r == Some(TraceIDRequired)
  {
    if id == "" then Some(GenerationIDRequired)
    else if traceId == "" then Some(TraceIDRequired)
    else None
  }

  /** The number of IDs drawn by building an ID from the record's `id`. */
  function Draws(id: string): nat {
    if id == "" then 1 else 0
  }

  /** The parent observation after an optional override. */
  function ParentOr(parentID: Option<string>, current: string): string {
    if parentID.Some? then parentID.value else current
  }

  // ---------------------------------------------------------------------
  // Facade

  /**
   * The client facade. `dispatched` logs, in order, every event handed to
   * the observer; `drawn` counts the UUIDs drawn from `uuid` so far.
   */
  class Client {
    var flushInterval: int
    const parallel: int
    const uuid: nat -> string
    var drawn: nat
    ghost var dispatched: seq<IngestionEvent>

    /** The trace-create event that creating a trace named `name` dispatches when `n` UUIDs were drawn before. */
    function TraceCreateEvent(name: string, n: nat, now: Time): IngestionEvent {
      IngestionEvent(TraceCreate, uuid(n + 1), now, TraceBody(Model.Trace(uuid(n), name)), 0)
    }

    /** New: the 500 ms flush interval, the given parallelism, nothing dispatched. */
    constructor (parallel: int, uuid: nat -> string)
      ensures flushInterval == DefaultFlushInterval && this.parallel == parallel
      ensures this.uuid == uuid && drawn == 0 && dispatched == []
    {
      flushInterval := DefaultFlushInterval;
      this.parallel := parallel;
      this.uuid := uuid;
      drawn := 0;
      dispatched := [];
    }

    /** Sets the flush interval only and returns the same client. */
    method WithFlushInterval(d: int) returns (l: Client)
      modifies this`flushInterval
      ensures l == this && flushInterval == d
    {
      flushInterval := d;
      l := this;
    }

    /** Hands one event to the observer. */
    method Dispatch(e: IngestionEvent)
      modifies this`dispatched
      ensures dispatched == old(dispatched) + [e]
    {
      dispatched := dispatched + [e];
    }

    /** uuid.New: the next UUID. */
    method NewUUID() returns (s: string)
      modifies this`drawn
      ensures s == uuid(old(drawn)) && drawn == old(drawn) + 1
    {
      s := uuid(drawn);
      drawn := drawn + 1;
    }

    /** buildID, drawing a UUID only when the given ID is missing or empty. */
    method MakeID(id: Option<string>) returns (r: string)
      modifies this`drawn
      ensures r == BuildID(id, uuid(old(drawn)))
      ensures drawn == old(drawn) + (if Given(id) then 0 else 1)
    {
      if Given(id) {
        r := id.value;
      } else {
        var generated := NewUUID();
        r := BuildID(id, generated);
      }
    }

    /** Trace: stamps the trace's ID and dispatches a trace-create event with a generated ID. */
    method Trace(t: Trace, now: Time) returns (r: Result<Trace>)
      modifies this`drawn, this`dispatched
      ensures r == Ok(t.(id := BuildID(Some(t.id), uuid(old(drawn)))))
      ensures drawn == old(drawn) + Draws(t.id) + 1
      ensures dispatched == old(dispatched) +
        [IngestionEvent(TraceCreate, uuid(old(drawn) + Draws(t.id)), now, TraceBody(r.value), 0)]
    {
      var id := MakeID(Some(t.id));
      var t' := t.(id := id);
      var eventID := MakeID(None);
      Dispatch(IngestionEvent(TraceCreate, eventID, now, TraceBody(t'), 0));
      r := Ok(t');
    }

    /** TraceWithTime: as Trace, but the event reuses the trace's ID and the given time. */
    method TraceWithTime(t: Trace, timestamp: Time) returns (r: Result<Trace>)
      modifies this`drawn, this`dispatched
      ensures r == Ok(t.(id := BuildID(Some(t.id), uuid(old(drawn)))))
      ensures drawn == old(drawn) + Draws(t.id)
      ensures dispatched == old(dispatched) +
        [IngestionEvent(TraceCreate, r.value.id, timestamp, TraceBody(r.value), 0)]
    {
      var id := MakeID(Some(t.id));
      var t' := t.(id := id);
      Dispatch(IngestionEvent(TraceCreate, t'.id, timestamp, TraceBody(t'), 0));
      r := Ok(t');
    }

    /**
     * createTrace: creates and dispatches a trace named `name`, and then
     * always reports that it could not get a trace ID.
     */
    method CreateTrace(name: string, now: Time) returns (traceId: string, err: Option<FacadeError>)
      modifies this`drawn, this`dispatched
      ensures err == Some(UnableToGetTraceID)
      ensures traceId == uuid(old(drawn))
      ensures drawn == old(drawn) + 2
      ensures dispatched == old(dispatched) + [TraceCreateEvent(name, old(drawn), now)]
    {
      // Trace never reports an error, so its result is always Ok.
      var t := Trace(Model.Trace("", name), now);
      traceId := t.value.id;
      err := Some(UnableToGetTraceID);
    }

    /**
     * Generation: with an empty trace ID, creates a trace and fails with the
     * error of createTrace; otherwise stamps the generation's ID and parent
     * and dispatches a generation-create event with a generated ID.
     */
    method Generation(g: Generation, parentID: Option<string>, now: Time) returns (r: Result<Generation>)
      modifies this`drawn, this`dispatched
      ensures g.traceId == "" ==>
        && r == Err(UnableToGetTraceID)
        && drawn == old(drawn) + 2
        && dispatched == old(dispatched) + [TraceCreateEvent(g.name, old(drawn), now)]
      ensures g.traceId != "" ==>
        && r == Ok(g.(id := BuildID(Some(g.id), uuid(old(drawn))),
                      parentObservationId := ParentOr(parentID, g.parentObservationId)))
        && drawn == old(drawn) + Draws(g.id) + 1
        && dispatched == old(dispatched) +
           [IngestionEvent(GenerationCreate, uuid(old(drawn) + Draws(g.id)), now, GenerationBody(r.value), 0)]
    {
      if g.traceId == "" {
        var _, err := CreateTrace(g.name, now);
        return Err(err.value);
      }
      var id := MakeID(Some(g.id));
      var g' := g.(id := id);
      if parentID.Some? {
        g' := g'.(parentObservationId := parentID.value);
      }
      var eventID := MakeID(None);
      Dispatch(IngestionEvent(GenerationCreate, eventID, now, GenerationBody(g'), 0));
      r := Ok(g');
    }

    /** GenerationWithTime: as Generation, but the event reuses the generation's ID and the given time. */
    method GenerationWithTime(g: Generation, parentID: Option<string>, timestamp: Time, now: Time)
      returns (r: Result<Generation>)
      modifies this`drawn, this`dispatched
      ensures g.traceId == "" ==>
        && r == Err(UnableToGetTraceID)
        && drawn == old(drawn) + 2
        && dispatched == old(dispatched) + [TraceCreateEvent(g.name, old(drawn), now)]
      ensures g.traceId != "" ==>
        && r == Ok(g.(id := BuildID(Some(g.id), uuid(old(drawn))),
                      parentObservationId := ParentOr(parentID, g.parentObservationId)))
        && drawn == old(drawn) + Draws(g.id)
        && dispatched == old(dispatched) +
           [IngestionEvent(GenerationCreate, r.value.id, timestamp, GenerationBody(r.value), 0)]
    {
      if g.traceId == "" {
        var _, err := CreateTrace(g.name, now);
        return Err(err.value);
      }
      var id := MakeID(Some(g.id));
      var g' := g.(id := id);
      if parentID.Some? {
        g' := g'.(parentObservationId := parentID.value);
      }
      Dispatch(IngestionEvent(GenerationCreate, g'.id, timestamp, GenerationBody(g'), 0));
      r := Ok(g');
    }

    /**
     * GenerationEnd: fails, dispatching nothing, when the ID or else the
     * trace ID is empty; otherwise dispatches one generation-update event.
     */
    method GenerationEnd(g: Generation, now: Time) returns (r: Result<Generation>)
      modifies this`drawn, this`dispatched
      ensures CheckEnd(g.id, g.traceId).Some? ==>
        && r == Err(CheckEnd(g.id, g.traceId).value)
        && drawn == old(drawn) && dispatched == old(dispatched)
      ensures CheckEnd(g.id, g.traceId).None? ==>
        && r == Ok(g)
        && drawn == old(drawn) + 1
        && dispatched == old(dispatched) + [IngestionEvent(GenerationUpdate, uuid(old(drawn)), now, GenerationBody(g), 0)]
    {
      var check := CheckEnd(g.id, g.traceId);
      if check.Some? {
        return Err(check.value);
      }
      var eventID := MakeID(None);
      Dispatch(IngestionEvent(GenerationUpdate, eventID, now, GenerationBody(g), 0));
      r := Ok(g);
    }

    /** GenerationEndWithTime: as GenerationEnd, but the event reuses the generation's ID and the given time. */
    method GenerationEndWithTime(g: Generation, timestamp: Time) returns (r: Result<Generation>)
      modifies this`dispatched
      ensures CheckEnd(g.id, g.traceId).Some? ==>
        r == Err(CheckEnd(g.id, g.traceId).value) && dispatched == old(dispatched)
      ensures CheckEnd(g.id, g.traceId).None? ==>
        && r == Ok(g)
        && dispatched == old(dispatched) + [IngestionEvent(GenerationUpdate, g.id, timestamp, GenerationBody(g), 0)]
    {
      var check := CheckEnd(g.id, g.traceId);
      if check.Some? {
        return Err(check.value);
      }
      Dispatch(IngestionEvent(GenerationUpdate, g.id, timestamp, GenerationBody(g), 0));
      r := Ok(g);
    }

    /**
     * Score: fails, dispatching nothing, when the trace ID is empty; otherwise
     * stamps the score's ID and dispatches a score-create event with a generated ID.
     */
    method Score(s: Score, now: Time) returns (r: Result<Score>)
      modifies this`drawn, this`dispatched
      ensures s.traceId == "" ==>
        r == Err(TraceIDRequired) && drawn == old(drawn) && dispatched == old(dispatched)
      ensures s.traceId != "" ==>
        && r == Ok(s.(id := BuildID(Some(s.id), uuid(old(drawn)))))
        && drawn == old(drawn) + Draws(s.id) + 1
        && dispatched == old(dispatched) +
           [IngestionEvent(ScoreCreate, uuid(old(drawn) + Draws(s.id)), now, ScoreBody(r.value), 0)]
    {
      if s.traceId == "" {
        return Err(TraceIDRequired);
      }
      var id := MakeID(Some(s.id));
      var s' := s.(id := id);
      var eventID := MakeID(None);
      Dispatch(IngestionEvent(ScoreCreate, eventID, now, ScoreBody(s'), 0));
      r := Ok(s');
    }

    /**
     * Span: with an empty trace ID, creates a trace and fails with the error
     * of createTrace; otherwise stamps the span's ID and parent and
     * dispatches a span-create event with a generated ID.
     */
    method Span(s: Span, parentID: Option<string>, now: Time) returns (r: Result<Span>)
      modifies this`drawn, this`dispatched
      ensures s.traceId == "" ==>
        && r == Err(UnableToGetTraceID)
        && drawn == old(drawn) + 2
        && dispatched == old(dispatched) + [TraceCreateEvent(s.name, old(drawn), now)]
      ensures s.traceId != "" ==>
        && r == Ok(s.(id := BuildID(Some(s.id), uuid(old(drawn))),
                      parentObservationId := ParentOr(parentID, s.parentObservationId)))
        && drawn == old(drawn) + Draws(s.id) + 1
        && dispatched == old(dispatched) +
           [IngestionEvent(SpanCreate, uuid(old(drawn) + Draws(s.id)), now, SpanBody(r.value), 0)]
    {
      if s.traceId == "" {
        var _, err := CreateTrace(s.name, now);
        return Err(err.value);
      }
      var id := MakeID(Some(s.id));
      var s' := s.(id := id);
      if parentID.Some? {
        s' := s'.(parentObservationId := parentID.value);
      }
      var eventID := MakeID(None);
      Dispatch(IngestionEvent(SpanCreate, eventID, now, SpanBody(s'), 0));
      r := Ok(s');
    }

    /**
     * SpanEnd: fails, dispatching nothing, when the ID or else the trace ID
     * is empty; otherwise dispatches one span-update event.
     */
    method SpanEnd(s: Span, now: Time) returns (r: Result<Span>)
      modifies this`drawn, this`dispatched
      ensures CheckEnd(s.id, s.traceId).Some? ==>
        && r == Err(CheckEnd(s.id, s.traceId).value)
        && drawn == old(drawn) && dispatched == old(dispatched)
      ensures CheckEnd(s.id, s.traceId).None? ==>
        && r == Ok(s)
        && drawn == old(drawn) + 1
        && dispatched == old(dispatched) + [IngestionEvent(SpanUpdate, uuid(old(drawn)), now, SpanBody(s), 0)]
    {
      var check := CheckEnd(s.id, s.traceId);
      if check.Some? {
        return Err(check.value);
      }
      var eventID := MakeID(None);
      Dispatch(IngestionEvent(SpanUpdate, eventID, now, SpanBody(s), 0));
      r := Ok(s);
    }

    /**
     * Event: with an empty trace ID, creates a trace and fails with the error
     * of createTrace; otherwise stamps the event's ID and parent and
     * dispatches an event-create event with a generated ID.
     */
    method Event(e: Event, parentID: Option<string>, now: Time) returns (r: Result<Event>)
      modifies this`drawn, this`dispatched
      ensures e.traceId == "" ==>
        && r == Err(UnableToGetTraceID)
        && drawn == old(drawn) + 2
        && dispatched == old(dispatched) + [TraceCreateEvent(e.name, old(drawn), now)]
      ensures e.traceId != "" ==>
        && r == Ok(e.(id := BuildID(Some(e.id), uuid(old(drawn))),
                      parentObservationId := ParentOr(parentID, e.parentObservationId)))
        && drawn == old(drawn) + Draws(e.id) + 1
        && dispatched == old(dispatched) +
           [IngestionEvent(EventCreate, uuid(old(drawn) + Draws(e.id)), now, EventBody(r.value), 0)]
    {
      if e.traceId == "" {
        var _, err := CreateTrace(e.name, now);
        return Err(err.value);
      }
      var id := MakeID(Some(e.id));
      var e' := e.(id := id);
      if parentID.Some? {
        e' := e'.(parentObservationId := parentID.value);
      }
      var eventID := NewUUID();
      Dispatch(IngestionEvent(EventCreate, eventID, now, EventBody(e'), 0));
      r := Ok(e');
    }
  }
}
