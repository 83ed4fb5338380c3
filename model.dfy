/**
 * The ingestion data model: the seven event type tags, the envelope that
 * travels through the delivery pipeline, and the domain records the facade
 * builds. Only the fields that the delivery and facade logic read or write
 * are kept; the remaining payload fields pass through untouched.
 */
module Model {

  /** The seven ingestion event type tags, one per wire string. */
  datatype EventType =
    | TraceCreate
    | GenerationCreate
    | GenerationUpdate
    | ScoreCreate
    | SpanCreate
    | SpanUpdate
    | EventCreate
  {
    /** The tag as it appears on the wire. */
    function Tag(): string {
      match this
      case TraceCreate => "trace-create"
      case GenerationCreate => "generation-create"
      case GenerationUpdate => "generation-update"
      case ScoreCreate => "score-create"
      case SpanCreate => "span-create"
      case SpanUpdate => "span-update"
      case EventCreate => "event-create"
    }
  }

  /** A point in time; wall-clock and timezone handling are not modelled. */
  type Time = int

  datatype Trace = Trace(id: string, name: string)

  datatype Generation = Generation(traceId: string, name: string, parentObservationId: string, id: string)

  datatype Span = Span(traceId: string, name: string, parentObservationId: string, id: string)

  datatype Event = Event(traceId: string, name: string, parentObservationId: string, id: string)

  datatype Score = Score(id: string, traceId: string, name: string)

  /** The body of an ingestion event: one of the domain records. */
  datatype Body =
    | TraceBody(trace: Trace)
    | GenerationBody(generation: Generation)
    | ScoreBody(score: Score)
    | SpanBody(span: Span)
    | EventBody(event: Event)

  /** The envelope queued, batched and sent to the ingestion sink. */
  datatype IngestionEvent = IngestionEvent(
    kind: EventType,
    id: string,
    timestamp: Time,
    body: Body,
    failCount: int)

  /**
   * The outcome of serialising an event: the length of its encoding, or a
   * failure. The sender discards the failure, so it costs zero bytes.
   */
  datatype Marshalled = Encoded(length: nat) | EncodeError

  function EncodedSize(m: Marshalled): nat {
    match m
    case Encoded(n) => n
    case EncodeError => 0
  }
}
