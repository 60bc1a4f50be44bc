/**
 * The wire shapes of the event-sourcing library: the event envelope that is
 * appended to the log and the command envelope a service receives, plus the
 * error kinds the aggregates and services report.
 */
module Envelopes {
  import opened Json

  /** An appended event. Its timestamp is never read by the modelled code and is left out. */
  datatype EventEnvelope = EventEnvelope(
    aggregateType: string,
    aggregateId: string,
    eventType: string,
    payload: JVal,
    metadata: map<string, string>)

  /** A command. `timestamp` is the command's creation time in Unix seconds (an opaque input). */
  datatype CommandEnvelope = CommandEnvelope(
    aggregate: string,
    aggregateId: string,
    commandType: string,
    payload: JVal,
    metadata: map<string, string>,
    extraMetadata: map<string, JVal>,
    timestamp: int)

  datatype Error =
    | UnregisteredType          // no registration for (domain, tag)
    | PayloadMismatch           // the payload does not decode into the registered type
    | WrongAggregate            // event addressed to another aggregate
    | UnknownEventType          // decoded, but the aggregate has no case for it
    | UnknownCommandType        // decoded (or nil), but the aggregate has no case for it
    | AlreadyExists
    | NotFound
    | NegativeBalance
    | EmptyCurrency
    | NonPositiveAmount
    | InsufficientFunds
    | MissingProductSnapshot    // a Go panic: ExtraMetadata["product"] is not an object
    | UnsupportedEvent          // recorded (not returned) by the live projections

  predicate IsDecodeError(e: Error) {
    e == UnregisteredType || e == PayloadMismatch
  }

  /** Go's lookup of a string map: a missing key reads as "". */
  function Meta(m: map<string, string>, key: string): string {
    if key in m then m[key] else ""
  }
}
