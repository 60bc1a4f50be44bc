/**
 * PaymentService.Handle of apps/banking/service.go: rebuild the payment
 * aggregate from its stream, refuse a create of an existing account and any
 * other command on a missing one, otherwise let the aggregate decide.
 */
module BankingService {
  import opened Wrappers
  import opened Envelopes
  import opened Payloads
  import opened Registry
  import opened EventLog
  import opened BankingConst
  import opened BankingAggregates

  /** The payment aggregate as replay leaves it for command `c`. */
  function Rebuilt(log: seq<EventEnvelope>, c: CommandEnvelope, policy: Policy): Payment {
    Fold(PaymentStep, Payment(c.aggregateId, 0, "", false), Stream(log, c.aggregate, c.aggregateId), policy).state
  }

  /** What Handle returns for `c` against `log`. */
  function PaymentHandle(log: seq<EventEnvelope>, c: CommandEnvelope, policy: Policy): (r: Outcome)
    ensures r.err.Some? <==> r.events == []
  {
    var agg := Rebuilt(log, c, policy);
    if agg.found && c.commandType == CreateCommand then Outcome([], Some(AlreadyExists))
    else if !agg.found && c.commandType != CreateCommand then Outcome([], Some(NotFound))
    else
      var d := PaymentDecide(agg, c);
      Outcome(d.events, d.err)
  }

  method HandlePayment(log: seq<EventEnvelope>, c: CommandEnvelope, policy: Policy) returns (events: seq<EventEnvelope>, err: Option<Error>)
    ensures Outcome(events, err) == PaymentHandle(log, c, policy)
  {
    var agg := new PaymentAggregate(c.aggregateId);
    var _ := agg.Replay(Stream(log, c.aggregate, c.aggregateId), policy);
    if agg.found && c.commandType == CreateCommand {
      return [], Some(AlreadyExists);
    } else if !agg.found && c.commandType != CreateCommand {
      return [], Some(NotFound);
    }
    events, err := agg.ApplyCommand(c);
  }

  /**
   * The existence gate, under the Continue policy: an account exists exactly
   * when some event of its stream decodes. A create is refused for an existing
   * account and every other command for a missing one.
   */
  lemma ExistenceGate(log: seq<EventEnvelope>, c: CommandEnvelope)
    ensures var h := Stream(log, c.aggregate, c.aggregateId);
      var exists_ := exists i :: 0 <= i < |h| && DecodeEvent(h[i]).Ok?;
      && (exists_ && c.commandType == CreateCommand ==> PaymentHandle(log, c, Continue) == Outcome([], Some(AlreadyExists)))
      && (!exists_ && c.commandType != CreateCommand ==> PaymentHandle(log, c, Continue) == Outcome([], Some(NotFound)))
  {
    var h := Stream(log, c.aggregate, c.aggregateId);
    var found := exists i :: 0 <= i < |h| && DecodeEvent(h[i]).Ok?;
    PaymentFoundAfterReplay(Payment(c.aggregateId, 0, "", false), h);
    var agg := Rebuilt(log, c, Continue);
    assert agg.found == found;
    if found && c.commandType == CreateCommand {
      assert agg.found && c.commandType == CreateCommand;
    } else if !found && c.commandType != CreateCommand {
      assert !agg.found && c.commandType != CreateCommand;
    }
  }

  /** Past the gate, Handle returns exactly what the rebuilt aggregate decides. */
  lemma PastTheGate(log: seq<EventEnvelope>, c: CommandEnvelope, policy: Policy)
    requires Rebuilt(log, c, policy).found <==> c.commandType != CreateCommand
    ensures var d := PaymentDecide(Rebuilt(log, c, policy), c);
      PaymentHandle(log, c, policy) == Outcome(d.events, d.err)
  {
  }

  /** Under Continue, an event that decodes marks the aggregate found, whatever came before it. */
  lemma FoundAfterDecodedEvent(s: Payment, h: seq<EventEnvelope>, e: EventEnvelope)
    requires DecodeEvent(e).Ok?
    ensures Fold(PaymentStep, s, h + [e], Continue).state.found
  {
    var h' := h + [e];
    assert h'[..|h'| - 1] == h;
  }

  /** The event a successful create returns decodes (as a zero credit) on the account's own stream. */
  lemma CreateEventDecodes(s: Payment, c: CommandEnvelope)
    requires DecodeCommand(c).Ok? && DecodeCommand(c).value.CreateAccountCommand?
    requires PaymentDecide(s, c).err.None?
    ensures |PaymentDecide(s, c).events| == 1
    ensures var e := PaymentDecide(s, c).events[0];
      DecodeEvent(e).Ok? && e.aggregateType == Aggregate && e.aggregateId == DecodeCommand(c).value.accountId
  {
    var cmd := DecodeCommand(c).value;
    CreatedReadsAsZeroCredit(cmd.accountId, cmd.currency, cmd.balance, cmd.ref, c.timestamp);
  }

  /**
   * A create that succeeds makes the account exist: once its events are
   * appended, the same create is refused as a duplicate.
   */
  lemma {:induction false} CreateThenCreateIsRefused(log: seq<EventEnvelope>, c: CommandEnvelope)
    requires c.aggregate == Aggregate && c.commandType == CreateCommand
    requires PaymentHandle(log, c, Continue).err.None?
    requires DecodeCommand(c).Ok? && DecodeCommand(c).value.CreateAccountCommand?
    requires DecodeCommand(c).value.accountId == c.aggregateId
    ensures PaymentHandle(Publish(log, c, PaymentHandle(log, c, Continue).events), c, Continue) == Outcome([], Some(AlreadyExists))
  {
    var agg := Rebuilt(log, c, Continue);
    var events := PaymentHandle(log, c, Continue).events;
    assert events == PaymentDecide(agg, c).events;
    CreateEventDecodes(agg, c);
    var e := events[0];
    assert StampAll(c, events) == [e];
    StreamAppend(log, [e], c.aggregate, c.aggregateId);
    assert Stream([e], c.aggregate, c.aggregateId) == [e];
    FoundAfterDecodedEvent(Payment(c.aggregateId, 0, "", false), Stream(log, c.aggregate, c.aggregateId), e);
  }
}
