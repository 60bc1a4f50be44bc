/**
 * The two account aggregates of apps/banking/aggregates.go.
 * AccountAggregate is a plain ledger: it folds debits and credits into a
 * balance. PaymentAggregate also remembers whether any event was ever
 * decoded for it (`found`) and decides the create, debit and credit
 * commands. Each class's methods are proved against a pure step or decision
 * function on a value of its state; the lemmas are about those functions.
 * Balances are unbounded integers (the source's int64 is not checked for
 * overflow).
 */
module BankingAggregates {
  import opened Wrappers
  import opened Json
  import opened Envelopes
  import opened Payloads
  import opened Registry
  import opened EventLog
  import opened BankingConst

  // ================================================================ ledger

  datatype Ledger = Ledger(id: string, balance: int, currency: string)

  /**
   * AccountAggregate.ApplyEvent: the envelope's id is checked before the
   * payload is decoded; debited subtracts, credited adds, every other
   * decoded type is an error. Nothing changes on an error.
   */
  function LedgerStep(s: Ledger, e: EventEnvelope): (r: Applied<Ledger>)
    ensures r.err.Some? ==> r.state == s
    ensures r.state.id == s.id && r.state.currency == s.currency
  {
    if s.id != e.aggregateId then Applied(s, Some(WrongAggregate))
    else match DecodeEvent(e)
      case Err(err) => Applied(s, Some(err))
      case Ok(AccountDebited(_, amount, _, _, _)) => Applied(s.(balance := s.balance - amount), None)
      case Ok(AccountCredited(_, amount, _, _, _)) => Applied(s.(balance := s.balance + amount), None)
      case Ok(_) => Applied(s, Some(UnknownEventType))
  }

  class AccountAggregate {
    var ID: string
    var Balance: int
    var Currency: string

    function State(): Ledger
      reads this
    {
      Ledger(ID, Balance, Currency)
    }

    constructor (id: string)
      ensures State() == Ledger(id, 0, "")
    {
      ID, Balance, Currency := id, 0, "";
    }

    method ApplyEvent(e: EventEnvelope) returns (err: Option<Error>)
      modifies this
      ensures Applied(State(), err) == LedgerStep(old(State()), e)
    {
      if ID != e.aggregateId {
        return Some(WrongAggregate);
      }
      var ev := DecodeEvent(e);
      if ev.Err? {
        return Some(ev.error);
      }
      match ev.value {
        case AccountDebited(_, amount, _, _, _) =>
          Balance := Balance - amount;
          err := None;
        case AccountCredited(_, amount, _, _, _) =>
          Balance := Balance + amount;
          err := None;
        case _ =>
          err := Some(UnknownEventType);
      }
    }

    /** The library's replay of this aggregate's stream. */
    method Replay(history: seq<EventEnvelope>, policy: Policy) returns (err: Option<Error>)
      modifies this
      ensures Applied(State(), err) == Fold(LedgerStep, old(State()), history, policy)
    {
      ghost var s0 := State();
      var i := 0;
      err := None;
      while i < |history| && !(policy == Halt && err.Some?)
        invariant 0 <= i <= |history|
        invariant Applied(State(), err) == Fold(LedgerStep, s0, history[..i], policy)
      {
        FoldPrefixStep(LedgerStep, s0, history, i, policy);
        var e := ApplyEvent(history[i]);
        err := FirstError(err, e);
        i := i + 1;
      }
      if i < |history| {
        HaltedFoldIsStable(LedgerStep, s0, history, i);
      } else {
        assert history[..i] == history;
      }
    }
  }

  /** The signed effect of a debit or credit on the balance; zero for anything else. */
  function Movement(ev: Event): int {
    match ev
    case AccountCredited(_, amount, _, _, _) => amount
    case AccountDebited(_, amount, _, _, _) => -amount
    case _ => 0
  }

  /** Σ credits − Σ debits of a sequence of events. */
  function Net(evs: seq<Event>): int
    decreases |evs|
  {
    if evs == [] then 0 else Net(evs[..|evs| - 1]) + Movement(evs[|evs| - 1])
  }

  predicate IsMovement(ev: Event) {
    ev.AccountDebited? || ev.AccountCredited?
  }

  /** The envelope the payments domain stores a debit or credit of account `id` in. */
  function MovementEnvelope(id: string, ev: Event): EventEnvelope {
    EventEnvelope(Aggregate, id, if ev.AccountDebited? then DebitedEvent else CreditedEvent, EncodeEvent(ev), map[])
  }

  function MovementEnvelopes(id: string, evs: seq<Event>): (r: seq<EventEnvelope>)
    ensures |r| == |evs|
    ensures forall i :: 0 <= i < |evs| ==> r[i] == MovementEnvelope(id, evs[i])
  {
    seq(|evs|, i requires 0 <= i < |evs| => MovementEnvelope(id, evs[i]))
  }

  /** A debit or credit stored on the account's own stream decodes back to itself. */
  lemma MovementDecodes(id: string, ev: Event)
    requires IsMovement(ev)
    ensures DecodeEvent(MovementEnvelope(id, ev)) == Ok(ev)
  {
    DecodeRegisteredEvent(Aggregate, id, if ev.AccountDebited? then DebitedEvent else CreditedEvent, ev, map[]);
  }

  /**
   * Conservation: replaying any history of debits and credits of one account
   * yields the initial balance plus Σ credits − Σ debits, with no error, under
   * either replay policy. Replay never rejects a debit for lack of funds.
   */
  lemma {:induction false} LedgerConservation(s: Ledger, evs: seq<Event>, policy: Policy)
    requires forall i :: 0 <= i < |evs| ==> IsMovement(evs[i])
    ensures Fold(LedgerStep, s, MovementEnvelopes(s.id, evs), policy) == Applied(s.(balance := s.balance + Net(evs)), None)
    decreases |evs|
  {
    var h := MovementEnvelopes(s.id, evs);
    forall i | 0 <= i < |h|
      ensures h[i].aggregateId == s.id && DecodeEvent(h[i]) == Ok(evs[i])
    {
      MovementDecodes(s.id, evs[i]);
    }
    FoldOfMovements(s, h, evs, policy);
  }

  /** The induction behind conservation, over any history of this account whose i-th entry decodes to the movement evs[i]. */
  lemma {:induction false} FoldOfMovements(s: Ledger, h: seq<EventEnvelope>, evs: seq<Event>, policy: Policy)
    requires |h| == |evs|
    requires forall i :: 0 <= i < |evs| ==> IsMovement(evs[i])
    requires forall i :: 0 <= i < |h| ==> h[i].aggregateId == s.id && DecodeEvent(h[i]) == Ok(evs[i])
    ensures Fold(LedgerStep, s, h, policy) == Applied(s.(balance := s.balance + Net(evs)), None)
    decreases |h|
  {
    if h == [] {
      assert Net(evs) == 0;
    } else {
      var n := |h| - 1;
      var before := s.(balance := s.balance + Net(evs[..n]));
      FoldOfMovements(s, h[..n], evs[..n], policy);
      FoldPrefixStep(LedgerStep, s, h, n, policy);
      assert h[..n + 1] == h;
      MovementStep(before, h[n], evs[n]);
      assert Net(evs) == Net(evs[..n]) + Movement(evs[n]);
    }
  }

  lemma MovementStep(s: Ledger, e: EventEnvelope, ev: Event)
    requires e.aggregateId == s.id && DecodeEvent(e) == Ok(ev) && IsMovement(ev)
    ensures LedgerStep(s, e) == Applied(s.(balance := s.balance + Movement(ev)), None)
  {
  }

  /**
   * The ledger's three outcomes: an envelope for another account is refused
   * before its payload is looked at; a decoded event that is neither a debit
   * nor a credit is an error; a movement shifts the balance by its signed
   * amount. The balance moves only in the last case.
   */
  lemma LedgerStepOutcomes(s: Ledger, e: EventEnvelope)
    ensures e.aggregateId != s.id ==> LedgerStep(s, e) == Applied(s, Some(WrongAggregate))
    ensures e.aggregateId == s.id && DecodeEvent(e).Ok? && !IsMovement(DecodeEvent(e).value) ==>
      LedgerStep(s, e) == Applied(s, Some(UnknownEventType))
    ensures e.aggregateId == s.id && DecodeEvent(e).Ok? && IsMovement(DecodeEvent(e).value) ==>
      LedgerStep(s, e) == Applied(s.(balance := s.balance + Movement(DecodeEvent(e).value)), None)
    ensures LedgerStep(s, e).state.balance != s.balance ==>
      e.aggregateId == s.id && DecodeEvent(e).Ok? && IsMovement(DecodeEvent(e).value)
  {
  }

  // ================================================================ payment

  datatype Payment = Payment(id: string, balance: int, currency: string, found: bool)

  /**
   * PaymentAggregate.ApplyEvent: `found` is set as soon as the payload
   * decodes, before the type switch; each account event is applied only if
   * the account id in its payload is this aggregate's id (checked before any
   * field is assigned); a created event overwrites balance and currency.
   */
  function PaymentStep(s: Payment, e: EventEnvelope): (r: Applied<Payment>)
    ensures r.state.found == (s.found || DecodeEvent(e).Ok?)
    ensures r.state.id == s.id
    ensures r.err.Some? ==> r.state == s.(found := r.state.found)
  {
    match DecodeEvent(e)
    case Err(err) => Applied(s, Some(err))
    case Ok(ev) =>
      var s1 := s.(found := true);
      match ev
      case AccountCreated(acc, cur, bal, _, _) =>
        if s.id != acc then Applied(s1, Some(WrongAggregate))
        else Applied(s1.(id := acc, balance := bal, currency := cur), None)
      case AccountDebited(acc, amount, _, _, _) =>
        if s.id != acc then Applied(s1, Some(WrongAggregate))
        else Applied(s1.(balance := s.balance - amount), None)
      case AccountCredited(acc, amount, _, _, _) =>
        if s.id != acc then Applied(s1, Some(WrongAggregate))
        else Applied(s1.(balance := s.balance + amount), None)
      case _ => Applied(s1, Some(UnknownEventType))
  }

  /** The envelope of an account event as the payment aggregate builds it. */
  function PaymentEvent(id: string, tag: string, ev: Event): EventEnvelope {
    EventEnvelope(Aggregate, id, tag, EncodeEvent(ev), map[])
  }

  /**
   * PaymentAggregate.ApplyCommand. Rejections return no events and leave the
   * state untouched; an accepted command returns its events and the state
   * the aggregate is left in. Create is emitted under the tag "credited".
   */
  function PaymentDecide(s: Payment, c: CommandEnvelope): (d: Decision<Payment>)
    ensures d.err.Some? <==> d.events == []
    ensures d.err.Some? ==> d.state == s
    ensures d.state.found == s.found
  {
    match DecodeCommand(c)
    case Err(err) => Reject(s, err)
    case Ok(CreateAccountCommand(acc, cur, bal, ref)) =>
      if bal < 0 then Reject(s, NegativeBalance)
      else if cur == "" then Reject(s, EmptyCurrency)
      else Decision(s.(id := acc, balance := bal, currency := cur),
                    [PaymentEvent(acc, CreditedEvent, AccountCreated(acc, cur, bal, ref, c.timestamp))], None)
    case Ok(DebitAccountCommand(from, to, amount, ref)) =>
      if amount <= 0 then Reject(s, NonPositiveAmount)
      else if s.balance < amount then Reject(s, InsufficientFunds)
      else
        var nb := s.balance - amount;
        Decision(s.(balance := nb),
                 [PaymentEvent(from, DebitedEvent, AccountDebited(from, amount, ref, nb, 0)),
                  PaymentEvent(to, CreditedEvent, AccountCredited(to, amount, ref, 0, 0))], None)
    case Ok(CreditAccountCommand(_, to, amount, ref)) =>
      if amount <= 0 then Reject(s, NonPositiveAmount)
      else
        var nb := s.balance + amount;
        Decision(s.(balance := nb), [PaymentEvent(to, CreditedEvent, AccountCredited(to, amount, ref, nb, 0))], None)
    case Ok(_) => Reject(s, UnknownCommandType)
  }

  class PaymentAggregate {
    var ID: string
    var Balance: int
    var Currency: string
    var found: bool

    function State(): Payment
      reads this
    {
      Payment(ID, Balance, Currency, found)
    }

    constructor (id: string)
      ensures State() == Payment(id, 0, "", false)
    {
      ID, Balance, Currency, found := id, 0, "", false;
    }

    method ApplyEvent(e: EventEnvelope) returns (err: Option<Error>)
      modifies this
      ensures Applied(State(), err) == PaymentStep(old(State()), e)
    {
      var ev := DecodeEvent(e);
      if ev.Err? {
        return Some(ev.error);
      }
      found := true;
      err := None;
      match ev.value {
        case AccountCreated(acc, cur, bal, _, _) =>
          if ID != acc {
            return Some(WrongAggregate);
          }
          ID, Balance, Currency := acc, bal, cur;
        case AccountDebited(acc, amount, _, _, _) =>
          if ID != acc {
            return Some(WrongAggregate);
          }
          Balance := Balance - amount;
        case AccountCredited(acc, amount, _, _, _) =>
          if ID != acc {
            return Some(WrongAggregate);
          }
          Balance := Balance + amount;
        case _ =>
          err := Some(UnknownEventType);
      }
    }

    /** The library's replay of this aggregate's stream. */
    method Replay(history: seq<EventEnvelope>, policy: Policy) returns (err: Option<Error>)
      modifies this
      ensures Applied(State(), err) == Fold(PaymentStep, old(State()), history, policy)
    {
      ghost var s0 := State();
      var i := 0;
      err := None;
      while i < |history| && !(policy == Halt && err.Some?)
        invariant 0 <= i <= |history|
        invariant Applied(State(), err) == Fold(PaymentStep, s0, history[..i], policy)
      {
        FoldPrefixStep(PaymentStep, s0, history, i, policy);
        var e := ApplyEvent(history[i]);
        err := FirstError(err, e);
        i := i + 1;
      }
      if i < |history| {
        HaltedFoldIsStable(PaymentStep, s0, history, i);
      } else {
        assert history[..i] == history;
      }
    }

    method ApplyCommand(c: CommandEnvelope) returns (events: seq<EventEnvelope>, err: Option<Error>)
      modifies this
      ensures Decision(State(), events, err) == PaymentDecide(old(State()), c)
    {
      var cmd := DecodeCommand(c);
      if cmd.Err? {
        return [], Some(cmd.error);
      }
      match cmd.value {
        case CreateAccountCommand(acc, cur, bal, ref) =>
          if bal < 0 {
            return [], Some(NegativeBalance);
          }
          if cur == "" {
            return [], Some(EmptyCurrency);
          }
          ID, Balance, Currency := acc, bal, cur;
          events := [PaymentEvent(acc, CreditedEvent, AccountCreated(acc, cur, bal, ref, c.timestamp))];
          err := None;
        case DebitAccountCommand(from, to, amount, ref) =>
          if amount <= 0 {
            return [], Some(NonPositiveAmount);
          }
          if Balance < amount {
            return [], Some(InsufficientFunds);
          }
          Balance := Balance - amount;
          events := [PaymentEvent(from, DebitedEvent, AccountDebited(from, amount, ref, Balance, 0)),
                     PaymentEvent(to, CreditedEvent, AccountCredited(to, amount, ref, 0, 0))];
          err := None;
        case CreditAccountCommand(_, to, amount, ref) =>
          if amount <= 0 {
            return [], Some(NonPositiveAmount);
          }
          Balance := Balance + amount;
          events := [PaymentEvent(to, CreditedEvent, AccountCredited(to, amount, ref, Balance, 0))];
          err := None;
        case _ =>
          events, err := [], Some(UnknownCommandType);
      }
    }
  }

  // ---------------------------------------------------------------- lemmas

  /** `found` after a replay: true exactly when it was already, or some event of the history decoded. */
  lemma {:induction false} PaymentFoundAfterReplay(s: Payment, h: seq<EventEnvelope>)
    ensures Fold(PaymentStep, s, h, Continue).state.found <==> s.found || exists i :: 0 <= i < |h| && DecodeEvent(h[i]).Ok?
    decreases |h|
  {
    if h != [] {
      var n := |h| - 1;
      PaymentFoundAfterReplay(s, h[..n]);
      if exists i :: 0 <= i < n && DecodeEvent(h[..n][i]).Ok? {
        var i :| 0 <= i < n && DecodeEvent(h[..n][i]).Ok?;
        assert h[i] == h[..n][i];
      }
      if exists i :: 0 <= i < |h| && DecodeEvent(h[i]).Ok? {
        var i :| 0 <= i < |h| && DecodeEvent(h[i]).Ok?;
        if i < n { assert h[..n][i] == h[i]; }
      }
    }
  }

  /** An account event for another account marks the aggregate found and changes nothing else. */
  lemma PaymentChecksAccountBeforeApplying(s: Payment, e: EventEnvelope)
    requires DecodeEvent(e).Ok? && IsAccountEvent(DecodeEvent(e).value)
    requires DecodeEvent(e).value.accountId != s.id
    ensures PaymentStep(s, e) == Applied(s.(found := true), Some(WrongAggregate))
  {
  }

  /**
   * An account event naming this aggregate's id is applied: a created event
   * overwrites balance and currency, a debit subtracts and a credit adds.
   */
  lemma PaymentAppliesOwnEvents(s: Payment, e: EventEnvelope)
    requires DecodeEvent(e).Ok? && IsAccountEvent(DecodeEvent(e).value)
    requires DecodeEvent(e).value.accountId == s.id
    ensures var ev := DecodeEvent(e).value;
      && PaymentStep(s, e).err.None?
      && (ev.AccountCreated? ==> PaymentStep(s, e).state == s.(balance := ev.balance, currency := ev.currency, found := true))
      && (IsMovement(ev) ==> PaymentStep(s, e).state == s.(balance := s.balance + Movement(ev), found := true))
  {
  }

  predicate IsAccountEvent(ev: Event) {
    ev.AccountCreated? || ev.AccountDebited? || ev.AccountCredited?
  }

  /** Create: the two rejections, and on success the state and the single event addressed to the new account. */
  lemma CreateOutcome(s: Payment, c: CommandEnvelope, acc: string, cur: string, bal: int, ref: string)
    requires DecodeCommand(c) == Ok(CreateAccountCommand(acc, cur, bal, ref))
    ensures bal < 0 ==> PaymentDecide(s, c) == Decision(s, [], Some(NegativeBalance))
    ensures bal >= 0 && cur == "" ==> PaymentDecide(s, c) == Decision(s, [], Some(EmptyCurrency))
    ensures bal >= 0 && cur != "" ==>
      var d := PaymentDecide(s, c);
      && d.err.None? && d.state == Payment(acc, bal, cur, s.found) && |d.events| == 1
      && d.events[0].aggregateId == acc && d.events[0].aggregateType == "payments"
      && d.events[0].eventType == "credited"
  {
  }

  /**
   * The create decision's event is tagged "credited", so it is decoded as an
   * AccountCredited of amount 0: replaying it keeps the account's balance and
   * currency where they were (the opening balance is never replayed), though
   * it does mark the account found.
   */
  lemma CreateReplaysAsZeroCredit(s: Payment, c: CommandEnvelope, acc: string, cur: string, bal: int, ref: string)
    requires DecodeCommand(c) == Ok(CreateAccountCommand(acc, cur, bal, ref))
    requires bal >= 0 && cur != "" && s.id == acc
    ensures var e := PaymentDecide(s, c).events[0];
      && DecodeEvent(e) == Ok(AccountCredited(acc, 0, ref, 0, c.timestamp))
      && PaymentStep(s, e) == Applied(s.(found := true), None)
      && LedgerStep(Ledger(acc, s.balance, s.currency), e) == Applied(Ledger(acc, s.balance, s.currency), None)
  {
    CreatedReadsAsZeroCredit(acc, cur, bal, ref, c.timestamp);
  }

  /**
   * Transfer atomicity: a debit that passes both checks lowers the balance by
   * the amount and returns exactly a debit on the source account and a credit
   * of the same amount and reference on the destination account, in that
   * order; otherwise it returns no event and changes nothing.
   */
  lemma DebitOutcome(s: Payment, c: CommandEnvelope, from: string, to: string, amount: int, ref: string)
    requires DecodeCommand(c) == Ok(DebitAccountCommand(from, to, amount, ref))
    ensures amount <= 0 ==> PaymentDecide(s, c) == Decision(s, [], Some(NonPositiveAmount))
    ensures 0 < amount && s.balance < amount ==> PaymentDecide(s, c) == Decision(s, [], Some(InsufficientFunds))
    ensures 0 < amount <= s.balance ==>
      var d := PaymentDecide(s, c);
      && d.err.None? && d.state == s.(balance := s.balance - amount) && |d.events| == 2
      && d.events[0].aggregateId == from && d.events[1].aggregateId == to
      && DecodeEvent(d.events[0]) == Ok(AccountDebited(from, amount, ref, s.balance - amount, 0))
      && DecodeEvent(d.events[1]) == Ok(AccountCredited(to, amount, ref, 0, 0))
  {
    if 0 < amount <= s.balance {
      var d := PaymentDecide(s, c);
      DecodeRegisteredEvent(Aggregate, from, DebitedEvent, AccountDebited(from, amount, ref, s.balance - amount, 0), map[]);
      DecodeRegisteredEvent(Aggregate, to, CreditedEvent, AccountCredited(to, amount, ref, 0, 0), map[]);
    }
  }

  /** Credit: rejects a non-positive amount; otherwise one credit on the destination carrying the new balance. */
  lemma CreditOutcome(s: Payment, c: CommandEnvelope, from: string, to: string, amount: int, ref: string)
    requires DecodeCommand(c) == Ok(CreditAccountCommand(from, to, amount, ref))
    ensures amount <= 0 ==> PaymentDecide(s, c) == Decision(s, [], Some(NonPositiveAmount))
    ensures 0 < amount ==>
      var d := PaymentDecide(s, c);
      && d.err.None? && d.state == s.(balance := s.balance + amount) && |d.events| == 1
      && d.events[0].aggregateId == to
      && DecodeEvent(d.events[0]) == Ok(AccountCredited(to, amount, ref, s.balance + amount, 0))
  {
    if 0 < amount {
      DecodeRegisteredEvent(Aggregate, to, CreditedEvent, AccountCredited(to, amount, ref, s.balance + amount, 0), map[]);
    }
  }

  /** A command that does not decode, or decodes to a type the aggregate has no case for, is rejected with no events. */
  lemma UndecidableCommandsAreRejected(s: Payment, c: CommandEnvelope)
    requires DecodeCommand(c).Err? || !(DecodeCommand(c).value.CreateAccountCommand?
      || DecodeCommand(c).value.DebitAccountCommand? || DecodeCommand(c).value.CreditAccountCommand?)
    ensures PaymentDecide(s, c).events == [] && PaymentDecide(s, c).state == s
    ensures DecodeCommand(c).Err? ==> PaymentDecide(s, c).err == Some(DecodeCommand(c).error)
    ensures DecodeCommand(c).Ok? ==> PaymentDecide(s, c).err == Some(UnknownCommandType)
  {
  }
}
