/**
 * The payments scenario of apps/banking/banking_test.go, run against the
 * model: two accounts are opened, one is credited from outside, and a
 * transfer moves the whole balance to the other. Each command goes through
 * PaymentHandle against the log built so far, its events are appended the
 * way the command loop appends them, and the balances are read back by
 * replaying the ledger aggregate.
 */
module BankingScenario {
  import opened Wrappers
  import opened Envelopes
  import opened Payloads
  import opened Registry
  import opened EventLog
  import opened BankingConst
  import opened BankingAggregates
  import opened BankingService
  import opened BankingCommands

  /** One command through the service, its events appended to the log. */
  function Run(log: seq<EventEnvelope>, c: CommandEnvelope, policy: Policy): seq<EventEnvelope> {
    Publish(log, c, PaymentHandle(log, c, policy).events)
  }

  /** The balance AccountAggregate{ID: id} reports after replaying the account's stream. */
  function LedgerBalance(log: seq<EventEnvelope>, id: string, policy: Policy): int {
    Fold(LedgerStep, Ledger(id, 0, ""), Stream(log, Aggregate, id), policy).state.balance
  }

  const Open1 := CreateAccount("54321", "USD", 0, "create-54321")
  const Open2 := CreateAccount("12345", "USD", 0, "create-12345")
  const Deposit := CreditAccount("CASH", "12345", 1000, "payment-001")
  const Transfer := DebitAccount("12345", "54321", 1000, "payment-001")

  /** The event a create of `id` appends: AccountCreated under the tag "credited". */
  function Opened(id: string, ref: string): EventEnvelope {
    PaymentEvent(id, CreditedEvent, AccountCreated(id, "USD", 0, ref, 0))
  }

  const E1 := Opened("54321", "create-54321")
  const E2 := Opened("12345", "create-12345")
  const E3 := MovementEnvelope("12345", AccountCredited("12345", 1000, "payment-001", 1000, 0))
  const Out := MovementEnvelope("12345", AccountDebited("12345", 1000, "payment-001", 0, 0))
  const In := MovementEnvelope("54321", AccountCredited("54321", 1000, "payment-001", 0, 0))

  lemma OpenedDecodes(id: string, ref: string)
    ensures DecodeEvent(Opened(id, ref)) == Ok(AccountCredited(id, 0, ref, 0, 0))
  {
    CreatedReadsAsZeroCredit(id, "USD", 0, ref, 0);
    assert EventTypes[(Aggregate, CreditedEvent)] == AccountCreditedKind;
  }

  /** An opening event leaves both aggregates' balances where they were. */
  lemma OpenedSteps(id: string, ref: string, bal: int, cur: string, found: bool)
    ensures PaymentStep(Payment(id, bal, cur, found), Opened(id, ref)) == Applied(Payment(id, bal, cur, true), None)
    ensures LedgerStep(Ledger(id, bal, cur), Opened(id, ref)) == Applied(Ledger(id, bal, cur), None)
  {
    OpenedDecodes(id, ref);
  }

  lemma MovementSteps()
    ensures PaymentStep(Payment("12345", 0, "", true), E3) == Applied(Payment("12345", 1000, "", true), None)
    ensures LedgerStep(Ledger("12345", 0, ""), E3) == Applied(Ledger("12345", 1000, ""), None)
    ensures LedgerStep(Ledger("12345", 1000, ""), Out) == Applied(Ledger("12345", 0, ""), None)
    ensures LedgerStep(Ledger("54321", 0, ""), In) == Applied(Ledger("54321", 1000, ""), None)
  {
    MovementDecodes("12345", AccountCredited("12345", 1000, "payment-001", 1000, 0));
    MovementDecodes("12345", AccountDebited("12345", 1000, "payment-001", 0, 0));
    MovementDecodes("54321", AccountCredited("54321", 1000, "payment-001", 0, 0));
  }

  const L1 := [E1]
  const L2 := L1 + [E2]
  const L3 := L2 + [E3]
  const L4 := L3 + [Out] + [In]

  lemma StreamsOf12345()
    ensures Stream(L2, Aggregate, "12345") == [E2]
    ensures Stream(L3, Aggregate, "12345") == [E2, E3]
    ensures Stream(L4, Aggregate, "12345") == [E2, E3, Out]
  {
    StreamSnoc([], E1, Aggregate, "12345");
    assert L1 == [] + [E1];
    StreamSnoc(L1, E2, Aggregate, "12345");
    StreamSnoc(L2, E3, Aggregate, "12345");
    StreamSnoc(L3, Out, Aggregate, "12345");
    StreamSnoc(L3 + [Out], In, Aggregate, "12345");
  }

  lemma StreamOf54321()
    ensures Stream(L4, Aggregate, "54321") == [E1, In]
  {
    StreamSnoc([], E1, Aggregate, "54321");
    assert L1 == [] + [E1];
    StreamSnoc(L1, E2, Aggregate, "54321");
    StreamSnoc(L2, E3, Aggregate, "54321");
    StreamSnoc(L3, Out, Aggregate, "54321");
    StreamSnoc(L3 + [Out], In, Aggregate, "54321");
  }

  /** Opening account 54321 on an empty log appends its opening event and nothing else. */
  lemma FirstOpening(policy: Policy)
    ensures PaymentHandle([], Open1, policy) == Outcome([E1], None)
    ensures Run([], Open1, policy) == L1
  {
    assert Rebuilt([], Open1, policy) == Payment("54321", 0, "", false);
    assert Stamp(Open1, E1) == E1;
  }

  /** Opening account 12345 is not affected by the other account's stream. */
  lemma SecondOpening(policy: Policy)
    ensures PaymentHandle(L1, Open2, policy) == Outcome([E2], None)
    ensures Run(L1, Open2, policy) == L2
  {
    StreamSnoc([], E1, Aggregate, "12345");
    assert L1 == [] + [E1];
    assert Rebuilt(L1, Open2, policy) == Payment("12345", 0, "", false);
    assert Stamp(Open2, E2) == E2;
  }

  /** A credit that passes its check, with the event written as the ledger stores it. */
  lemma CreditDecision(s: Payment, c: CommandEnvelope, from: string, to: string, amount: int, ref: string)
    requires DecodeCommand(c) == Ok(CreditAccountCommand(from, to, amount, ref)) && 0 < amount
    ensures PaymentDecide(s, c)
         == Decision(s.(balance := s.balance + amount), [MovementEnvelope(to, AccountCredited(to, amount, ref, s.balance + amount, 0))], None)
  {
  }

  /** A debit that passes both checks, with its two events written as the ledger stores them. */
  lemma DebitDecision(s: Payment, c: CommandEnvelope, from: string, to: string, amount: int, ref: string)
    requires DecodeCommand(c) == Ok(DebitAccountCommand(from, to, amount, ref)) && 0 < amount <= s.balance
    ensures PaymentDecide(s, c)
         == Decision(s.(balance := s.balance - amount),
                     [MovementEnvelope(from, AccountDebited(from, amount, ref, s.balance - amount, 0)),
                      MovementEnvelope(to, AccountCredited(to, amount, ref, 0, 0))], None)
  {
  }

  lemma RebuiltBeforeDeposit(policy: Policy)
    ensures Rebuilt(L2, Deposit, policy) == Payment("12345", 0, "", true)
  {
    StreamsOf12345();
    OpenedSteps("12345", "create-12345", 0, "", false);
    FoldSnoc(PaymentStep, Payment("12345", 0, "", false), [], E2, policy);
    assert [] + [E2] == [E2];
  }

  /** The deposit finds account 12345 open and appends one credit carrying the new balance. */
  lemma DepositStep(policy: Policy)
    ensures PaymentHandle(L2, Deposit, policy) == Outcome([E3], None)
    ensures Run(L2, Deposit, policy) == L3
  {
    RebuiltBeforeDeposit(policy);
    CreditDecision(Payment("12345", 0, "", true), Deposit, "CASH", "12345", 1000, "payment-001");
    assert Stamp(Deposit, E3) == E3;
  }

  /** The test's first check: account 12345 replays to a balance of 1000. */
  lemma BalanceAfterDeposit(policy: Policy)
    ensures LedgerBalance(L3, "12345", policy) == 1000
  {
    StreamsOf12345();
    OpenedSteps("12345", "create-12345", 0, "", false);
    MovementSteps();
    var s0 := Ledger("12345", 0, "");
    FoldSnoc(LedgerStep, s0, [], E2, policy);
    assert [] + [E2] == [E2];
    FoldSnoc(LedgerStep, s0, [E2], E3, policy);
    assert [E2] + [E3] == [E2, E3];
  }

  lemma RebuiltBeforeTransfer(policy: Policy)
    ensures Rebuilt(L3, Transfer, policy) == Payment("12345", 1000, "", true)
  {
    StreamsOf12345();
    OpenedSteps("12345", "create-12345", 0, "", false);
    MovementSteps();
    var s0 := Payment("12345", 0, "", false);
    FoldSnoc(PaymentStep, s0, [], E2, policy);
    assert [] + [E2] == [E2];
    FoldSnoc(PaymentStep, s0, [E2], E3, policy);
    assert [E2] + [E3] == [E2, E3];
  }

  /** The transfer finds 1000 on account 12345 and appends a debit of 12345 and a credit of 54321. */
  lemma TransferStep(policy: Policy)
    ensures PaymentHandle(L3, Transfer, policy) == Outcome([Out, In], None)
    ensures Run(L3, Transfer, policy) == L4
  {
    RebuiltBeforeTransfer(policy);
    DebitDecision(Payment("12345", 1000, "", true), Transfer, "12345", "54321", 1000, "payment-001");
    assert Stamp(Transfer, Out) == Out && Stamp(Transfer, In) == In;
    assert StampAll(Transfer, [Out, In]) == [Out, In];
  }

  /** The test's last two checks: after the transfer 12345 replays to 0 and 54321 to 1000. */
  lemma BalanceOfSourceAfterTransfer(policy: Policy)
    ensures LedgerBalance(L4, "12345", policy) == 0
  {
    StreamsOf12345();
    OpenedSteps("12345", "create-12345", 0, "", false);
    MovementSteps();
    var s0 := Ledger("12345", 0, "");
    FoldSnoc(LedgerStep, s0, [], E2, policy);
    assert [] + [E2] == [E2];
    FoldSnoc(LedgerStep, s0, [E2], E3, policy);
    assert [E2] + [E3] == [E2, E3];
    FoldSnoc(LedgerStep, s0, [E2, E3], Out, policy);
    assert [E2, E3] + [Out] == [E2, E3, Out];
  }

  lemma BalanceOfDestinationAfterTransfer(policy: Policy)
    ensures LedgerBalance(L4, "54321", policy) == 1000
  {
    StreamOf54321();
    OpenedSteps("54321", "create-54321", 0, "", false);
    MovementSteps();
    var t0 := Ledger("54321", 0, "");
    FoldSnoc(LedgerStep, t0, [], E1, policy);
    assert [] + [E1] == [E1];
    FoldSnoc(LedgerStep, t0, [E1], In, policy);
    assert [E1] + [In] == [E1, In];
  }

  /** The whole scenario: the log the four commands build and the three balances the test checks. */
  lemma {:induction false} PaymentsScenario(policy: Policy)
    ensures var log2 := Run(Run([], Open1, policy), Open2, policy);
      var log3 := Run(log2, Deposit, policy);
      var log4 := Run(log3, Transfer, policy);
      && LedgerBalance(log3, "12345", policy) == 1000
      && LedgerBalance(log4, "12345", policy) == 0
      && LedgerBalance(log4, "54321", policy) == 1000
  {
    FirstOpening(policy);
    SecondOpening(policy);
    DepositStep(policy);
    BalanceAfterDeposit(policy);
    TransferStep(policy);
    BalanceOfSourceAfterTransfer(policy);
    BalanceOfDestinationAfterTransfer(policy);
  }
}
