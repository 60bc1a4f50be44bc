/**
 * The envelope builders of apps/test (commands.go and events.go), which
 * address the "accounts" domain. Each payload decodes back to the builder's
 * arguments; whether the envelope as a whole decodes depends on what
 * apps/banking/init.go registers for "accounts".
 */
module TestBuilders {
  import opened Wrappers
  import opened Envelopes
  import opened Payloads
  import opened Registry

  const Accounts := "accounts"

  function CommandTo(id: string, tag: string, cmd: Command): CommandEnvelope {
    CommandEnvelope(Accounts, id, tag, EncodeCommand(cmd), map[], map[], 0)
  }

  function EventOf(tag: string, ev: Event): EventEnvelope {
    EventEnvelope(Accounts, "", tag, EncodeEvent(ev), map[])
  }

  /** A create addressed to the new account; "create" is not registered for "accounts". */
  function CreateAccount(accountId: string, currency: string, balance: int, ref: string): (c: CommandEnvelope)
    ensures c.aggregate == "accounts" && c.aggregateId == accountId && c.commandType == "create"
    ensures DecodeCommandAs(CreateAccountKind, c.payload) == Ok(CreateAccountCommand(accountId, currency, balance, ref))
    ensures DecodeCommand(c) == Err(UnregisteredType)
  {
    CommandRoundTrip(CreateAccountCommand(accountId, currency, balance, ref));
    CommandTo(accountId, "create", CreateAccountCommand(accountId, currency, balance, ref))
  }

  /** A debit addressed to the source account; it decodes through the registry. */
  function DebitAccount(fromAccountId: string, toAccountId: string, amount: int, ref: string): (c: CommandEnvelope)
    ensures c.aggregate == "accounts" && c.aggregateId == fromAccountId && c.commandType == "debit"
    ensures DecodeCommand(c) == Ok(DebitAccountCommand(fromAccountId, toAccountId, amount, ref))
  {
    var cmd := DebitAccountCommand(fromAccountId, toAccountId, amount, ref);
    DecodeRegisteredCommand(Accounts, fromAccountId, "debit", cmd, map[], map[], 0);
    CommandTo(fromAccountId, "debit", cmd)
  }

  /** A credit addressed to the destination account; "credit" is not registered for "accounts". */
  function CreditAccount(fromAccountId: string, toAccountId: string, amount: int, ref: string): (c: CommandEnvelope)
    ensures c.aggregate == "accounts" && c.aggregateId == toAccountId && c.commandType == "credit"
    ensures DecodeCommandAs(CreditAccountKind, c.payload) == Ok(CreditAccountCommand(fromAccountId, toAccountId, amount, ref))
    ensures DecodeCommand(c) == Err(UnregisteredType)
  {
    CommandRoundTrip(CreditAccountCommand(fromAccountId, toAccountId, amount, ref));
    CommandTo(toAccountId, "credit", CreditAccountCommand(fromAccountId, toAccountId, amount, ref))
  }

  /** An AccountCreated event with no aggregate id and no metadata; "created" is not registered for "accounts". */
  function AccountCreatedEvent(accountId: string, currency: string, balance: int, ref: string, timestamp: int): (e: EventEnvelope)
    ensures e.aggregateType == "accounts" && e.aggregateId == "" && e.eventType == "created" && e.metadata == map[]
    ensures DecodeEventAs(AccountCreatedKind, e.payload) == Ok(AccountCreated(accountId, currency, balance, ref, timestamp))
    ensures DecodeEvent(e) == Err(UnregisteredType)
  {
    EventRoundTrip(AccountCreated(accountId, currency, balance, ref, timestamp));
    EventOf("created", AccountCreated(accountId, currency, balance, ref, timestamp))
  }

  /** An AccountDebited event with no aggregate id and no metadata; it decodes through the registry. */
  function AccountDebitedEvent(accountId: string, amount: int, ref: string, newBalance: int, timestamp: int): (e: EventEnvelope)
    ensures e.aggregateType == "accounts" && e.aggregateId == "" && e.eventType == "debited" && e.metadata == map[]
    ensures DecodeEvent(e) == Ok(AccountDebited(accountId, amount, ref, newBalance, timestamp))
  {
    var ev := AccountDebited(accountId, amount, ref, newBalance, timestamp);
    DecodeRegisteredEvent(Accounts, "", "debited", ev, map[]);
    EventOf("debited", ev)
  }

  /** An AccountCredited event with no aggregate id and no metadata; it decodes through the registry. */
  function AccountCreditedEvent(accountId: string, amount: int, ref: string, newBalance: int, timestamp: int): (e: EventEnvelope)
    ensures e.aggregateType == "accounts" && e.aggregateId == "" && e.eventType == "credited" && e.metadata == map[]
    ensures DecodeEvent(e) == Ok(AccountCredited(accountId, amount, ref, newBalance, timestamp))
  {
    var ev := AccountCredited(accountId, amount, ref, newBalance, timestamp);
    DecodeRegisteredEvent(Accounts, "", "credited", ev, map[]);
    EventOf("credited", ev)
  }
}
