/**
 * The command builders of apps/banking/comands.go. Each builds an envelope
 * for the payments domain addressed to the account the command acts on,
 * whose payload decodes back to the command it was built from.
 */
module BankingCommands {
  import opened Wrappers
  import opened Envelopes
  import opened Payloads
  import opened Registry
  import opened BankingConst

  function Envelope(id: string, tag: string, cmd: Command): CommandEnvelope {
    CommandEnvelope(Aggregate, id, tag, EncodeCommand(cmd), map[], map[], 0)
  }

  /** A create, addressed to the new account. */
  function CreateAccount(accountId: string, currency: string, balance: int, ref: string): (c: CommandEnvelope)
    ensures c.aggregate == "payments" && c.aggregateId == accountId && c.commandType == "create"
    ensures DecodeCommand(c) == Ok(CreateAccountCommand(accountId, currency, balance, ref))
  {
    var c := Envelope(accountId, CreateCommand, CreateAccountCommand(accountId, currency, balance, ref));
    DecodeRegisteredCommand(Aggregate, accountId, CreateCommand, CreateAccountCommand(accountId, currency, balance, ref), map[], map[], 0);
    c
  }

  /** A debit, addressed to the source account. */
  function DebitAccount(fromAccountId: string, toAccountId: string, amount: int, ref: string): (c: CommandEnvelope)
    ensures c.aggregate == "payments" && c.aggregateId == fromAccountId && c.commandType == "debit"
    ensures DecodeCommand(c) == Ok(DebitAccountCommand(fromAccountId, toAccountId, amount, ref))
  {
    var c := Envelope(fromAccountId, DebitCommand, DebitAccountCommand(fromAccountId, toAccountId, amount, ref));
    DecodeRegisteredCommand(Aggregate, fromAccountId, DebitCommand, DebitAccountCommand(fromAccountId, toAccountId, amount, ref), map[], map[], 0);
    c
  }

  /** A credit, addressed to the destination account. */
  function CreditAccount(fromAccountId: string, toAccountId: string, amount: int, ref: string): (c: CommandEnvelope)
    ensures c.aggregate == "payments" && c.aggregateId == toAccountId && c.commandType == "credit"
    ensures DecodeCommand(c) == Ok(CreditAccountCommand(fromAccountId, toAccountId, amount, ref))
  {
    var c := Envelope(toAccountId, CreditCommand, CreditAccountCommand(fromAccountId, toAccountId, amount, ref));
    DecodeRegisteredCommand(Aggregate, toAccountId, CreditCommand, CreditAccountCommand(fromAccountId, toAccountId, amount, ref), map[], map[], 0);
    c
  }
}
