/** The names of the payments aggregate and of its command and event tags (apps/banking/const.go). */
module BankingConst {
  const Aggregate := "payments"
  const CreateCommand := "create"
  const CreatedEvent := "created"
  const CreditCommand := "credit"
  const DebitCommand := "debit"
  const DebitedEvent := "debited"
  const CreditedEvent := "credited"
}
