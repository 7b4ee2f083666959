/** The vocabulary the two services share: accounts, transactions, and what travels between them.
    Money is a whole number of cents. Transactions and accounts are named by their position in
    their table, events by their position in the log they were published to. */
module Banking {
  import opened Options

  type AccountId = nat
  type TxnId = nat
  type EventId = nat

  datatype Kind = Deposit | Withdrawal | Transfer

  /** What a transaction row fixes for good: its type, amount and accounts. */
  datatype Order = Order(kind: Kind, amount: int, source: Option<AccountId>, target: Option<AccountId>)

  datatype Status = Pending | Completed | Rejected

  /** An idempotency key; a client is free to send the text the service uses for an initial deposit. */
  datatype Key = Text(text: string) | InitialDeposit(account: AccountId)

  datatype Payload =
    | AccountCreated(account: AccountId, initialBalance: int)
    | TransactionRequested(txn: TxnId, order: Order)
    | TransactionCompleted(txn: TxnId, order: Order)
    | TransactionRejected(txn: TxnId, order: Order)
    | BalanceUpdated(account: AccountId, previousBalance: int, newBalance: int, txn: TxnId)

  predicate IsOutcome(p: Payload) { p.TransactionCompleted? || p.TransactionRejected? }

  /** The status an outcome stands for. */
  function StatusOf(p: Payload): Status
    requires IsOutcome(p)
  {
    if p.TransactionCompleted? then Completed else Rejected
  }

  /** An outbox row. `cause` is a history variable: the event whose handling committed the row. */
  datatype OutboxRow = OutboxRow(payload: Payload, cause: Option<EventId>)
}
