/** The transaction service's tables, and `requestTransaction`. Creating a row and changing its
    status commit on their own; an outbox row and a processed mark commit together. */
module Transactions {
  import opened Options
  import opened Banking

  /** `creator` is a history variable: the call that inserted the row. */
  datatype Transaction = Transaction(order: Order, key: Key, status: Status, creator: nat)

  /** History: one write to the projection table, and the customer outbox row it came from. */
  datatype Write = Write(account: AccountId, value: int, row: nat)

  datatype TxnDb = TxnDb(
    txns: seq<Transaction>,
    outbox: seq<OutboxRow>,
    processed: set<EventId>,
    projections: map<AccountId, int>,
    writes: seq<Write>)

  const NO_TRANSACTIONS := TxnDb([], [], {}, map[], [])

  predicate KeyTaken(txns: seq<Transaction>, key: Key) {
    exists x :: 0 <= x < |txns| && txns[x].key == key
  }

  // ---------------------------------------------------------------- single database calls

  /** INSERT under UNIQUE(idempotency_key) and CHECK (amount > 0). */
  predicate CanCreate(t: TxnDb, order: Order, key: Key) { order.amount > 0 && !KeyTaken(t.txns, key) }

  function Create(t: TxnDb, order: Order, key: Key, creator: nat): TxnDb {
    t.(txns := t.txns + [Transaction(order, key, Pending, creator)])
  }

  /** An update of a row that is not there changes nothing. */
  function SetStatus(t: TxnDb, txn: TxnId, status: Status): TxnDb {
    if txn < |t.txns| then t.(txns := t.txns[txn := t.txns[txn].(status := status)]) else t
  }

  /** The outbox row of a new transaction, committed. */
  function Announce(t: TxnDb, txn: TxnId, order: Order): TxnDb {
    t.(outbox := t.outbox + [OutboxRow(TransactionRequested(txn, order), None)])
  }

  /** An outcome row and the processed mark, committed together. */
  function Conclude(t: TxnDb, e: EventId, outcome: Payload): TxnDb {
    t.(outbox := t.outbox + [OutboxRow(outcome, Some(e))], processed := t.processed + {e})
  }

  function Upsert(t: TxnDb, account: AccountId, value: int, row: nat): TxnDb {
    t.(projections := t.projections[account := value], writes := t.writes + [Write(account, value, row)])
  }

  function Mark(t: TxnDb, e: EventId): TxnDb { t.(processed := t.processed + {e}) }

  // ---------------------------------------------------------------- requestTransaction

  predicate ValidInput(order: Order) {
    match order.kind
    case Deposit => order.target.Some?
    case Withdrawal => order.source.Some?
    case Transfer => order.source.Some? && order.target.Some? && order.source != order.target
  }

  datatype RequestResult = Accepted(txn: TxnId) | Invalid | Duplicate | AccountMissing | Broken

  /** How the outside world treats the calls of one request. */
  datatype RequestFaults = RequestFaults(find: Outcome, accountsFound: bool, create: Outcome, commit: Outcome)

  /** Creating the row and announcing it: the part a request shares with an initial deposit. */
  function CreateAndAnnounce(t: TxnDb, order: Order, key: Key, creator: nat, create: Outcome, commit: Outcome)
    : (TxnDb, bool)
  {
    if create == Failed || !CanCreate(t, order, key) then (t, true)
    else
      var created := Create(t, order, key, creator);
      if create == FailedAfter || commit != Done then (created, true)
      else (Announce(created, |t.txns|, order), false)
  }

  function Request(t: TxnDb, order: Order, key: Key, creator: nat, faults: RequestFaults): (TxnDb, RequestResult) {
    if !ValidInput(order) then (t, Invalid)
    else if faults.find != Done then (t, Broken)
    else if KeyTaken(t.txns, key) then (t, Duplicate)
    else if !faults.accountsFound then (t, AccountMissing)
    else
      var (t', threw) := CreateAndAnnounce(t, order, key, creator, faults.create, faults.commit);
      (t', if threw then Broken else Accepted(|t.txns|))
  }

  /** Which answer a request gets, and what it leaves. An accepted one leaves one new pending row under
      its key and one row announcing it; one that fails while creating or announcing may leave the row,
      unannounced; one that is invalid, a repetition, or names a missing account leaves nothing. */
  lemma RequestMeans(t: TxnDb, order: Order, key: Key, creator: nat, faults: RequestFaults)
    ensures var (t', r) := Request(t, order, key, creator, faults);
      var looked := ValidInput(order) && faults.find == Done;
      var tried := looked && !KeyTaken(t.txns, key) && faults.accountsFound;
      var creates := tried && order.amount > 0 && faults.create != Failed;
      && (r.Accepted? <==> creates && faults.create == faults.commit == Done)
      && (r.Invalid? <==> !ValidInput(order))
      && (r.Duplicate? <==> looked && KeyTaken(t.txns, key))
      && (r.AccountMissing? <==> looked && !KeyTaken(t.txns, key) && !faults.accountsFound)
      && (r.Broken? <==>
            || (ValidInput(order) && faults.find != Done)
            || (tried && (order.amount <= 0 || faults.create != Done || faults.commit != Done)))
      && t'.txns == t.txns + (if creates then [Transaction(order, key, Pending, creator)] else [])
      && t'.outbox == t.outbox
           + (if r.Accepted? then [OutboxRow(TransactionRequested(|t.txns|, order), None)] else [])
      && t'.processed == t.processed && t'.projections == t.projections && t'.writes == t.writes
      && (r.Accepted? ==> r.txn == |t.txns|)
      && (creates ==> KeyTaken(t'.txns, key))
  {
    var row := Transaction(order, key, Pending, creator);
    assert (t.txns + [row])[|t.txns|].key == key;
  }

  // ---------------------------------------------------------------- the tables as one object

  class TransactionTables {
    var txns: seq<Transaction>
    var outbox: seq<OutboxRow>
    var processed: set<EventId>
    var projections: map<AccountId, int>
    ghost var writes: seq<Write>

    ghost function Value(): TxnDb reads this { TxnDb(txns, outbox, processed, projections, writes) }

    constructor ()
      ensures Value() == NO_TRANSACTIONS
    {
      txns, outbox, processed, projections, writes := [], [], {}, map[], [];
    }

    method FindByIdempotencyKey(key: Key) returns (found: bool)
      ensures found <==> KeyTaken(txns, key)
    {
      found := false;
      for i := 0 to |txns|
        invariant found <==> KeyTaken(txns[..i], key)
      {
        if txns[i].key == key {
          assert txns[..i + 1][i].key == key;
          found := true;
        } else {
          assert forall x | 0 <= x < i :: txns[..i + 1][x] == txns[..i][x];
        }
      }
      assert txns[..|txns|] == txns;
    }

    method CreateTransaction(order: Order, key: Key, creator: nat, outcome: Outcome) returns (txn: Option<TxnId>)
      modifies this`txns
      ensures var before := old(Value());
        Value() == if outcome == Failed || !CanCreate(before, order, key) then before
                   else Create(before, order, key, creator)
      ensures txn == if outcome == Done && CanCreate(old(Value()), order, key) then Some(|old(txns)|) else None
    {
      var taken := FindByIdempotencyKey(key);
      if outcome == Failed || taken || order.amount <= 0 {
        return None;
      }
      txn := if outcome == Done then Some(|txns|) else None;
      txns := txns + [Transaction(order, key, Pending, creator)];
    }

    /** The updated row, if one matched; and whether the caller got an error. */
    method UpdateStatus(txn: TxnId, status: Status, outcome: Outcome) returns (row: Option<Transaction>, threw: bool)
      modifies this`txns
      ensures Value() == if outcome == Failed then old(Value()) else SetStatus(old(Value()), txn, status)
      ensures threw <==> outcome != Done
      ensures row == if outcome != Failed && txn < |txns| then Some(txns[txn]) else None
    {
      threw := outcome != Done;
      row := None;
      if outcome != Failed && txn < |txns| {
        txns := txns[txn := txns[txn].(status := status)];
        row := Some(txns[txn]);
      }
    }

    method UpsertProjection(account: AccountId, value: int, ghost row: nat, outcome: Outcome) returns (threw: bool)
      modifies this`projections, this`writes
      ensures Value() == if outcome == Failed then old(Value()) else Upsert(old(Value()), account, value, row)
      ensures threw <==> outcome != Done
    {
      if outcome != Failed {
        projections := projections[account := value];
        writes := writes + [Write(account, value, row)];
      }
      threw := outcome != Done;
    }

    method MarkProcessed(e: EventId, outcome: Outcome) returns (threw: bool)
      modifies this`processed
      ensures Value() == if outcome == Failed then old(Value()) else Mark(old(Value()), e)
      ensures threw <==> outcome != Done
    {
      if outcome != Failed {
        processed := processed + {e};
      }
      threw := outcome != Done;
    }
  }

  class TransactionService {
    const tables: TransactionTables

    constructor (tables: TransactionTables)
      ensures this.tables == tables
    {
      this.tables := tables;
    }

    /** `creator` names this call; it is not part of what the caller sends. */
    method RequestTransaction(order: Order, key: Key, creator: nat, faults: RequestFaults) returns (r: RequestResult)
      modifies tables
      ensures (tables.Value(), r) == Request(old(tables.Value()), order, key, creator, faults)
    {
      if (order.kind == Deposit && order.target.None?) || (order.kind == Withdrawal && order.source.None?)
         || (order.kind == Transfer && (order.source.None? || order.target.None? || order.source == order.target)) {
        return Invalid;
      }
      if faults.find != Done {
        return Broken;
      }
      var existing := tables.FindByIdempotencyKey(key);
      if existing {
        return Duplicate;
      }
      if !faults.accountsFound {
        return AccountMissing;
      }
      var txn := tables.CreateTransaction(order, key, creator, faults.create);
      if txn.None? || faults.commit != Done {
        return Broken;
      }
      tables.outbox := tables.outbox + [OutboxRow(TransactionRequested(txn.value, order), None)];
      r := Accepted(txn.value);
    }
  }
}
