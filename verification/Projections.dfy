/** The projection subscribers of the transaction service: the local copy of account balances, and
    the initial deposit that a new account asks for. */
module Projections {
  import opened Options
  import opened Banking
  import opened Transactions

  /** How the calls of one delivery end. */
  datatype Faults = Faults(
    read: Outcome,
    upsert: Outcome,
    mark: Outcome,
    find: Outcome,
    create: Outcome,
    commit: Outcome)

  function InitialOrder(account: AccountId, amount: int): Order { Order(Deposit, amount, None, Some(account)) }

  /** An upsert, then the mark, each committing on its own; whether it got past both. */
  function WriteAndMark(t: TxnDb, e: EventId, account: AccountId, value: int, row: nat, faults: Faults): (TxnDb, bool) {
    if faults.upsert == Failed then (t, false)
    else
      var t1 := Upsert(t, account, value, row);
      if faults.upsert == FailedAfter || faults.mark == Failed then (t1, false)
      else (Mark(t1, e), faults.mark == Done)
  }

  function HandleAccountCreated(t: TxnDb, e: EventId, account: AccountId, initialBalance: int, row: nat,
                                creator: nat, faults: Faults): (TxnDb, bool)
  {
    if faults.read != Done then (t, true)
    else if e in t.processed then (t, false)
    else
      var (t', past) := WriteAndMark(t, e, account, 0, row, faults);
      if !past then (t', true)
      else if initialBalance <= 0 then (t', false)
      else if faults.find != Done then (t', true)
      else if KeyTaken(t'.txns, InitialDeposit(account)) then (t', false)
      else
        (CreateAndAnnounce(t', InitialOrder(account, initialBalance), InitialDeposit(account), creator,
                           faults.create, faults.commit).0, false)
  }

  function HandleBalanceUpdated(t: TxnDb, e: EventId, account: AccountId, newBalance: int, row: nat, faults: Faults)
    : (TxnDb, bool)
  {
    if faults.read != Done then (t, true)
    else if e in t.processed then (t, false)
    else
      var (t', past) := WriteAndMark(t, e, account, newBalance, row, faults);
      (t', !past)
  }

  /** Once a delivery has marked its event, later deliveries change nothing; so whether the account
      has its initial deposit row is settled by that one delivery. It is there exactly when its key
      was taken already or every call up to the insert went through; a fault between the mark and
      the insert loses the deposit for good. */
  lemma InitialDepositSettled(t: TxnDb, e: EventId, account: AccountId, initialBalance: int, row: nat,
                              creator: nat, faults: Faults, creator': nat, faults': Faults)
    requires e !in t.processed && initialBalance > 0
    requires e in HandleAccountCreated(t, e, account, initialBalance, row, creator, faults).0.processed
    ensures var t' := HandleAccountCreated(t, e, account, initialBalance, row, creator, faults).0;
      && HandleAccountCreated(t', e, account, initialBalance, row, creator', faults').0 == t'
      && (KeyTaken(t'.txns, InitialDeposit(account)) <==>
            KeyTaken(t.txns, InitialDeposit(account))
            || (faults.mark == Done && faults.find == Done && faults.create != Failed))
      && (t'.outbox != t.outbox <==>
            !KeyTaken(t.txns, InitialDeposit(account))
            && faults.mark == faults.find == faults.create == faults.commit == Done)
  {
    var order := InitialOrder(account, initialBalance);
    var created := Create(t, order, InitialDeposit(account), creator);
    assert created.txns[|t.txns|].key == InitialDeposit(account);
    assert Announce(created, |t.txns|, order).outbox != t.outbox by {
      assert |Announce(created, |t.txns|, order).outbox| != |t.outbox|;
    }
  }

  /** What a delivery of a new account leaves, whichever calls fail. The account is shown with nothing;
      if it asks for an initial balance, one pending deposit of exactly that amount to it is created
      under the account's own key, unless the key is taken, and announced with the same terms. A failure
      to create or announce the deposit is swallowed, a failure before that is not. */
  lemma CreatedMeans(t: TxnDb, e: EventId, account: AccountId, initialBalance: int, row: nat, creator: nat,
                     faults: Faults)
    ensures var (t', threw) := HandleAccountCreated(t, e, account, initialBalance, row, creator, faults);
      if faults.read != Done || e in t.processed then t' == t && (threw <==> faults.read != Done)
      else
        var order := Order(Deposit, initialBalance, None, Some(account));
        var marked := faults.upsert == Done && faults.mark != Failed;
        var asks := faults.upsert == faults.mark == Done && initialBalance > 0;
        var creates := asks && faults.find == Done && !KeyTaken(t.txns, InitialDeposit(account))
                       && faults.create != Failed;
        var announces := creates && faults.create == faults.commit == Done;
        && t'.projections == (if faults.upsert != Failed then t.projections[account := 0] else t.projections)
        && t'.writes == t.writes + (if faults.upsert != Failed then [Write(account, 0, row)] else [])
        && t'.processed == t.processed + (if marked then {e} else {})
        && t'.txns == t.txns
             + (if creates then [Transaction(order, InitialDeposit(account), Pending, creator)] else [])
        && t'.outbox == t.outbox
             + (if announces then [OutboxRow(TransactionRequested(|t.txns|, order), None)] else [])
        && (threw <==> faults.upsert != Done || faults.mark != Done || (asks && faults.find != Done))
  {
  }

  /** What a delivery of a new balance leaves, whichever calls fail. */
  lemma UpdatedMeans(t: TxnDb, e: EventId, account: AccountId, newBalance: int, row: nat, faults: Faults)
    ensures var (t', threw) := HandleBalanceUpdated(t, e, account, newBalance, row, faults);
      if faults.read != Done || e in t.processed then t' == t && (threw <==> faults.read != Done)
      else
        && t'.projections == (if faults.upsert != Failed then t.projections[account := newBalance] else t.projections)
        && t'.writes == t.writes + (if faults.upsert != Failed then [Write(account, newBalance, row)] else [])
        && t'.processed == t.processed + (if faults.upsert == Done && faults.mark != Failed then {e} else {})
        && t'.txns == t.txns && t'.outbox == t.outbox
        && (threw <==> faults.upsert != Done || faults.mark != Done)
  {
  }

  /** So a balance update may be delivered any number of times: until a delivery has marked its event,
      each one writes the same value to the same account; afterwards none writes anything. */
  lemma UpdateIsIdempotent(t: TxnDb, e: EventId, account: AccountId, newBalance: int, row: nat, faults: Faults,
                           again: Faults)
    requires e !in t.processed
    ensures var (t1, threw) := HandleBalanceUpdated(t, e, account, newBalance, row, faults);
      var t2 := HandleBalanceUpdated(t1, e, account, newBalance, row, again).0;
      && (!threw ==> e in t1.processed && t1.projections == t.projections[account := newBalance])
      && (t1.projections == t.projections || t1.projections == t.projections[account := newBalance])
      && (e in t1.processed ==> t1.projections == t.projections[account := newBalance] && t2 == t1)
      && (t1.projections == t.projections[account := newBalance] ==> t2.projections == t1.projections)
      && t2.txns == t.txns && t2.outbox == t.outbox && t2.processed <= t.processed + {e}
  {
    assert t.projections[account := newBalance][account := newBalance] == t.projections[account := newBalance];
  }

  class ProjectionService {
    const tables: TransactionTables

    constructor (tables: TransactionTables)
      ensures this.tables == tables
    {
      this.tables := tables;
    }

    method HandleCreated(e: EventId, account: AccountId, initialBalance: int, ghost row: nat, creator: nat,
                         faults: Faults)
      returns (threw: bool)
      modifies tables
      ensures (tables.Value(), threw)
           == HandleAccountCreated(old(tables.Value()), e, account, initialBalance, row, creator, faults)
    {
      if faults.read != Done {
        return true;
      }
      if e in tables.processed {
        return false;
      }
      threw := tables.UpsertProjection(account, 0, row, faults.upsert);
      if threw {
        return;
      }
      threw := tables.MarkProcessed(e, faults.mark);
      if threw {
        return;
      }
      if initialBalance > 0 {
        if faults.find != Done {
          return true;
        }
        var existing := tables.FindByIdempotencyKey(InitialDeposit(account));
        if !existing {
          var order := Order(Deposit, initialBalance, None, Some(account));
          var txn := tables.CreateTransaction(order, InitialDeposit(account), creator, faults.create);
          if txn.Some? && faults.commit == Done {
            tables.outbox := tables.outbox + [OutboxRow(TransactionRequested(txn.value, order), None)];
          }
        }
      }
    }

    method HandleUpdated(e: EventId, account: AccountId, newBalance: int, ghost row: nat, faults: Faults)
      returns (threw: bool)
      modifies tables
      ensures (tables.Value(), threw) == HandleBalanceUpdated(old(tables.Value()), e, account, newBalance, row, faults)
    {
      if faults.read != Done {
        return true;
      }
      if e in tables.processed {
        return false;
      }
      threw := tables.UpsertProjection(account, newBalance, row, faults.upsert);
      if threw {
        return;
      }
      threw := tables.MarkProcessed(e, faults.mark);
    }
  }
}
