/** The customer service: the accounts table with its guarded update, and the subscriber that
    applies completed transactions in one database transaction. */
module Ledger {
  import opened Options
  import opened Banking

  datatype Account = Account(balance: int, active: bool)

  /** History: a completed transaction whose balances were changed, and the event that did it. */
  datatype Effect = Effect(event: EventId, txn: TxnId, order: Order)

  datatype CustomerDb = CustomerDb(
    accounts: seq<Account>,
    outbox: seq<OutboxRow>,
    processed: set<EventId>,
    effects: seq<Effect>)

  const NO_ACCOUNTS := CustomerDb([], [], {}, [])

  datatype Operation = Credit | Debit

  function Signed(amount: int, op: Operation): int { if op == Credit then amount else -amount }

  /** `UPDATE accounts ... WHERE id AND active [AND balance >= amount]`: the new table, no row
      matched, or the column's CHECK (balance >= 0) refused. */
  datatype Update = Updated(accounts: seq<Account>) | NoRow | CheckFailed

  function UpdateBalance(accounts: seq<Account>, id: AccountId, amount: int, op: Operation): Update {
    if id >= |accounts| || !accounts[id].active || (op == Debit && accounts[id].balance < amount) then NoRow
    else if accounts[id].balance + Signed(amount, op) < 0 then CheckFailed
    else Updated(accounts[id := accounts[id].(balance := accounts[id].balance + Signed(amount, op))])
  }

  /** The `BalanceUpdated` row written for a balance that has just been changed. */
  function UpdateRow(accounts: seq<Account>, id: AccountId, amount: int, op: Operation, txn: TxnId, e: EventId)
    : OutboxRow
    requires id < |accounts|
  {
    var now := accounts[id].balance;
    OutboxRow(BalanceUpdated(id, now - Signed(amount, op), now, txn), Some(e))
  }

  function Mark(c: CustomerDb, e: EventId): CustomerDb { c.(processed := c.processed + {e}) }

  /** A committed change: the new balances, their rows, the mark. */
  function Commit(c: CustomerDb, e: EventId, txn: TxnId, order: Order, accounts: seq<Account>, rows: seq<OutboxRow>)
    : CustomerDb
  {
    CustomerDb(accounts, c.outbox + rows, c.processed + {e}, c.effects + [Effect(e, txn, order)])
  }

  /** A deposit or a withdrawal; one that matches no row falls through to the bare mark. */
  function ApplyOne(c: CustomerDb, e: EventId, txn: TxnId, order: Order, id: AccountId, op: Operation)
    : (CustomerDb, bool)
  {
    match UpdateBalance(c.accounts, id, order.amount, op)
    case NoRow => (Mark(c, e), false)
    case CheckFailed => (c, true)
    case Updated(accounts) =>
      (Commit(c, e, txn, order, accounts, [UpdateRow(accounts, id, order.amount, op, txn, e)]), false)
  }

  /** A transfer: both sides or nothing. */
  function ApplyTransfer(c: CustomerDb, e: EventId, txn: TxnId, order: Order, source: AccountId, target: AccountId)
    : (CustomerDb, bool)
  {
    match UpdateBalance(c.accounts, source, order.amount, Debit)
    case NoRow => (c, true)
    case CheckFailed => (c, true)
    case Updated(debited) =>
      match UpdateBalance(debited, target, order.amount, Credit)
      case NoRow => (c, true)
      case CheckFailed => (c, true)
      case Updated(credited) =>
        (Commit(c, e, txn, order, credited,
                [UpdateRow(debited, source, order.amount, Debit, txn, e),
                 UpdateRow(credited, target, order.amount, Credit, txn, e)]), false)
  }

  /** The whole handler of one delivery: the new tables and whether it threw. */
  function Apply(c: CustomerDb, e: EventId, txn: TxnId, order: Order, outcome: Outcome): (CustomerDb, bool) {
    if e in c.processed then (c, false)
    else if outcome != Done then (c, true)
    else match order
      case Order(Deposit, _, _, Some(target)) => ApplyOne(c, e, txn, order, target, Credit)
      case Order(Withdrawal, _, Some(source), _) => ApplyOne(c, e, txn, order, source, Debit)
      case Order(Transfer, _, Some(source), Some(target)) => ApplyTransfer(c, e, txn, order, source, target)
      case _ => (Mark(c, e), false)
  }

  // ---------------------------------------------------------------- opening an account

  /** The account row, which commits on its own. */
  function OpenRow(c: CustomerDb): CustomerDb { c.(accounts := c.accounts + [Account(0, true)]) }

  /** Its `AccountCreated` row, committed after it. */
  function AnnounceOpening(c: CustomerDb, id: AccountId, initialBalance: int): CustomerDb {
    c.(outbox := c.outbox + [OutboxRow(AccountCreated(id, initialBalance), None)])
  }

  datatype OpenResult = Opened(account: AccountId) | ClientMissing | NotOpened

  /** How the calls of one `createAccount` end, and whether the client is there. */
  datatype OpenFaults = OpenFaults(find: Outcome, clientFound: bool, create: Outcome, commit: Outcome)

  /** An error may leave an account nobody hears of. */
  function CreateAccount(c: CustomerDb, initialBalance: int, faults: OpenFaults): (CustomerDb, OpenResult) {
    if faults.find != Done then (c, NotOpened)
    else if !faults.clientFound then (c, ClientMissing)
    else if faults.create == Failed then (c, NotOpened)
    else if faults.create == FailedAfter || faults.commit != Done then (OpenRow(c), NotOpened)
    else (AnnounceOpening(OpenRow(c), |c.accounts|, initialBalance), Opened(|c.accounts|))
  }

  // ---------------------------------------------------------------- what the ledger keeps

  function Total(accounts: seq<Account>): int {
    if accounts == [] then 0 else Total(accounts[..|accounts| - 1]) + accounts[|accounts| - 1].balance
  }

  /** What an applied order brings into the bank as a whole. */
  function Flow(order: Order): int {
    match order.kind
    case Deposit => order.amount
    case Withdrawal => -order.amount
    case Transfer => 0
  }

  function NetFlow(effects: seq<Effect>): int {
    if effects == [] then 0 else NetFlow(effects[..|effects| - 1]) + Flow(effects[|effects| - 1].order)
  }

  function BalanceIn(accounts: seq<Account>, a: AccountId): int {
    if a < |accounts| then accounts[a].balance else 0
  }

  /** The balance that the committed `BalanceUpdated` rows leave an account with. */
  function LastBalance(rows: seq<OutboxRow>, a: AccountId): int {
    if rows == [] then 0
    else
      var p := rows[|rows| - 1].payload;
      if p.BalanceUpdated? && p.account == a then p.newBalance else LastBalance(rows[..|rows| - 1], a)
  }

  predicate IsAccountRow(p: Payload) { p.AccountCreated? || p.BalanceUpdated? }

  /** The rows of this outbox; each `BalanceUpdated` starts from what the rows before it left. */
  predicate Chained(rows: seq<OutboxRow>) {
    rows == [] ||
    var before, p := rows[..|rows| - 1], rows[|rows| - 1].payload;
    Chained(before) && IsAccountRow(p) && (p.BalanceUpdated? ==> p.previousBalance == LastBalance(before, p.account))
  }

  /** Every effect's event is marked, and no event has two effects. */
  predicate AppliedOnce(effects: seq<Effect>, processed: set<EventId>) {
    effects == [] ||
    var n := |effects| - 1;
    && AppliedOnce(effects[..n], processed) && effects[n].event in processed
    && forall i | 0 <= i < n :: effects[i].event != effects[n].event
  }

  predicate NonNegative(accounts: seq<Account>) { forall a | 0 <= a < |accounts| :: accounts[a].balance >= 0 }

  ghost predicate BalancesMatch(accounts: seq<Account>, rows: seq<OutboxRow>) {
    forall a: AccountId :: LastBalance(rows, a) == BalanceIn(accounts, a)
  }

  ghost predicate LedgerOk(c: CustomerDb) {
    && NonNegative(c.accounts)
    && Total(c.accounts) == NetFlow(c.effects)
    && Chained(c.outbox) && BalancesMatch(c.accounts, c.outbox)
    && AppliedOnce(c.effects, c.processed)
  }

  lemma {:induction false} TotalUpdate(accounts: seq<Account>, id: AccountId, a: Account)
    requires id < |accounts|
    ensures Total(accounts[id := a]) == Total(accounts) - accounts[id].balance + a.balance
  {
    var n := |accounts| - 1;
    if id == n {
      assert accounts[id := a][..n] == accounts[..n];
    } else {
      TotalUpdate(accounts[..n], id, a);
      assert accounts[id := a][..n] == accounts[..n][id := a];
    }
  }

  /** One balance change with its row. */
  lemma EntryKeeps(accounts: seq<Account>, rows: seq<OutboxRow>, id: AccountId, amount: int, op: Operation,
                   txn: TxnId, e: EventId)
    requires UpdateBalance(accounts, id, amount, op).Updated?
    requires NonNegative(accounts) && Chained(rows) && BalancesMatch(accounts, rows)
    ensures var accounts' := UpdateBalance(accounts, id, amount, op).accounts;
      var rows' := rows + [UpdateRow(accounts', id, amount, op, txn, e)];
      && NonNegative(accounts') && Chained(rows') && BalancesMatch(accounts', rows')
      && Total(accounts') == Total(accounts) + Signed(amount, op)
  {
    var accounts' := UpdateBalance(accounts, id, amount, op).accounts;
    var row := UpdateRow(accounts', id, amount, op, txn, e);
    TotalUpdate(accounts, id, accounts'[id]);
    assert (rows + [row])[..|rows|] == rows;
    assert LastBalance(rows, id) == BalanceIn(accounts, id);
    forall a: AccountId ensures LastBalance(rows + [row], a) == BalanceIn(accounts', a) {
      assert LastBalance(rows, a) == BalanceIn(accounts, a);
    }
  }

  lemma MarkKeeps(c: CustomerDb, e: EventId)
    requires LedgerOk(c)
    ensures LedgerOk(Mark(c, e))
  {
    MarkedMore(c.effects, c.processed, e);
  }

  lemma {:induction false} MarkedMore(effects: seq<Effect>, processed: set<EventId>, e: EventId)
    requires AppliedOnce(effects, processed)
    ensures AppliedOnce(effects, processed + {e})
  {
    if effects != [] { MarkedMore(effects[..|effects| - 1], processed, e); }
  }

  lemma {:induction false} EffectMarked(effects: seq<Effect>, processed: set<EventId>, i: nat)
    requires AppliedOnce(effects, processed) && i < |effects|
    ensures effects[i].event in processed
  {
    if i < |effects| - 1 { EffectMarked(effects[..|effects| - 1], processed, i); }
  }

  lemma {:induction false} EffectsDiffer(effects: seq<Effect>, processed: set<EventId>, i: nat, j: nat)
    requires AppliedOnce(effects, processed) && i < j < |effects|
    ensures effects[i].event != effects[j].event
  {
    if j < |effects| - 1 { EffectsDiffer(effects[..|effects| - 1], processed, i, j); }
  }

  lemma EffectAdded(effects: seq<Effect>, processed: set<EventId>, f: Effect)
    requires AppliedOnce(effects, processed) && f.event !in processed
    ensures AppliedOnce(effects + [f], processed + {f.event})
    ensures NetFlow(effects + [f]) == NetFlow(effects) + Flow(f.order)
  {
    MarkedMore(effects, processed, f.event);
    assert (effects + [f])[..|effects|] == effects;
    forall i | 0 <= i < |effects| ensures effects[i].event != f.event {
      EffectMarked(effects, processed, i);
    }
  }

  lemma ApplyOneKeeps(c: CustomerDb, e: EventId, txn: TxnId, order: Order, id: AccountId, op: Operation)
    requires LedgerOk(c) && e !in c.processed && Flow(order) == Signed(order.amount, op)
    ensures LedgerOk(ApplyOne(c, e, txn, order, id, op).0)
  {
    MarkKeeps(c, e);
    EffectAdded(c.effects, c.processed, Effect(e, txn, order));
    if UpdateBalance(c.accounts, id, order.amount, op).Updated? {
      EntryKeeps(c.accounts, c.outbox, id, order.amount, op, txn, e);
    }
  }

  lemma ApplyTransferKeeps(c: CustomerDb, e: EventId, txn: TxnId, order: Order, source: AccountId, target: AccountId)
    requires LedgerOk(c) && e !in c.processed && order.kind == Transfer
    ensures LedgerOk(ApplyTransfer(c, e, txn, order, source, target).0)
  {
    EffectAdded(c.effects, c.processed, Effect(e, txn, order));
    if UpdateBalance(c.accounts, source, order.amount, Debit).Updated? {
      var debited := UpdateBalance(c.accounts, source, order.amount, Debit).accounts;
      var row := UpdateRow(debited, source, order.amount, Debit, txn, e);
      EntryKeeps(c.accounts, c.outbox, source, order.amount, Debit, txn, e);
      if UpdateBalance(debited, target, order.amount, Credit).Updated? {
        var credited := UpdateBalance(debited, target, order.amount, Credit).accounts;
        EntryKeeps(debited, c.outbox + [row], target, order.amount, Credit, txn, e);
        assert c.outbox + [row] + [UpdateRow(credited, target, order.amount, Credit, txn, e)]
            == c.outbox + [row, UpdateRow(credited, target, order.amount, Credit, txn, e)];
      }
    }
  }

  /** Whatever is delivered, however often, and wherever it fails. */
  lemma ApplyKeeps(c: CustomerDb, e: EventId, txn: TxnId, order: Order, outcome: Outcome)
    requires LedgerOk(c)
    ensures LedgerOk(Apply(c, e, txn, order, outcome).0)
  {
    if e !in c.processed && outcome == Done {
      match order
      case Order(Deposit, _, _, Some(target)) => ApplyOneKeeps(c, e, txn, order, target, Credit);
      case Order(Withdrawal, _, Some(source), _) => ApplyOneKeeps(c, e, txn, order, source, Debit);
      case Order(Transfer, _, Some(source), Some(target)) => ApplyTransferKeeps(c, e, txn, order, source, target);
      case _ => MarkKeeps(c, e);
    }
  }

  /** A new account starts empty. */
  lemma OpenKeeps(c: CustomerDb)
    requires LedgerOk(c)
    ensures LedgerOk(OpenRow(c))
  {
    var accounts' := OpenRow(c).accounts;
    assert accounts'[..|c.accounts|] == c.accounts;
    forall a: AccountId ensures LastBalance(c.outbox, a) == BalanceIn(accounts', a) {
      assert LastBalance(c.outbox, a) == BalanceIn(c.accounts, a);
    }
  }

  lemma AnnounceKeeps(c: CustomerDb, id: AccountId, initialBalance: int)
    requires LedgerOk(c)
    ensures LedgerOk(AnnounceOpening(c, id, initialBalance))
  {
    var rows' := AnnounceOpening(c, id, initialBalance).outbox;
    assert rows'[..|c.outbox|] == c.outbox;
    forall a: AccountId ensures LastBalance(rows', a) == BalanceIn(c.accounts, a) {
      assert LastBalance(c.outbox, a) == BalanceIn(c.accounts, a);
    }
  }

  /** When an account is opened, and when the client is missing. An opened account is empty and active
      whatever it asks for, and is announced exactly if the caller is told its id; an error may leave
      it unannounced; nothing else changes. */
  lemma CreateAccountMeans(c: CustomerDb, initialBalance: int, faults: OpenFaults)
    ensures var (c', r) := CreateAccount(c, initialBalance, faults);
      && Total(c'.accounts) == Total(c.accounts)
      && (c' == c || c'.accounts == c.accounts + [Account(0, true)])
      && c'.processed == c.processed && c'.effects == c.effects
      && (r.Opened? <==> faults.clientFound && faults.find == faults.create == faults.commit == Done)
      && (r.ClientMissing? <==> faults.find == Done && !faults.clientFound)
      && (c' != c <==> faults.find == Done && faults.clientFound && faults.create != Failed)
      && (!r.Opened? ==> c'.outbox == c.outbox)
      && (r.Opened? ==>
            && r.account == |c.accounts|
            && c'.outbox == c.outbox + [OutboxRow(AccountCreated(r.account, initialBalance), None)])
  {
    assert OpenRow(c).accounts[..|c.accounts|] == c.accounts && |OpenRow(c).accounts| != |c.accounts|;
  }

  lemma ActiveKeeps(c: CustomerDb, id: AccountId, active: bool)
    requires LedgerOk(c) && id < |c.accounts|
    ensures LedgerOk(c.(accounts := c.accounts[id := c.accounts[id].(active := active)]))
  {
    var accounts' := c.accounts[id := c.accounts[id].(active := active)];
    TotalUpdate(c.accounts, id, accounts'[id]);
    forall a: AccountId ensures LastBalance(c.outbox, a) == BalanceIn(accounts', a) {
      assert LastBalance(c.outbox, a) == BalanceIn(c.accounts, a);
    }
  }

  lemma {:induction false} ChainedAt(rows: seq<OutboxRow>, k: nat)
    requires Chained(rows) && k < |rows|
    ensures IsAccountRow(rows[k].payload)
    ensures var p := rows[k].payload; p.BalanceUpdated? ==> p.previousBalance == LastBalance(rows[..k], p.account)
  {
    var n := |rows| - 1;
    if k < n {
      ChainedAt(rows[..n], k);
      assert rows[..n][..k] == rows[..k];
    }
  }

  /** What one delivery does: nothing, the bare mark, or one effect with exactly its order's
      balance changes; one of a marked event does nothing, and a failed one throws and does nothing. */
  lemma ApplyMeans(c: CustomerDb, e: EventId, txn: TxnId, order: Order, outcome: Outcome)
    ensures var (c', threw) := Apply(c, e, txn, order, outcome);
      && (threw || e in c.processed ==> c' == c)
      && (!threw ==> e in c'.processed)
      && (e in c.processed ==> !threw) && (e !in c.processed && outcome != Done ==> threw)
      && |c'.accounts| == |c.accounts| && c.outbox <= c'.outbox && c.effects <= c'.effects
      && c'.processed <= c.processed + {e}
      && (c'.accounts != c.accounts ==> c'.effects == c.effects + [Effect(e, txn, order)])
      && (c'.effects != c.effects ==>
            && c'.effects == c.effects + [Effect(e, txn, order)] && e !in c.processed
            && forall a: AccountId :: BalanceIn(c'.accounts, a) == BalanceIn(c.accounts, a)
                 + (if order.kind != Withdrawal && order.target == Some(a) then order.amount else 0)
                 - (if order.kind != Deposit && order.source == Some(a) then order.amount else 0))
  {
    assert c.effects + [Effect(e, txn, order)] != c.effects by {
      assert |c.effects + [Effect(e, txn, order)]| != |c.effects|;
    }
  }

  // ---------------------------------------------------------------- the service

  class LedgerService {
    var accounts: seq<Account>
    var outbox: seq<OutboxRow>
    var processed: set<EventId>
    ghost var effects: seq<Effect>

    ghost function Tables(): CustomerDb reads this { CustomerDb(accounts, outbox, processed, effects) }

    constructor ()
      ensures Tables() == NO_ACCOUNTS
    {
      accounts, outbox, processed, effects := [], [], {}, [];
    }

    method OpenAccount(initialBalance: int, faults: OpenFaults) returns (r: OpenResult)
      modifies this`accounts, this`outbox
      ensures (Tables(), r) == CreateAccount(old(Tables()), initialBalance, faults)
    {
      if faults.find != Done {
        return NotOpened;
      }
      if !faults.clientFound {
        return ClientMissing;
      }
      if faults.create == Failed {
        return NotOpened;
      }
      var account := |accounts|;
      accounts := accounts + [Account(0, true)];
      if faults.create == FailedAfter || faults.commit != Done {
        return NotOpened;
      }
      outbox := outbox + [OutboxRow(AccountCreated(account, initialBalance), None)];
      r := Opened(account);
    }

    /** One guarded UPDATE: the row it returns if one matched. */
    method Update(id: AccountId, amount: int, op: Operation) returns (updated: Option<Account>, threw: bool)
      modifies this`accounts
      ensures match UpdateBalance(old(accounts), id, amount, op)
        case Updated(accounts') => accounts == accounts' && !threw && id < |accounts| && updated == Some(accounts[id])
        case NoRow => accounts == old(accounts) && !threw && updated == None
        case CheckFailed => accounts == old(accounts) && threw
    {
      updated, threw := None, false;
      if id < |accounts| && accounts[id].active && (op == Credit || accounts[id].balance >= amount) {
        var balance := accounts[id].balance + (if op == Credit then amount else -amount);
        if balance < 0 {
          threw := true;
          return;
        }
        accounts := accounts[id := accounts[id].(balance := balance)];
        updated := Some(accounts[id]);
      }
    }

    /** One delivery. The body works on the tables in place; ROLLBACK puts them back. */
    method HandleCompleted(e: EventId, txn: TxnId, order: Order, outcome: Outcome) returns (threw: bool)
      modifies this
      ensures (Tables(), threw) == Apply(old(Tables()), e, txn, order, outcome)
    {
      if e in processed {
        return false;
      }
      if outcome != Done {
        return true;
      }
      var savedAccounts, savedOutbox := accounts, outbox;
      var amount := order.amount;
      if order.kind == Deposit && order.target.Some? {
        var target := order.target.value;
        var updated, failed := Update(target, amount, Credit);
        if failed {
          return true;
        }
        if updated.Some? {
          var balance := updated.value.balance;
          outbox := outbox + [OutboxRow(BalanceUpdated(target, balance - amount, balance, txn), Some(e))];
          processed := processed + {e};
          effects := effects + [Effect(e, txn, order)];
          return false;
        }
      }
      if order.kind == Withdrawal && order.source.Some? {
        var source := order.source.value;
        var updated, failed := Update(source, amount, Debit);
        if failed {
          return true;
        }
        if updated.Some? {
          var balance := updated.value.balance;
          outbox := outbox + [OutboxRow(BalanceUpdated(source, balance + amount, balance, txn), Some(e))];
          processed := processed + {e};
          effects := effects + [Effect(e, txn, order)];
          return false;
        }
      }
      if order.kind == Transfer && order.source.Some? && order.target.Some? {
        var source, target := order.source.value, order.target.value;
        var debited, failed := Update(source, amount, Debit);
        if failed || debited.None? {
          accounts := savedAccounts;
          return true;
        }
        var credited, failed' := Update(target, amount, Credit);
        if failed' || credited.None? {
          accounts := savedAccounts;
          return true;
        }
        var left, right := debited.value.balance, credited.value.balance;
        outbox := outbox + [OutboxRow(BalanceUpdated(source, left + amount, left, txn), Some(e))];
        outbox := outbox + [OutboxRow(BalanceUpdated(target, right - amount, right, txn), Some(e))];
        assert outbox == savedOutbox + [OutboxRow(BalanceUpdated(source, left + amount, left, txn), Some(e)),
                                        OutboxRow(BalanceUpdated(target, right - amount, right, txn), Some(e))];
        processed := processed + {e};
        effects := effects + [Effect(e, txn, order)];
        return false;
      }
      processed := processed + {e};
      threw := false;
    }
  }
}
