/** The safety of the money: what every run of the two services guarantees about balances. */
module MoneySafety {
  import opened Options
  import opened Banking
  import opened Ledger
  import opened Protocol
  import opened ProtocolKeeps
  import opened ProtocolTheorems

  // ---------------------------------------------------------------- outcomes are final

  /** Once an outcome row is committed, it is its transaction's only one in every later world, and
      the transaction's status is that outcome forever, as long as the transaction's own request row
      is not published twice. */
  lemma OutcomesAreFinal(steps: seq<Step>, more: seq<Step>, x: TxnId, k: nat)
    requires var rows := Run(START, steps).t.outbox; k < |rows| && IsOutcomeOf(rows[k].payload, x)
    requires Once(Run(START, steps + more).bus, RequestRow, x)
    ensures var row, t := Run(START, steps).t.outbox[k], Run(START, steps + more).t;
      && k < |t.outbox| && t.outbox[k] == row && x < |t.txns| && t.txns[x].status == StatusOf(row.payload)
      && forall j | 0 <= j < |t.outbox| && IsOutcomeOf(t.outbox[j].payload, x) :: j == k
  {
    var w := Run(START, steps + more);
    RunSplit(START, steps, more);
    OutboxesOnlyGrow(Run(START, steps), more);
    RunHolds(START, x, steps + more);
    OutcomeAt(w.t.outbox, w.t.txns, x, k);
    forall j | 0 <= j < |w.t.outbox| && IsOutcomeOf(w.t.outbox[j].payload, x) ensures j == k {
      OneOutcomeRow(w, x, j, k);
    }
  }

  // ---------------------------------------------------------------- every balance change has its transaction

  /** What the effects so far come to for one account. */
  function AccountFlow(effects: seq<Effect>, a: AccountId): int {
    if effects == [] then 0
    else
      var order := effects[|effects| - 1].order;
      AccountFlow(effects[..|effects| - 1], a)
      + (if order.kind != Withdrawal && order.target == Some(a) then order.amount else 0)
      - (if order.kind != Deposit && order.source == Some(a) then order.amount else 0)
  }

  /** A delivery moves a balance by what its effect says. */
  lemma ApplyFlow(c: CustomerDb, e: EventId, txn: TxnId, order: Order, outcome: Outcome, a: AccountId)
    requires BalanceIn(c.accounts, a) == AccountFlow(c.effects, a)
    ensures var c' := Apply(c, e, txn, order, outcome).0; BalanceIn(c'.accounts, a) == AccountFlow(c'.effects, a)
  {
    ApplyMeans(c, e, txn, order, outcome);
    assert (c.effects + [Effect(e, txn, order)])[..|c.effects|] == c.effects;
  }

  /** A balance is exactly what the recorded effects add up to; nothing else moves money. */
  lemma {:induction false} BalanceIsItsEffects(steps: seq<Step>, a: AccountId)
    ensures var c := Run(START, steps).c; BalanceIn(c.accounts, a) == AccountFlow(c.effects, a)
  {
    if steps != [] {
      var w, s := Run(START, steps[..|steps| - 1]), steps[|steps| - 1];
      BalanceIsItsEffects(steps[..|steps| - 1], a);
      if Enabled(w, s) && s.Complete? {
        ApplyFlow(w.c, s.e, w.bus[s.e].payload.txn, w.bus[s.e].payload.order, s.outcome, a);
      }
    }
  }

  /** Money is conserved: all balances together are the deposits less the withdrawals that took
      effect; no balance is negative; no event took effect twice. */
  lemma MoneyIsConserved(steps: seq<Step>)
    ensures var c := Run(START, steps).c;
      && Total(c.accounts) == NetFlow(c.effects)
      && (forall a | 0 <= a < |c.accounts| :: c.accounts[a].balance >= 0)
      && (forall i, j | 0 <= i < j < |c.effects| :: c.effects[i].event != c.effects[j].event)
  {
    var c := Run(START, steps).c;
    Reachable(steps);
    forall i, j | 0 <= i < j < |c.effects| ensures c.effects[i].event != c.effects[j].event {
      EffectsDiffer(c.effects, c.processed, i, j);
    }
  }

  /** The committed row an effect goes back to, with the terms of its transaction. */
  lemma EffectHasItsRow(w: World, i: nat) returns (k: nat)
    requires Inv(w) && i < |w.c.effects|
    ensures var f := w.c.effects[i];
      && f.event < |w.bus| && w.bus[f.event].row == k && w.bus[f.event].side == TxnSide
      && k < |w.t.outbox| && w.t.outbox[k].payload == TransactionCompleted(f.txn, f.order)
      && f.txn < |w.t.txns| && w.t.txns[f.txn].order == f.order
  {
    EffectAt(w.c.effects, w.bus, i);
    SideOf(w, w.c.effects[i].event);
    k := w.bus[w.c.effects[i].event].row;
    RowAt(w.t.outbox, w.t.txns, w.bus, w.announced, w.concluded, k);
  }

  /** Whatever changed balances is a transaction with the same type, amount and accounts. If its own
      request row was published at most once, its row says completed; if its completion row was not
      published twice either, it changed balances only this once. Publications of all other rows do
      not matter. */
  lemma OnlyCompletedOnce(steps: seq<Step>, i: nat)
    requires i < |Run(START, steps).c.effects|
    ensures var w := Run(START, steps);
      var f := w.c.effects[i];
      && f.txn < |w.t.txns| && w.t.txns[f.txn].order == f.order
      && (Once(w.bus, RequestRow, f.txn) ==> w.t.txns[f.txn].status == Completed)
      && (OnceFor(w.bus, f.txn) ==> forall j | 0 <= j < |w.c.effects| && w.c.effects[j].txn == f.txn :: j == i)
  {
    var w := Run(START, steps);
    var x := w.c.effects[i].txn;
    RunHolds(START, x, steps);
    var k := EffectHasItsRow(w, i);
    if Once(w.bus, RequestRow, x) { OutcomeAt(w.t.outbox, w.t.txns, x, k); }
    if OnceFor(w.bus, x) {
      forall j | 0 <= j < |w.c.effects| && w.c.effects[j].txn == x ensures j == i { OneEffect(w, i, j); }
    }
  }

  /** In particular a rejected or pending transaction has moved no money. */
  lemma OthersMoveNothing(steps: seq<Step>, x: TxnId, i: nat)
    requires var w := Run(START, steps);
      Once(w.bus, RequestRow, x) && x < |w.t.txns| && w.t.txns[x].status != Completed && i < |w.c.effects|
    ensures Run(START, steps).c.effects[i].txn != x
  {
    OnlyCompletedOnce(steps, i);
  }

  /** Two completion events of one transaction are one event, ... */
  lemma OneCompletionEvent(w: World, x: TxnId, e: EventId, f: EventId)
    requires Inv(w) && OnceFor(w.bus, x) && e < |w.bus| && f < |w.bus|
    requires IsAbout(w.bus[e].payload, CompletionRow, x) && IsAbout(w.bus[f].payload, CompletionRow, x)
    ensures e == f
  {
    SideOf(w, e);
    SideOf(w, f);
    OneOutcomeRow(w, x, w.bus[e].row, w.bus[f].row);
    if e < f { RowsDiffer(w.bus, CompletionRow, x, e, f); }
    if f < e { RowsDiffer(w.bus, CompletionRow, x, f, e); }
  }

  /** ... so two of its effects are one effect. */
  lemma OneEffect(w: World, i: nat, j: nat)
    requires Inv(w) && i < |w.c.effects| && j < |w.c.effects| && w.c.effects[i].txn == w.c.effects[j].txn
    requires OnceFor(w.bus, w.c.effects[i].txn)
    ensures i == j
  {
    EffectAt(w.c.effects, w.bus, i);
    EffectAt(w.c.effects, w.bus, j);
    OneCompletionEvent(w, w.c.effects[i].txn, w.c.effects[i].event, w.c.effects[j].event);
    if i < j { EffectsDiffer(w.c.effects, w.c.processed, i, j); }
    if j < i { EffectsDiffer(w.c.effects, w.c.processed, j, i); }
  }
}
