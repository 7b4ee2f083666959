/** Completed and never applied: the saga judges by the projection, the ledger by the balance, so two
    withdrawals can both be completed against money that is there for one. */
module Overdrafts {
  import opened Options
  import opened Banking
  import opened Ledger
  import opened Transactions
  import opened Protocol
  import opened ProtocolKeeps
  import opened ProtocolTheorems
  import opened Deliveries
  import opened WholeTransactions

  function WithdrawalOf(account: AccountId, amount: int): Order { Order(Withdrawal, amount, Some(account), None) }

  /** A completed withdrawal that its ledger marked without effect. */
  ghost predicate Unapplied(w: World, x: TxnId, e: EventId, order: Order) {
    && x < |w.t.txns| && w.t.txns[x].status == Completed && w.t.txns[x].order == order && order.kind == Withdrawal
    && order.source.Some? && order.source.value < |w.c.accounts| && w.c.accounts[order.source.value].active
    && e < |w.bus| && w.bus[e].payload == TransactionCompleted(x, order) && OnceFor(w.bus, x)
    && e in w.c.processed && !HasEffect(w.c.effects, e)
  }

  /** In this later run, if no row of the transaction is published twice, it has no effect. */
  ghost predicate NoEffectAfter(steps: seq<Step>, more: seq<Step>, x: TxnId) {
    var w := Run(START, steps + more);
    OnceFor(w.bus, x) ==> forall i | 0 <= i < |w.c.effects| :: w.c.effects[i].txn != x
  }

  lemma UnappliedLater(steps: seq<Step>, more: seq<Step>, x: TxnId, e: EventId)
    requires var w := Run(START, steps);
      e < |w.bus| && IsAbout(w.bus[e].payload, CompletionRow, x) && e in w.c.processed && !HasEffect(w.c.effects, e)
    ensures NoEffectAfter(steps, more, x)
  {
    var w := Run(START, steps + more);
    if OnceFor(w.bus, x) {
      forall i | 0 <= i < |w.c.effects| ensures w.c.effects[i].txn != x { NeverApplied(steps, more, x, e, i); }
    }
  }

  lemma UnappliedForGood(steps: seq<Step>, x: TxnId, e: EventId, order: Order)
    requires Unapplied(Run(START, steps), x, e, order)
    ensures forall more: seq<Step> :: NoEffectAfter(steps, more, x)
  {
    forall more: seq<Step> ensures NoEffectAfter(steps, more, x) { UnappliedLater(steps, more, x, e); }
  }

  /** The effect of a withdrawal delivered to this ledger: it has one exactly if the balance holds it. */
  function FirstEffect(c: CustomerDb, e: EventId, txn: TxnId, order: Order): seq<Effect>
    requires order.source.Some? && order.source.value < |c.accounts|
  {
    if c.accounts[order.source.value].balance >= order.amount then [Effect(e, txn, order)] else []
  }

  /** Withdrawal `x` was completed too, and took effect exactly if the balance before held it. */
  ghost predicate AppliedIfHeld(w: World, w': World, x: TxnId, e: EventId, order: Order)
    requires order.source.Some? && order.source.value < |w.c.accounts|
  {
    && x < |w'.t.txns| && w'.t.txns[x].status == Completed && w'.t.txns[x].order == order
    && e < |w'.bus| && w'.bus[e].payload == TransactionCompleted(x, order)
    && w'.c.effects == w.c.effects + FirstEffect(w.c, e, x, order)
  }

  /** Whenever the projection of an active account shows an amount that its balance does not hold
      twice, two withdrawals of it under free keys are both completed; the first takes effect exactly
      if the balance held it, the second never does; with no fault and no row published twice. */
  lemma SecondWithdrawalUnapplied(before: seq<Step>, a: AccountId, amount: int, k1: Key, k2: Key)
    returns (steps: seq<Step>)
    requires var w := Run(START, before);
      && a < |w.c.accounts| && w.c.accounts[a].active && amount > 0 && w.c.accounts[a].balance < 2 * amount
      && a in w.t.projections && w.t.projections[a] >= amount
      && k1 != k2 && !KeyTaken(w.t.txns, k1) && !KeyTaken(w.t.txns, k2)
    ensures NoFaults(before) ==> NoFaults(steps)
    ensures NoRowTwice(Run(START, before).bus) ==> NoRowTwice(Run(START, steps).bus)
    ensures var w, w' := Run(START, before), Run(START, steps);
      && |w'.t.txns| == |w.t.txns| + 2
      && AppliedIfHeld(w, w', |w.t.txns|, |w.bus| + 1, WithdrawalOf(a, amount))
      && Unapplied(w', |w.t.txns| + 1, |w.bus| + 3, WithdrawalOf(a, amount))
  {
    var w := Run(START, before);
    var steps2, w1 := BothCompleted(before, WithdrawalOf(a, amount), k1, k2);
    Reachable(before);
    Reachable(steps2);
    steps := DeliveredRun(steps2, |w.bus| + 1, |w.bus| + 3);
    BothDelivered(w, w1, Run(START, steps2), WithdrawalOf(a, amount), k1, k2, Run(START, steps));
  }

  lemma DeliveredRun(before: seq<Step>, e1: EventId, e2: EventId) returns (steps: seq<Step>)
    ensures NoFaults(before) ==> NoFaults(steps)
    ensures Run(START, steps) == Next(Next(Run(START, before), Complete(e1, Done)), Complete(e2, Done))
  {
    var delivering := [Complete(e1, Done), Complete(e2, Done)];
    RunTwo(Run(START, before), Complete(e1, Done), Complete(e2, Done));
    RunSplit(START, before, delivering);
    steps := before + delivering;
    NoFaultsConcat(before, delivering);
  }

  /** Both withdrawals go through the saga, one after the other, before either is delivered. */
  lemma BothCompleted(before: seq<Step>, order: Order, k1: Key, k2: Key) returns (steps: seq<Step>, w1: World)
    requires order.kind == Withdrawal && order.source.Some? && order.amount > 0
    requires var t := Run(START, before).t;
      && order.source.value in t.projections && t.projections[order.source.value] >= order.amount
      && k1 != k2 && !KeyTaken(t.txns, k1) && !KeyTaken(t.txns, k2)
    ensures NoFaults(before) ==> NoFaults(steps)
    ensures NoRowTwice(Run(START, before).bus) ==> NoRowTwice(Run(START, steps).bus)
    ensures GoneThrough(Run(START, before), w1, order, k1) && GoneThrough(w1, Run(START, steps), order, k2)
    ensures OnceFor(Run(START, steps).bus, |Run(START, before).t.txns| + 1)
  {
    var steps1 := Completes(before, order, k1);
    w1 := Run(START, steps1);
    KeyStillFree(Run(START, before).t.txns, w1.t.txns, k2);
    steps := Completes(steps1, order, k2);
  }

  lemma KeyStillFree(txns: seq<Transaction>, txns': seq<Transaction>, key: Key)
    requires !KeyTaken(txns, key) && |txns'| == |txns| + 1 && txns < txns' && txns'[|txns|].key != key
    ensures !KeyTaken(txns', key)
  {
    forall y | 0 <= y < |txns'| ensures txns'[y].key != key {
      if y < |txns| { assert txns[y] == txns'[y]; }
    }
  }

  lemma BothDelivered(w: World, w1: World, w2: World, order: Order, k1: Key, k2: Key, w': World)
    requires GoneThrough(w, w1, order, k1) && GoneThrough(w1, w2, order, k2) && OnceFor(w2.bus, |w.t.txns| + 1)
    requires Inv(w2) && Below(w.c.processed, |w.bus|)
    requires order.kind == Withdrawal && order.source.Some? && order.amount > 0
    requires var a := order.source.value;
      a < |w.c.accounts| && w.c.accounts[a].active && w.c.accounts[a].balance < 2 * order.amount
    requires w' == Next(Next(w2, Complete(|w.bus| + 1, Done)), Complete(|w.bus| + 3, Done))
    ensures var x, e1, e2 := |w.t.txns|, |w.bus| + 1, |w.bus| + 3;
      && w'.bus == w2.bus && |w'.t.txns| == x + 2
      && AppliedIfHeld(w, w', x, e1, order) && Unapplied(w', x + 1, e2, order)
  {
    var x, e1, e2 := |w.t.txns|, |w.bus| + 1, |w.bus| + 3;
    assert w2.bus[e1] == w1.bus[e1];
    assert w2.t.txns[x] == w1.t.txns[x] == Transaction(order, k1, Completed, |w.calls|);
    assert w2.t.txns[x + 1] == Transaction(order, k2, Completed, |w1.calls|);
    TwoWithdrawals(w2, e1, e2, x, x + 1, order);
  }

  lemma TwoWithdrawals(w: World, e1: EventId, e2: EventId, x1: TxnId, x2: TxnId, order: Order)
    requires Inv(w) && e1 < |w.bus| && e2 < |w.bus| && e1 != e2 && e1 !in w.c.processed && e2 !in w.c.processed
    requires w.bus[e1].payload == TransactionCompleted(x1, order)
    requires w.bus[e2].payload == TransactionCompleted(x2, order)
    requires order.kind == Withdrawal && order.source.Some? && order.amount > 0
    requires var a := order.source.value;
      a < |w.c.accounts| && w.c.accounts[a].active && w.c.accounts[a].balance < 2 * order.amount
    ensures var w' := Next(Next(w, Complete(e1, Done)), Complete(e2, Done));
      && w'.t == w.t && w'.bus == w.bus && e2 in w'.c.processed && !HasEffect(w'.c.effects, e2)
      && w'.c.effects == w.c.effects + FirstEffect(w.c, e1, x1, order)
      && |w'.c.accounts| == |w.c.accounts| && w'.c.accounts[order.source.value].active
  {
    SecondTakesNothing(w.c, e1, x1, e2, x2, order);
  }

  lemma SecondTakesNothing(c: CustomerDb, e1: EventId, x1: TxnId, e2: EventId, x2: TxnId, order: Order)
    requires LedgerOk(c) && e1 != e2 && e1 !in c.processed && e2 !in c.processed
    requires order.kind == Withdrawal && order.source.Some? && order.amount > 0
    requires var a := order.source.value;
      a < |c.accounts| && c.accounts[a].active && c.accounts[a].balance < 2 * order.amount
    ensures var c2 := Apply(Apply(c, e1, x1, order, Done).0, e2, x2, order, Done).0;
      && e2 in c2.processed && !HasEffect(c2.effects, e2)
      && c2.effects == c.effects + FirstEffect(c, e1, x1, order)
      && |c2.accounts| == |c.accounts| && c2.accounts[order.source.value].active
  {
    var c1 := Apply(c, e1, x1, order, Done).0;
    FirstTakesIt(c, e1, x1, order);
    ApplyKeeps(c, e1, x1, order, Done);
    UnmarkedHasNone(c1, e2);
    OnlyMarked(c1, e2, x2, order);
  }

  lemma UnmarkedHasNone(c: CustomerDb, e: EventId)
    requires AppliedOnce(c.effects, c.processed) && e !in c.processed
    ensures !HasEffect(c.effects, e)
  {
    forall i | 0 <= i < |c.effects| ensures c.effects[i].event != e { EffectMarked(c.effects, c.processed, i); }
  }

  lemma OnlyMarked(c: CustomerDb, e: EventId, txn: TxnId, order: Order)
    requires e !in c.processed && order.kind == Withdrawal && order.source.Some?
    requires var a := order.source.value; a < |c.accounts| && c.accounts[a].balance < order.amount
    ensures Apply(c, e, txn, order, Done).0 == Ledger.Mark(c, e)
  {
  }

  lemma FirstTakesIt(c: CustomerDb, e: EventId, txn: TxnId, order: Order)
    requires e !in c.processed && NonNegative(c.accounts)
    requires order.kind == Withdrawal && order.source.Some? && order.amount > 0
    requires var a := order.source.value;
      a < |c.accounts| && c.accounts[a].active && c.accounts[a].balance < 2 * order.amount
    ensures var c', a := Apply(c, e, txn, order, Done).0, order.source.value;
      && c'.processed == c.processed + {e} && c'.effects == c.effects + FirstEffect(c, e, txn, order)
      && |c'.accounts| == |c.accounts| && c'.accounts[a].active && c'.accounts[a].balance < order.amount
  {
  }
}
