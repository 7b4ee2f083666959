/** What the hypotheses about publication buy: from any world a run can reach, publishing a
    transaction's own row once more can change its outcome or move its money again. */
module Republished {
  import opened Options
  import opened Banking
  import opened Ledger
  import opened Transactions
  import opened Protocol
  import opened ProtocolKeeps
  import opened ProtocolTheorems
  import opened ProtocolRuns
  import opened Deliveries
  import opened WholeTransactions
  import S = Saga

  // ---------------------------------------------------------------- a completion row published again

  /** What is left covers what the order's accounts covered, less its amount. */
  ghost predicate Spent(accounts: seq<Account>, accounts': seq<Account>, order: Order)
    requires ValidInput(order)
  {
    forall need | Covered(accounts, order, need) :: Covered(accounts', order, need - order.amount)
  }

  /** Deduplication is per event, not per row: publishing a completed row once more, whatever its kind,
      applies it once more, as long as its accounts cover it. */
  lemma PublishedAgainAppliedAgain(w: World, k: nat, w': World)
    requires Below(w.c.processed, |w.bus|) && NonNegative(w.c.accounts)
    requires k < |w.t.outbox| && w.t.outbox[k].payload.TransactionCompleted? && ValidTerms(w.t.outbox[k].payload.order)
    requires var order := w.t.outbox[k].payload.order; Covered(w.c.accounts, order, order.amount)
    requires w' == Next(Next(w, Publish(TxnSide, k)), Complete(|w.bus|, Done))
    ensures var p := w.t.outbox[k].payload;
      && w'.t == w.t && w'.bus == w.bus + [Message(p, TxnSide, k)]
      && w'.c.effects == w.c.effects + [Effect(|w.bus|, p.txn, p.order)]
      && Spent(w.c.accounts, w'.c.accounts, p.order)
  {
    var n, p := |w.bus|, w.t.outbox[k].payload;
    var w1 := Next(w, Publish(TxnSide, k));
    assert w1.c == w.c && w1.bus[n].payload == p;
    AppliedWhen(w.c, n, p.txn, p.order);
    ApplyMeans(w.c, n, p.txn, p.order, Done);
    AppliedLeaves(w.c, n, p.txn, p.order);
  }

  lemma AppliedLeaves(c: CustomerDb, e: EventId, txn: TxnId, order: Order)
    requires e !in c.processed && NonNegative(c.accounts) && ValidTerms(order)
    ensures Spent(c.accounts, Apply(c, e, txn, order, Done).0.accounts, order)
  {
  }

  lemma DeliveredRun(before: seq<Step>, k: nat, e: EventId) returns (steps: seq<Step>)
    ensures NoFaults(before) ==> NoFaults(steps)
    ensures Run(START, steps) == Next(Next(Run(START, before), Publish(TxnSide, k)), Complete(e, Done))
  {
    var applying := [Publish(TxnSide, k), Complete(e, Done)];
    RunTwo(Run(START, before), Publish(TxnSide, k), Complete(e, Done));
    RunSplit(START, before, applying);
    steps := before + applying;
    NoFaultsConcat(before, applying);
  }

  /** The same as a run. */
  lemma AppliedOnceMore(before: seq<Step>, k: nat) returns (steps: seq<Step>)
    requires var w := Run(START, before);
      && k < |w.t.outbox| && w.t.outbox[k].payload.TransactionCompleted? && ValidTerms(w.t.outbox[k].payload.order)
      && var order := w.t.outbox[k].payload.order; Covered(w.c.accounts, order, order.amount)
    ensures NoFaults(before) ==> NoFaults(steps)
    ensures var w, w' := Run(START, before), Run(START, steps);
      var p := w.t.outbox[k].payload;
      && w'.t == w.t && w'.bus == w.bus + [Message(p, TxnSide, k)]
      && w'.c.effects == w.c.effects + [Effect(|w.bus|, p.txn, p.order)]
      && Spent(w.c.accounts, w'.c.accounts, p.order)
  {
    Reachable(before);
    steps := DeliveredRun(before, k, |Run(START, before).bus|);
    PublishedAgainAppliedAgain(Run(START, before), k, Run(START, steps));
  }

  /** In a reachable world a completed transaction whose accounts cover it twice can be applied twice
      more without any fault, with its request row published no more often than it was. */
  lemma AppliedTwiceMore(before: seq<Step>, k: nat) returns (steps: seq<Step>)
    requires var w := Run(START, before);
      && k < |w.t.outbox| && w.t.outbox[k].payload.TransactionCompleted? && ValidTerms(w.t.outbox[k].payload.order)
      && var order := w.t.outbox[k].payload.order; Covered(w.c.accounts, order, 2 * order.amount)
    ensures NoFaults(before) ==> NoFaults(steps)
    ensures var w, w' := Run(START, before), Run(START, steps);
      var n, p := |w.bus|, w.t.outbox[k].payload;
      && w'.c.effects == w.c.effects + [Effect(n, p.txn, p.order), Effect(n + 1, p.txn, p.order)]
      && (Once(w.bus, RequestRow, p.txn) ==> Once(w'.bus, RequestRow, p.txn))
  {
    var w := Run(START, before);
    var p := w.t.outbox[k].payload;
    var m := Message(p, TxnSide, k);
    var once := AppliedOnceMore(before, k);
    steps := AppliedOnceMore(once, k);
    if Once(w.bus, RequestRow, p.txn) {
      OnceStill(w.bus, m, RequestRow, p.txn);
      OnceStill(w.bus + [m], m, RequestRow, p.txn);
    }
  }

  // ---------------------------------------------------------------- a request row published again

  /** The saga of a request whose first call fails, with no other fault, rejects it. */
  lemma FirstCallFails(t: TxnDb, e: EventId, x: TxnId, order: Order, plan: S.Stage -> Outcome)
    requires x < |t.txns| && e !in t.processed
    requires forall s :: plan(s) == if s == S.FirstStage(order) then Failed else Done
    ensures S.Handle(t, e, x, order, Done, plan).0
         == Conclude(SetStatus(t, x, Rejected), e, TransactionRejected(x, order))
  {
    var t1 := SetStatus(t, x, Rejected);
    assert S.Finish(t1, e, x, order, S.CommitRejected(true), plan).0 == Conclude(t1, e, TransactionRejected(x, order));
    assert S.Finish(t, e, x, order, S.SetRejected(true), plan).0
        == S.Finish(t1, e, x, order, S.CommitRejected(true), plan).0;
  }

  /** The request row behind an outcome. */
  lemma RequestOf(w: World, x: TxnId, j: nat) returns (r: nat)
    requires Inv(w) && j < |w.t.outbox| && IsOutcomeOf(w.t.outbox[j].payload, x)
    ensures x < |w.t.txns| && r < |w.t.outbox| && w.t.outbox[r].payload == TransactionRequested(x, w.t.txns[x].order)
  {
    RowAt(w.t.outbox, w.t.txns, w.bus, w.announced, w.concluded, j);
    var cause := w.t.outbox[j].cause.value;
    RequestTerms(w, cause, x, w.t.txns[x].order);
    SideOf(w, cause);
    r := w.bus[cause].row;
  }

  /** One delivery of a request whose first call fails. */
  lemma RejectedOnDelivery(before: seq<Step>, x: TxnId, n: EventId) returns (steps: seq<Step>)
    requires var w := Run(START, before);
      && x < |w.t.txns| && n < |w.bus| == |w.handlers| == |w.concluded| && w.handlers[n] == Idle && n !in w.t.processed
      && w.bus[n].payload == TransactionRequested(x, w.t.txns[x].order)
    ensures var w, w' := Run(START, before), Run(START, steps);
      && w'.c == w.c && w'.bus == w.bus
      && w'.t == Conclude(SetStatus(w.t, x, Rejected), n, TransactionRejected(x, w.t.txns[x].order))
  {
    var w := Run(START, before);
    var order := w.t.txns[x].order;
    var plan := (s: S.Stage) => if s == S.FirstStage(order) then Failed else Done;
    FirstCallFails(w.t, n, x, order, plan);
    HandleIsARun(w, n, plan);
    var judging := [Deliver(n)] + SagaSteps(w.t, n, x, order, S.FirstStage(order), plan);
    RunSplit(START, before, judging);
    steps := before + judging;
  }

  /** In a reachable world any transaction that has an outcome, whatever it is and whatever money it has
      moved, can get a second outcome row and the status rejected: publish its request row once more,
      and let one call of its saga fail. */
  lemma RejectedAfterAll(before: seq<Step>, x: TxnId, j: nat) returns (steps: seq<Step>)
    requires var rows := Run(START, before).t.outbox; j < |rows| && IsOutcomeOf(rows[j].payload, x)
    ensures var w, w' := Run(START, before), Run(START, steps);
      && w'.c == w.c && x < |w.t.txns| && w'.t.txns == w.t.txns[x := w.t.txns[x].(status := Rejected)]
      && w'.t.outbox == w.t.outbox + [OutboxRow(TransactionRejected(x, w.t.txns[x].order), Some(|w.bus|))]
      && (Once(w.bus, CompletionRow, x) ==> Once(w'.bus, CompletionRow, x))
  {
    var w := Run(START, before);
    Reachable(before);
    var r := RequestOf(w, x, j);
    RunLast(START, before, Publish(TxnSide, r));
    var w1 := Run(START, before + [Publish(TxnSide, r)]);
    assert w1.bus == w.bus + [Message(w.t.outbox[r].payload, TxnSide, r)];
    steps := RejectedOnDelivery(before + [Publish(TxnSide, r)], x, |w.bus|);
    if Once(w.bus, CompletionRow, x) { OnceStill(w.bus, w1.bus[|w.bus|], CompletionRow, x); }
  }

  /** The other half of the same condition: in a reachable world a transaction that has an outcome, is
      good by the projection and covered in the ledger is completed and applied once more when its
      request row is published once more, without any fault and with no completion row of it published
      twice. */
  lemma RequestedAgainAppliedAgain(before: seq<Step>, x: TxnId, j: nat) returns (steps: seq<Step>)
    requires var w := Run(START, before);
      && j < |w.t.outbox| && IsOutcomeOf(w.t.outbox[j].payload, x)
      && x < |w.t.txns| && ValidTerms(w.t.txns[x].order)
      && S.Shown(w.t.projections, w.t.txns[x].order)
      && Covered(w.c.accounts, w.t.txns[x].order, w.t.txns[x].order.amount)
    ensures NoFaults(before) ==> NoFaults(steps)
    ensures var w, w' := Run(START, before), Run(START, steps);
      && w'.c.effects == w.c.effects + [Effect(|w.bus| + 1, x, w.t.txns[x].order)]
      && (Once(w.bus, CompletionRow, x) ==> Once(w'.bus, CompletionRow, x))
  {
    var w := Run(START, before);
    Reachable(before);
    var n, k, order := |w.bus|, |w.t.outbox|, w.t.txns[x].order;
    var r := RequestOf(w, x, j);
    RunLast(START, before, Publish(TxnSide, r));
    var m := Message(TransactionRequested(x, order), TxnSide, r);
    var steps1 := before + [Publish(TxnSide, r)];
    NoFaultsConcat(before, [Publish(TxnSide, r)]);
    assert Run(START, steps1).bus == w.bus + [m] && Run(START, steps1).t == w.t && Run(START, steps1).c == w.c;
    var steps2 := JudgedGood(steps1, n);
    steps := AppliedOnceMore(steps2, k);
    if Once(w.bus, CompletionRow, x) { OnceAgain(w, m, Message(TransactionCompleted(x, order), TxnSide, k), x); }
  }

  /** A request event, and then the first event of a new row. */
  lemma OnceAgain(w: World, m1: Message, m2: Message, x: TxnId)
    requires Inv(w) && Once(w.bus, CompletionRow, x) && m1.payload.TransactionRequested? && m1.row < |w.t.outbox|
    requires m2.side == TxnSide && m2.row == |w.t.outbox|
    ensures Once(w.bus + [m1] + [m2], CompletionRow, x)
  {
    forall e | 0 <= e < |w.bus| ensures w.bus[e].side == TxnSide ==> w.bus[e].row < |w.t.outbox| { SideOf(w, e); }
    OnceStill(w.bus, m1, CompletionRow, x);
    OnceMore(w.bus + [m1], m2, CompletionRow, x);
  }
}
