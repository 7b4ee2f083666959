/** What lies behind a completed transaction: the reads that the saga which completed it had made in
    that same delivery, and what they say about the ledger. */
module Judgements {
  import opened Options
  import opened Banking
  import opened Transactions
  import opened Protocol
  import opened ProtocolKeeps
  import opened ProtocolTheorems
  import opened Deliveries
  import opened ProjectionSafety
  import S = Saga

  /** Step `n` was the call of the saga of event `e` at this stage, it came back, and that saga has
      not crashed since. */
  ghost predicate Called(steps: seq<Step>, n: nat, e: EventId, stage: S.Stage) {
    && n < |steps| && steps[n] == Proceed(e, Done)
    && e < |Run(START, steps[..n]).handlers| && Run(START, steps[..n]).handlers[e] == Judging(stage)
    && Crash(e) !in steps[n..]
  }

  /** It was the read of the source's balance, and found the amount. */
  ghost predicate SourceSeen(steps: seq<Step>, n: nat, e: EventId, order: Order) {
    && Called(steps, n, e, S.SourceFunds) && order.source.Some?
    && var projections := Run(START, steps[..n]).t.projections;
    && order.source.value in projections && projections[order.source.value] >= order.amount
  }

  /** It was the look for the target, and found it. */
  ghost predicate TargetSeen(steps: seq<Step>, n: nat, e: EventId, order: Order) {
    && Called(steps, n, e, S.TargetExists) && order.target.Some?
    && order.target.value in Run(START, steps[..n]).t.projections
  }

  /** What the saga has seen by the time it is at a stage. */
  ghost predicate Informed(steps: seq<Step>, e: EventId, order: Order, stage: S.Stage) {
    && (S.NeedsSource(order) && (stage.TargetExists? || stage.SetCompleted? || stage.CommitCompleted?) ==>
          exists n :: SourceSeen(steps, n, e, order))
    && (S.NeedsTarget(order) && (stage.SetCompleted? || stage.CommitCompleted?) ==>
          exists n :: TargetSeen(steps, n, e, order))
  }

  lemma CalledEarlier(steps: seq<Step>, s: Step, n: nat, e: EventId, stage: S.Stage)
    requires Called(steps, n, e, stage) && s != Crash(e)
    ensures Called(steps + [s], n, e, stage) && (steps + [s])[..n] == steps[..n]
  {
    assert (steps + [s])[..n] == steps[..n];
    assert (steps + [s])[n..] == steps[n..] + [s];
  }

  lemma InformedEarlier(steps: seq<Step>, s: Step, e: EventId, order: Order, stage: S.Stage)
    requires Informed(steps, e, order, stage) && s != Crash(e)
    ensures Informed(steps + [s], e, order, stage)
  {
    forall n | SourceSeen(steps, n, e, order) ensures SourceSeen(steps + [s], n, e, order) {
      CalledEarlier(steps, s, n, e, S.SourceFunds);
    }
    forall n | TargetSeen(steps, n, e, order) ensures TargetSeen(steps + [s], n, e, order) {
      CalledEarlier(steps, s, n, e, S.TargetExists);
    }
  }

  lemma CalledNow(steps: seq<Step>, e: EventId, stage: S.Stage)
    requires e < |Run(START, steps).handlers| && Run(START, steps).handlers[e] == Judging(stage)
    ensures Called(steps + [Proceed(e, Done)], |steps|, e, stage)
    ensures (steps + [Proceed(e, Done)])[..|steps|] == steps
  {
    assert (steps + [Proceed(e, Done)])[..|steps|] == steps;
    assert (steps + [Proceed(e, Done)])[|steps|..] == [Proceed(e, Done)];
  }

  /** What a saga that goes on towards completing has just learnt. */
  lemma GoesOn(t: TxnDb, e: EventId, txn: TxnId, order: Order, stage: S.Stage, outcome: Outcome)
    ensures var move := S.Step(t, e, txn, order, stage, outcome).1;
      move.Go? ==>
        && (move.stage.TargetExists? ==> stage.SourceFunds?)
        && (move.stage.SetCompleted? ==> stage.SourceFunds? || stage.TargetExists?)
        && (move.stage.CommitCompleted? ==> stage.SetCompleted?)
        && (stage.SourceFunds? && (move.stage.TargetExists? || move.stage.SetCompleted?) ==>
              && outcome == Done && order.source.Some? && order.source.value in t.projections
              && t.projections[order.source.value] >= order.amount
              && (move.stage.SetCompleted? ==> !S.NeedsTarget(order)))
        && (stage.TargetExists? && move.stage.SetCompleted? ==>
              outcome == Done && order.target.Some? && order.target.value in t.projections)
  {
  }

  lemma FundsSeen(steps: seq<Step>, e: EventId, order: Order)
    requires e < |Run(START, steps).handlers| && Run(START, steps).handlers[e] == Judging(S.SourceFunds)
    requires order.source.Some? && order.source.value in Run(START, steps).t.projections
    requires Run(START, steps).t.projections[order.source.value] >= order.amount
    ensures SourceSeen(steps + [Proceed(e, Done)], |steps|, e, order)
  {
    CalledNow(steps, e, S.SourceFunds);
  }

  lemma TargetFound(steps: seq<Step>, e: EventId, order: Order)
    requires e < |Run(START, steps).handlers| && Run(START, steps).handlers[e] == Judging(S.TargetExists)
    requires order.target.Some? && order.target.value in Run(START, steps).t.projections
    ensures TargetSeen(steps + [Proceed(e, Done)], |steps|, e, order)
  {
    CalledNow(steps, e, S.TargetExists);
  }

  lemma ProceedInforms(steps: seq<Step>, e: EventId, txn: TxnId, order: Order, stage: S.Stage, outcome: Outcome)
    requires e < |Run(START, steps).handlers| && Run(START, steps).handlers[e] == Judging(stage)
    requires Informed(steps, e, order, stage)
    ensures var move := S.Step(Run(START, steps).t, e, txn, order, stage, outcome).1;
      move.Go? ==> Informed(steps + [Proceed(e, outcome)], e, order, move.stage)
  {
    var move := S.Step(Run(START, steps).t, e, txn, order, stage, outcome).1;
    GoesOn(Run(START, steps).t, e, txn, order, stage, outcome);
    InformedEarlier(steps, Proceed(e, outcome), e, order, stage);
    if move.Go? && stage.SourceFunds? && (move.stage.TargetExists? || move.stage.SetCompleted?) {
      FundsSeen(steps, e, order);
    } else if move.Go? && stage.TargetExists? && move.stage.SetCompleted? {
      TargetFound(steps, e, order);
    }
  }

  /** A step of anybody else leaves a handler where it is. */
  lemma OtherHandlers(w: World, s: Step, e: EventId)
    requires Sized(w) && e < |Next(w, s).handlers|
    requires s != Deliver(e) && s != Crash(e) && !(s.Proceed? && s.e == e)
    ensures if e < |w.handlers| then Next(w, s).handlers[e] == w.handlers[e] else Next(w, s).handlers[e] == Idle
  {
  }

  /** However the run went, a saga that is about to complete its transaction has seen it good. */
  lemma {:induction false} SagaIsInformed(steps: seq<Step>, e: EventId)
    requires var w := Run(START, steps);
      e < |w.handlers| && e < |w.bus| && w.handlers[e].Judging? && w.bus[e].payload.TransactionRequested?
    ensures var w := Run(START, steps); Informed(steps, e, w.bus[e].payload.order, w.handlers[e].stage)
  {
    var before, s := steps[..|steps| - 1], steps[|steps| - 1];
    var w := Run(START, before);
    assert steps == before + [s];
    Reachable(before);
    BusGrows(w, s);
    if s == Deliver(e) && Enabled(w, s) {
      assert Run(START, steps).handlers[e] == Judging(S.FirstStage(w.bus[e].payload.order));
    } else if s.Proceed? && s.e == e && Enabled(w, s) {
      SagaIsInformed(before, e);
      ProceedInforms(before, e, w.bus[e].payload.txn, w.bus[e].payload.order, w.handlers[e].stage, s.outcome);
    } else {
      if Enabled(w, s) { OtherHandlers(w, s, e); }
      SagaIsInformed(before, e);
      InformedEarlier(before, s, e, w.bus[e].payload.order, w.handlers[e].stage);
    }
  }

  // ---------------------------------------------------------------- completed rows

  /** No other step of the machine writes one. */
  lemma NoCompletedRow(w: World, s: Step, k: nat)
    requires |w.t.outbox| <= k < |Next(w, s).t.outbox|
    requires s.Proceed? && Enabled(w, s) ==> !w.bus[s.e].payload.TransactionRequested?
    ensures !Next(w, s).t.outbox[k].payload.TransactionCompleted?
  {
    if Enabled(w, s) && s.Proceed? { ProjectionActs(w, s.e, s.outcome); }
  }

  /** Only the last call of a completing saga writes a completed row. */
  lemma NewCompletedRow(w: World, s: Step, k: nat)
    requires Inv(w) && |w.t.outbox| <= k < |Next(w, s).t.outbox|
    requires Next(w, s).t.outbox[k].payload.TransactionCompleted?
    ensures var row := Next(w, s).t.outbox[k];
      && k == |w.t.outbox| && row.cause.Some? && s == Proceed(row.cause.value, Done)
      && row.cause.value < |w.bus| == |w.handlers| && w.handlers[row.cause.value] == Judging(S.CommitCompleted)
      && w.bus[row.cause.value].payload == TransactionRequested(row.payload.txn, row.payload.order)
  {
    if s.Proceed? && Enabled(w, s) && w.bus[s.e].payload.TransactionRequested? {
      var txn, order, stage := w.bus[s.e].payload.txn, w.bus[s.e].payload.order, w.handlers[s.e].stage;
      RequestTerms(w, s.e, txn, order);
      JudgeActs(w, s.e, txn, order, stage, s.outcome);
      S.StepMeans(w.t, s.e, txn, order, stage, s.outcome);
    } else {
      NoCompletedRow(w, s, k);
    }
  }

  /** Every completed row goes back to one delivery of its request event, in which the saga read the
      source's balance and found the amount, found the target, and then committed the row: each as far
      as the order has such an account, and with no crash in between. The step that committed it, and
      the two reads. */
  lemma {:induction false} CompletedWasSeenGood(steps: seq<Step>, k: nat) returns (m: nat, funds: nat, target: nat)
    requires k < |Run(START, steps).t.outbox| && Run(START, steps).t.outbox[k].payload.TransactionCompleted?
    ensures var row := Run(START, steps).t.outbox[k];
      && m < |steps| && row.cause.Some? && steps[m] == Proceed(row.cause.value, Done)
      && |Run(START, steps[..m]).t.outbox| == k
      && (row.payload.order.kind != Deposit ==> SourceSeen(steps[..m], funds, row.cause.value, row.payload.order))
      && (row.payload.order.kind != Withdrawal ==> TargetSeen(steps[..m], target, row.cause.value, row.payload.order))
  {
    m, funds, target := 0, 0, 0;
    var before, s := steps[..|steps| - 1], steps[|steps| - 1];
    var w, row := Run(START, before), Run(START, steps).t.outbox[k];
    OutboxesGrow(w, s);
    if k < |w.t.outbox| {
      m, funds, target := CompletedWasSeenGood(before, k);
      assert before[..m] == steps[..m];
    } else {
      m := |steps| - 1;
      Reachable(before);
      NewCompletedRow(w, s, k);
      CompletedAccountsExist(steps, k);
      SagaIsInformed(before, row.cause.value);
      var e, order := row.cause.value, row.payload.order;
      if order.kind != Deposit { funds :| SourceSeen(before, funds, e, order); }
      if order.kind != Withdrawal { target :| TargetSeen(before, target, e, order); }
    }
  }

  /** So the source of a completed withdrawal or transfer really had the amount on it at some moment of
      the run, though it need not have it any more when the ledger is told. */
  lemma CompletedWasOnceCovered(steps: seq<Step>, k: nat) returns (n: nat, balance: int)
    requires k < |Run(START, steps).t.outbox| && Run(START, steps).t.outbox[k].payload.TransactionCompleted?
    requires Run(START, steps).t.outbox[k].payload.order.kind != Deposit
    ensures var order := Run(START, steps).t.outbox[k].payload.order;
      order.source.Some? && balance >= order.amount && Had(steps, n, order.source.value, balance)
  {
    var order := Run(START, steps).t.outbox[k].payload.order;
    var m, funds, target := CompletedWasSeenGood(steps, k);
    assert steps[..m][..funds] == steps[..funds];
    balance := Run(START, steps[..funds]).t.projections[order.source.value];
    n := ProjectionIsAPastBalance(steps[..funds], order.source.value);
    assert steps[..funds][..n] == steps[..n];
  }
}
