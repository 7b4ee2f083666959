/** The saga: what a `TransactionRequested` event leads to, one database call at a time. A status
    update commits on its own even though it stands between BEGIN and COMMIT. */
module Saga {
  import opened Options
  import opened Banking
  import opened Transactions

  /** The next database call. `inCatch` tells a rejection decided in the handler's own try block,
      whose failure leads to a second rejection, from one already in its catch block. */
  datatype Stage =
    | SourceExists
    | SourceFunds
    | TargetExists
    | SetCompleted
    | CommitCompleted
    | SetRejected(inCatch: bool)
    | CommitRejected(inCatch: bool)

  /** What follows a call: another one, or the end of the handler, perhaps with an error. */
  datatype Move = Go(stage: Stage) | End(threw: bool)

  function FirstStage(order: Order): Stage {
    if order.kind != Deposit && order.source.Some? then SourceExists else AfterSource(order)
  }

  function AfterSource(order: Order): Stage {
    if order.kind != Withdrawal && order.target.Some? then TargetExists else SetCompleted
  }

  function Rank(s: Stage): nat {
    match s
    case SourceExists => 8
    case SourceFunds => 7
    case TargetExists => 6
    case SetCompleted => 5
    case CommitCompleted => 4
    case SetRejected(inCatch) => if inCatch then 1 else 3
    case CommitRejected(inCatch) => if inCatch then 0 else 2
  }

  /** An error inside a rejection: in the try block it leads to the catch block, there it ends. */
  function Rejecting(inCatch: bool): Move { if inCatch then End(true) else Go(SetRejected(true)) }

  /** One call of the handler of event `e` with the given outcome. */
  function Step(t: TxnDb, e: EventId, txn: TxnId, order: Order, stage: Stage, outcome: Outcome): (r: (TxnDb, Move))
    ensures r.1.Go? ==> Rank(r.1.stage) < Rank(stage)
  {
    match stage
    case SourceExists =>
      if outcome != Done || order.source.None? then (t, Go(SetRejected(true)))
      else if order.source.value !in t.projections then (t, Go(SetRejected(false)))
      else (t, Go(SourceFunds))
    case SourceFunds =>
      if outcome != Done || order.source.None? then (t, Go(SetRejected(true)))
      else if order.source.value !in t.projections || t.projections[order.source.value] < order.amount
      then (t, Go(SetRejected(false)))
      else (t, Go(AfterSource(order)))
    case TargetExists =>
      if outcome != Done || order.target.None? then (t, Go(SetRejected(true)))
      else if order.target.value !in t.projections then (t, Go(SetRejected(false)))
      else (t, Go(SetCompleted))
    case SetCompleted =>
      if outcome == Failed then (t, Go(SetRejected(true)))
      else (SetStatus(t, txn, Completed),
            Go(if outcome == Done && txn < |t.txns| then CommitCompleted else SetRejected(true)))
    case CommitCompleted =>
      if outcome != Done || txn >= |t.txns| then (t, Go(SetRejected(true)))
      else (Conclude(t, e, TransactionCompleted(txn, t.txns[txn].order)), End(false))
    case SetRejected(inCatch) =>
      if outcome == Failed then (t, Rejecting(inCatch))
      else (SetStatus(t, txn, Rejected),
            if outcome == Done then Go(CommitRejected(inCatch)) else Rejecting(inCatch))
    case CommitRejected(inCatch) =>
      if outcome != Done then (t, Rejecting(inCatch))
      else (Conclude(t, e, TransactionRejected(txn, order)), End(false))
  }

  /** What one call can do: change its own transaction's status, or commit one outcome row and the mark
      together, which ends the handler; nothing else, and nothing at all if it failed before its
      effect. A read changes nothing, and leads to the catch block if it fails. Whoever is about to commit
      an outcome has set that status just before. */
  lemma StepMeans(t: TxnDb, e: EventId, txn: TxnId, order: Order, stage: Stage, outcome: Outcome)
    requires txn < |t.txns|
    ensures var (t', move) := Step(t, e, txn, order, stage, outcome);
      && t'.projections == t.projections && t'.writes == t.writes
      && t'.txns == t.txns[txn := t.txns[txn].(status := t'.txns[txn].status)]
      && (move != End(false) ==> t'.outbox == t.outbox && t'.processed == t.processed)
      && (move == End(false) ==>
            && outcome == Done && (stage == CommitCompleted || stage.CommitRejected?)
            && t'.txns == t.txns && t'.processed == t.processed + {e} && |t'.outbox| == |t.outbox| + 1
            && t'.outbox == t.outbox + [OutboxRow(t'.outbox[|t.outbox|].payload, Some(e))]
            && IsOutcome(t'.outbox[|t.outbox|].payload) && t'.outbox[|t.outbox|].payload.txn == txn
            && StatusOf(t'.outbox[|t.outbox|].payload) == (if stage == CommitCompleted then Completed else Rejected))
      && (move == Go(CommitCompleted) ==> stage == SetCompleted && outcome == Done && t'.txns[txn].status == Completed)
      && (move.Go? && move.stage.CommitRejected? ==>
            stage == SetRejected(move.stage.inCatch) && outcome == Done && t'.txns[txn].status == Rejected)
      && (outcome == Failed ==> t' == t)
      && (stage.SourceExists? || stage.SourceFunds? || stage.TargetExists? ==>
            t' == t && (outcome != Done ==> move == Go(SetRejected(true))))
  {
    assert t.txns == t.txns[txn := t.txns[txn].(status := t.txns[txn].status)];
  }

  /** The rest of the handler from a stage on, nobody else in between. */
  function Finish(t: TxnDb, e: EventId, txn: TxnId, order: Order, stage: Stage, plan: Stage -> Outcome): (TxnDb, bool)
    decreases Rank(stage)
  {
    var (t', move) := Step(t, e, txn, order, stage, plan(stage));
    match move
    case Go(next) => Finish(t', e, txn, order, next, plan)
    case End(threw) => (t', threw)
  }

  /** One delivery of a request event. */
  function Handle(t: TxnDb, e: EventId, txn: TxnId, order: Order, read: Outcome, plan: Stage -> Outcome)
    : (TxnDb, bool)
  {
    if read != Done then (t, true)
    else if e in t.processed then (t, false)
    else Finish(t, e, txn, order, FirstStage(order), plan)
  }

  /** Whatever fails, a delivery of an unprocessed event that returns has committed exactly one
      outcome row and the mark, and left the status that outcome says; one that throws has
      committed neither. Either way it only ever touched the status of its own transaction. */
  lemma {:induction false} FinishMeans(t: TxnDb, e: EventId, txn: TxnId, order: Order, stage: Stage,
                                       plan: Stage -> Outcome)
    requires e !in t.processed && txn < |t.txns| && t.txns[txn].order == order
    requires stage == CommitCompleted ==> t.txns[txn].status == Completed
    requires stage.CommitRejected? ==> t.txns[txn].status == Rejected
    ensures var (t', threw) := Finish(t, e, txn, order, stage, plan);
      && |t'.txns| == |t.txns| && t'.txns == t.txns[txn := t.txns[txn].(status := t'.txns[txn].status)]
      && t'.projections == t.projections && t'.writes == t.writes
      && (threw ==> t'.outbox == t.outbox && t'.processed == t.processed)
      && (!threw ==>
            && t'.processed == t.processed + {e} && |t'.outbox| == |t.outbox| + 1 && t.outbox < t'.outbox
            && var row := t'.outbox[|t.outbox|];
              && IsOutcome(row.payload) && row.payload.txn == txn && row.payload.order == order
              && row.cause == Some(e) && t'.txns[txn].status == StatusOf(row.payload))
    decreases Rank(stage)
  {
    var (t1, move) := Step(t, e, txn, order, stage, plan(stage));
    assert t.txns == t.txns[txn := t.txns[txn].(status := t.txns[txn].status)];
    if move.Go? {
      FinishMeans(t1, e, txn, order, move.stage, plan);
    }
  }

  /** Every account the order names is projected, and the source shows enough. */
  predicate Shown(projections: map<AccountId, int>, order: Order)
    requires ValidInput(order)
  {
    && (order.kind != Deposit ==>
          order.source.value in projections && projections[order.source.value] >= order.amount)
    && (order.kind != Withdrawal ==> order.target.value in projections)
  }

  /** With no fault the outcome follows the projection: completed exactly when it shows the order good. */
  lemma {:induction false} HandleDecides(t: TxnDb, e: EventId, txn: TxnId, order: Order, plan: Stage -> Outcome)
    requires e !in t.processed && txn < |t.txns| && t.txns[txn].order == order && ValidInput(order)
    requires forall s :: plan(s) == Done
    ensures var (t', threw) := Handle(t, e, txn, order, Done, plan);
      !threw && t' == if Shown(t.projections, order)
        then Conclude(SetStatus(t, txn, Completed), e, TransactionCompleted(txn, order))
        else Conclude(SetStatus(t, txn, Rejected), e, TransactionRejected(txn, order))
  {
    FinishFromSet(t, e, txn, order, plan);
    if order.kind != Deposit {
      assert Finish(t, e, txn, order, SourceExists, plan)
          == if order.source.value in t.projections then Finish(t, e, txn, order, SourceFunds, plan)
             else Finish(t, e, txn, order, SetRejected(false), plan);
    }
  }

  lemma FinishFromSet(t: TxnDb, e: EventId, txn: TxnId, order: Order, plan: Stage -> Outcome)
    requires txn < |t.txns| && t.txns[txn].order == order && forall s :: plan(s) == Done
    ensures Finish(t, e, txn, order, SetCompleted, plan)
         == (Conclude(SetStatus(t, txn, Completed), e, TransactionCompleted(txn, order)), false)
    ensures Finish(t, e, txn, order, SetRejected(false), plan)
         == (Conclude(SetStatus(t, txn, Rejected), e, TransactionRejected(txn, order)), false)
  {
    var completed, rejected := SetStatus(t, txn, Completed), SetStatus(t, txn, Rejected);
    assert Finish(completed, e, txn, order, CommitCompleted, plan).1 == false;
    assert Finish(rejected, e, txn, order, CommitRejected(false), plan).1 == false;
  }

  // ---------------------------------------------------------------- what a delivery decides, whatever fails

  predicate NeedsSource(order: Order) { order.kind != Deposit && order.source.Some? }

  predicate NeedsTarget(order: Order) { order.kind != Withdrawal && order.target.Some? }

  /** Both reads of the source the order needs came back, and show it with the amount on it. */
  predicate SourceGood(projections: map<AccountId, int>, order: Order, plan: Stage -> Outcome) {
    NeedsSource(order) ==>
      && plan(SourceExists) == plan(SourceFunds) == Done
      && order.source.value in projections && projections[order.source.value] >= order.amount
  }

  /** The read of the target the order needs came back, and shows it. */
  predicate TargetGood(projections: map<AccountId, int>, order: Order, plan: Stage -> Outcome) {
    NeedsTarget(order) ==> plan(TargetExists) == Done && order.target.value in projections
  }

  predicate Good(projections: map<AccountId, int>, order: Order, plan: Stage -> Outcome) {
    SourceGood(projections, order, plan) && TargetGood(projections, order, plan)
  }

  /** A read came back and shows that the order cannot be met, the ones before it being in order. */
  predicate Refuted(projections: map<AccountId, int>, order: Order, plan: Stage -> Outcome) {
    || (NeedsSource(order) && plan(SourceExists) == Done
        && (order.source.value !in projections
            || (plan(SourceFunds) == Done && projections[order.source.value] < order.amount)))
    || (SourceGood(projections, order, plan) && NeedsTarget(order) && plan(TargetExists) == Done
        && order.target.value !in projections)
  }

  /** The tables with one more outcome and its mark, if there is one, and the transaction's status. */
  function Left(t: TxnDb, e: EventId, txn: TxnId, status: Status, outcome: Option<Payload>): TxnDb
    requires txn < |t.txns|
  {
    t.(txns := t.txns[txn := t.txns[txn].(status := status)],
       outbox := t.outbox + if outcome.Some? then [OutboxRow(outcome.value, Some(e))] else [],
       processed := t.processed + if outcome.Some? then {e} else {})
  }

  lemma LeftTwice(t: TxnDb, e: EventId, txn: TxnId, first: Status, status: Status, outcome: Option<Payload>)
    requires txn < |t.txns|
    ensures Left(SetStatus(t, txn, first), e, txn, status, outcome) == Left(t, e, txn, status, outcome)
    ensures SetStatus(t, txn, first) == Left(t, e, txn, first, None)
    ensures t == Left(t, e, txn, t.txns[txn].status, None)
  {
    assert t.txns[txn := t.txns[txn].(status := first)][txn := t.txns[txn].(status := status)]
        == t.txns[txn := t.txns[txn].(status := status)];
    assert t.txns == t.txns[txn := t.txns[txn].(status := t.txns[txn].status)];
  }

  lemma FinishInCatch(t: TxnDb, e: EventId, txn: TxnId, order: Order, plan: Stage -> Outcome)
    requires txn < |t.txns|
    ensures Finish(t, e, txn, order, SetRejected(true), plan)
         == if plan(SetRejected(true)) == plan(CommitRejected(true)) == Done
            then (Left(t, e, txn, Rejected, Some(TransactionRejected(txn, order))), false)
            else
              var status := if plan(SetRejected(true)) == Failed then t.txns[txn].status else Rejected;
              (Left(t, e, txn, status, None), true)
  {
    var t1 := SetStatus(t, txn, Rejected);
    LeftTwice(t, e, txn, Rejected, Rejected, None);
    assert Finish(t1, e, txn, order, CommitRejected(true), plan)
        == if plan(CommitRejected(true)) == Done then (Conclude(t1, e, TransactionRejected(txn, order)), false)
           else (t1, true);
  }

  lemma FinishInTry(t: TxnDb, e: EventId, txn: TxnId, order: Order, plan: Stage -> Outcome)
    requires txn < |t.txns|
    ensures Finish(t, e, txn, order, SetRejected(false), plan)
         == if plan(SetRejected(false)) == plan(CommitRejected(false)) == Done
            then (Left(t, e, txn, Rejected, Some(TransactionRejected(txn, order))), false)
            else
              var status := if plan(SetRejected(false)) == Failed then t.txns[txn].status else Rejected;
              Finish(Left(t, e, txn, status, None), e, txn, order, SetRejected(true), plan)
  {
    var t1 := SetStatus(t, txn, Rejected);
    LeftTwice(t, e, txn, Rejected, Rejected, None);
    assert Finish(t1, e, txn, order, CommitRejected(false), plan)
        == if plan(CommitRejected(false)) == Done then (Conclude(t1, e, TransactionRejected(txn, order)), false)
           else Finish(t1, e, txn, order, SetRejected(true), plan);
  }

  lemma FinishCompleting(t: TxnDb, e: EventId, txn: TxnId, order: Order, plan: Stage -> Outcome)
    requires txn < |t.txns| && t.txns[txn].order == order
    ensures Finish(t, e, txn, order, SetCompleted, plan)
         == if plan(SetCompleted) == plan(CommitCompleted) == Done
            then (Left(t, e, txn, Completed, Some(TransactionCompleted(txn, order))), false)
            else
              var status := if plan(SetCompleted) == Failed then t.txns[txn].status else Completed;
              Finish(Left(t, e, txn, status, None), e, txn, order, SetRejected(true), plan)
  {
    var t1 := SetStatus(t, txn, Completed);
    LeftTwice(t, e, txn, Completed, Completed, None);
    assert Finish(t1, e, txn, order, CommitCompleted, plan)
        == if plan(CommitCompleted) == Done then (Conclude(t1, e, TransactionCompleted(txn, order)), false)
           else Finish(t1, e, txn, order, SetRejected(true), plan);
  }

  lemma FinishFromTarget(t: TxnDb, e: EventId, txn: TxnId, order: Order, plan: Stage -> Outcome)
    ensures Finish(t, e, txn, order, AfterSource(order), plan)
         == Finish(t, e, txn, order,
                   if TargetGood(t.projections, order, plan) then SetCompleted
                   else SetRejected(plan(TargetExists) != Done), plan)
  {
  }

  /** The reads lead on to completing when they show the order good, to a rejection in the try block
      when they show it bad, and to the catch block when one of them failed first. */
  lemma FinishReads(t: TxnDb, e: EventId, txn: TxnId, order: Order, plan: Stage -> Outcome)
    ensures Finish(t, e, txn, order, FirstStage(order), plan)
         == Finish(t, e, txn, order,
                   if Good(t.projections, order, plan) then SetCompleted
                   else SetRejected(!Refuted(t.projections, order, plan)), plan)
  {
    FinishFromTarget(t, e, txn, order, plan);
    if NeedsSource(order) && plan(SourceExists) == Done && order.source.value in t.projections {
      assert Finish(t, e, txn, order, SourceExists, plan) == Finish(t, e, txn, order, SourceFunds, plan);
    }
  }

  /** What a delivery decides, whichever calls fail. It completes the transaction only if every read
      its order needs came back and shows it good; it rejects it at once if they show it bad; any
      failure leads to the catch block, which rejects it if it can. Otherwise it throws, with no
      outcome row and no mark; only the status may have changed then. */
  lemma HandleMeans(t: TxnDb, e: EventId, txn: TxnId, order: Order, read: Outcome, plan: Stage -> Outcome)
    requires txn < |t.txns| && t.txns[txn].order == order
    ensures var (t', threw) := Handle(t, e, txn, order, read, plan);
      if read != Done || e in t.processed then t' == t && (threw <==> read != Done)
      else
        var good, bad := Good(t.projections, order, plan), Refuted(t.projections, order, plan);
        var completes := good && plan(SetCompleted) == plan(CommitCompleted) == Done;
        var rejects := bad && plan(SetRejected(false)) == plan(CommitRejected(false)) == Done;
        var rescued := !completes && !rejects && plan(SetRejected(true)) == plan(CommitRejected(true)) == Done;
        && !(good && bad)
        && (threw <==> !completes && !rejects && !rescued)
        && t'.projections == t.projections && t'.writes == t.writes
        && t'.processed == t.processed + (if threw then {} else {e})
        && t'.outbox == t.outbox + (if threw then []
             else [OutboxRow(if completes then TransactionCompleted(txn, order) else TransactionRejected(txn, order),
                             Some(e))])
        && t'.txns == t.txns[txn := t.txns[txn].(status :=
             if completes then Completed
             else if rejects || plan(SetRejected(true)) != Failed then Rejected
             else if good && plan(SetCompleted) != Failed then Completed
             else if bad && plan(SetRejected(false)) != Failed then Rejected
             else t.txns[txn].status)]
  {
    if read == Done && e !in t.processed {
      FinishReads(t, e, txn, order, plan);
      FinishCompleting(t, e, txn, order, plan);
      FinishInTry(t, e, txn, order, plan);
      LeftTwice(t, e, txn, Completed, Rejected, None);
      FinishInCatch(t, e, txn, order, plan);
      FinishInCatch(SetStatus(t, txn, Completed), e, txn, order, plan);
      FinishInCatch(SetStatus(t, txn, Rejected), e, txn, order, plan);
    }
  }

  // ---------------------------------------------------------------- the service

  class SagaService {
    const tables: TransactionTables

    constructor (tables: TransactionTables)
      ensures this.tables == tables
    {
      this.tables := tables;
    }

    /** Everything after the processed check is the try block and, if that threw, the catch block. */
    method HandleRequested(e: EventId, txn: TxnId, order: Order, read: Outcome, plan: Stage -> Outcome)
      returns (threw: bool)
      modifies tables
      ensures (tables.Value(), threw) == Handle(old(tables.Value()), e, txn, order, read, plan)
    {
      if read != Done {
        return true;
      }
      if e in tables.processed {
        return false;
      }
      threw := TryProcess(e, txn, order, plan);
      if threw {
        threw := RejectTransaction(e, txn, order, true, plan);
      }
    }

    /** The try block: if it throws, what is left of the handler is its catch block. */
    method TryProcess(e: EventId, txn: TxnId, order: Order, plan: Stage -> Outcome) returns (threw: bool)
      modifies tables
      ensures Finish(old(tables.Value()), e, txn, order, FirstStage(order), plan)
           == if threw then Finish(tables.Value(), e, txn, order, SetRejected(true), plan) else (tables.Value(), false)
    {
      if order.kind != Deposit && order.source.Some? {
        var source := order.source.value;
        if plan(SourceExists) != Done {
          return true;
        }
        if source !in tables.projections {
          threw := RejectTransaction(e, txn, order, false, plan);
          return;
        }
        if plan(SourceFunds) != Done {
          return true;
        }
        if source !in tables.projections || tables.projections[source] < order.amount {
          threw := RejectTransaction(e, txn, order, false, plan);
          return;
        }
      }
      if order.kind != Withdrawal && order.target.Some? {
        if plan(TargetExists) != Done {
          return true;
        }
        if order.target.value !in tables.projections {
          threw := RejectTransaction(e, txn, order, false, plan);
          return;
        }
      }
      var completed, failed := tables.UpdateStatus(txn, Completed, plan(SetCompleted));
      if failed || completed.None? || plan(CommitCompleted) != Done {
        return true;
      }
      tables.outbox := tables.outbox + [OutboxRow(TransactionCompleted(txn, completed.value.order), Some(e))];
      tables.processed := tables.processed + {e};
      threw := false;
    }

    method RejectTransaction(e: EventId, txn: TxnId, order: Order, inCatch: bool, plan: Stage -> Outcome)
      returns (threw: bool)
      modifies tables
      ensures Finish(old(tables.Value()), e, txn, order, SetRejected(inCatch), plan)
           == if threw && !inCatch then Finish(tables.Value(), e, txn, order, SetRejected(true), plan)
              else (tables.Value(), threw)
    {
      var _, failed := tables.UpdateStatus(txn, Rejected, plan(SetRejected(inCatch)));
      if failed {
        return true;
      }
      if plan(CommitRejected(inCatch)) != Done {
        return true;
      }
      tables.outbox := tables.outbox + [OutboxRow(TransactionRejected(txn, order), Some(e))];
      tables.processed := tables.processed + {e};
      threw := false;
    }
  }
}
