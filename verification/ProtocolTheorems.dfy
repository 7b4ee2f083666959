/** What holds in every world that any run of the two services can reach. */
module ProtocolTheorems {
  import opened Options
  import opened Banking
  import opened Ledger
  import opened Transactions
  import opened Protocol
  import opened ProtocolKeeps
  import S = Saga

  lemma Reachable(steps: seq<Step>)
    ensures Inv(Run(START, steps))
  {
    RunKeeps(START, steps);
  }

  // ---------------------------------------------------------------- runs in pieces

  lemma {:induction false} RunSplit(w: World, steps: seq<Step>, more: seq<Step>)
    ensures Run(w, steps + more) == Run(Run(w, steps), more)
  {
    if more == [] {
      assert steps + more == steps;
    } else {
      var n := |more| - 1;
      assert (steps + more)[..|steps + more| - 1] == steps + more[..n];
      RunSplit(w, steps, more[..n]);
    }
  }

  lemma RunLast(w: World, steps: seq<Step>, s: Step)
    ensures Run(w, steps + [s]) == Next(Run(w, steps), s)
  {
    assert (steps + [s])[..|steps|] == steps;
  }

  lemma RunFirst(w: World, s: Step, rest: seq<Step>)
    ensures Run(w, [s] + rest) == Run(Next(w, s), rest)
  {
    RunSplit(w, [s], rest);
    assert [s][..0] == [];
  }

  lemma RunTwo(w: World, a: Step, b: Step)
    ensures Run(w, [a, b]) == Next(Next(w, a), b)
  {
    RunLast(w, [], a);
    RunLast(w, [a], b);
    assert [] + [a] == [a] && [a] + [b] == [a, b];
  }

  lemma RunThree(w: World, a: Step, b: Step, c: Step)
    ensures Run(w, [a, b, c]) == Next(Next(Next(w, a), b), c)
  {
    RunTwo(w, a, b);
    RunLast(w, [a, b], c);
    assert [a, b] + [c] == [a, b, c];
  }

  lemma OutboxesGrow(w: World, s: Step)
    ensures w.t.outbox <= Next(w, s).t.outbox && w.c.outbox <= Next(w, s).c.outbox
  {
    if Enabled(w, s) && s.Complete? {
      ApplyMeans(w.c, s.e, w.bus[s.e].payload.txn, w.bus[s.e].payload.order, s.outcome);
    }
  }

  lemma {:induction false} OutboxesOnlyGrow(w: World, steps: seq<Step>)
    ensures w.t.outbox <= Run(w, steps).t.outbox && w.c.outbox <= Run(w, steps).c.outbox
  {
    if steps != [] {
      OutboxesOnlyGrow(w, steps[..|steps| - 1]);
      OutboxesGrow(Run(w, steps[..|steps| - 1]), steps[|steps| - 1]);
    }
  }

  // ---------------------------------------------------------------- the saga, whatever is published how often

  /** A request event is marked processed exactly when one outcome row has been committed for it;
      there are never two, and that row is about the event's own transaction and terms. */
  lemma ConcludedExactlyOnce(steps: seq<Step>, e: EventId)
    requires var w := Run(START, steps); e < |w.bus| && w.bus[e].payload.TransactionRequested?
    ensures var w := Run(START, steps);
      && (e in w.t.processed <==> exists k :: 0 <= k < |w.t.outbox| && w.t.outbox[k].cause == Some(e))
      && (forall j, k | 0 <= j < |w.t.outbox| && 0 <= k < |w.t.outbox|
            && w.t.outbox[j].cause == Some(e) && w.t.outbox[k].cause == Some(e) :: j == k)
      && (forall k | 0 <= k < |w.t.outbox| && w.t.outbox[k].cause == Some(e) ::
            && IsOutcome(w.t.outbox[k].payload)
            && w.t.outbox[k].payload.txn == w.bus[e].payload.txn
            && w.t.outbox[k].payload.order == w.bus[e].payload.order)
  {
    var w := Run(START, steps);
    Reachable(steps);
    ConclusionAt(|w.bus|, w.bus, w.t.processed, w.t.outbox, w.concluded, e);
    forall k | 0 <= k < |w.t.outbox| && w.t.outbox[k].cause == Some(e)
      ensures w.concluded[e] == Some(k) && IsOutcome(w.t.outbox[k].payload)
      ensures w.t.outbox[k].payload.txn == w.bus[e].payload.txn && w.t.outbox[k].payload.order == w.bus[e].payload.order
    {
      RowAt(w.t.outbox, w.t.txns, w.bus, w.announced, w.concluded, k);
    }
  }

  /** At most one request row per transaction, carrying the terms of its table row. */
  lemma OneRequestRow(steps: seq<Step>, j: nat, k: nat)
    requires var rows := Run(START, steps).t.outbox;
      j < |rows| && k < |rows| && rows[j].payload.TransactionRequested? && rows[k].payload.TransactionRequested?
      && rows[j].payload.txn == rows[k].payload.txn
    ensures j == k
    ensures var t := Run(START, steps).t;
      t.outbox[k].payload.txn < |t.txns| && t.outbox[k].payload.order == t.txns[t.outbox[k].payload.txn].order
  {
    var w := Run(START, steps);
    Reachable(steps);
    RowAt(w.t.outbox, w.t.txns, w.bus, w.announced, w.concluded, j);
    RowAt(w.t.outbox, w.t.txns, w.bus, w.announced, w.concluded, k);
  }

  /** At most one transaction per idempotency key; so at most one initial deposit per account. */
  lemma OneTransactionPerKey(steps: seq<Step>, x: TxnId, y: TxnId)
    requires var txns := Run(START, steps).t.txns; x < |txns| && y < |txns| && txns[x].key == txns[y].key
    ensures x == y
  {
    Reachable(steps);
    if x < y { KeysDiffer(Run(START, steps).t.txns, x, y); }
    if y < x { KeysDiffer(Run(START, steps).t.txns, y, x); }
  }

  lemma {:induction false} KeysDiffer(txns: seq<Transaction>, x: TxnId, y: TxnId)
    requires KeysUnique(txns) && x < y < |txns|
    ensures txns[x].key != txns[y].key
  {
    var n := |txns| - 1;
    if y < n {
      KeysDiffer(txns[..n], x, y);
    } else {
      assert txns[..n][x] == txns[x];
    }
  }

  // ---------------------------------------------------------------- a transaction's rows published at most once

  /** The two rows of a transaction whose publication matters: its request, and its completion. */
  datatype Topic = RequestRow | CompletionRow

  predicate IsAbout(p: Payload, topic: Topic, x: TxnId) {
    match topic
    case RequestRow => p.TransactionRequested? && p.txn == x
    case CompletionRow => p.TransactionCompleted? && p.txn == x
  }

  /** No row of transaction `x` on this topic has been published twice. Rows of other transactions,
      and all other rows of this one, may have been, any number of times. */
  predicate Once(bus: seq<Message>, topic: Topic, x: TxnId) {
    bus == [] ||
    var n := |bus| - 1;
    && Once(bus[..n], topic, x)
    && (IsAbout(bus[n].payload, topic, x) ==>
          forall e | 0 <= e < n :: bus[e].side != bus[n].side || bus[e].row != bus[n].row)
  }

  predicate OnceFor(bus: seq<Message>, x: TxnId) { Once(bus, RequestRow, x) && Once(bus, CompletionRow, x) }

  lemma {:induction false} RowsDiffer(bus: seq<Message>, topic: Topic, x: TxnId, e: EventId, f: EventId)
    requires Once(bus, topic, x) && e < f < |bus| && IsAbout(bus[f].payload, topic, x)
    ensures bus[e].side != bus[f].side || bus[e].row != bus[f].row
  {
    if f < |bus| - 1 { RowsDiffer(bus[..|bus| - 1], topic, x, e, f); }
  }

  /** With its request row published once, a transaction has one request event, ... */
  lemma OneRequestEvent(w: World, x: TxnId, e: EventId, f: EventId)
    requires Inv(w) && Once(w.bus, RequestRow, x) && e < |w.bus| && f < |w.bus|
    requires IsAbout(w.bus[e].payload, RequestRow, x) && IsAbout(w.bus[f].payload, RequestRow, x)
    ensures e == f
  {
    RequestTerms(w, e, x, w.bus[e].payload.order);
    RequestTerms(w, f, x, w.bus[f].payload.order);
    if e < f { RowsDiffer(w.bus, RequestRow, x, e, f); }
    if f < e { RowsDiffer(w.bus, RequestRow, x, f, e); }
  }

  predicate IsOutcomeOf(p: Payload, x: TxnId) { IsOutcome(p) && p.txn == x }

  /** ... so at most one outcome row. */
  lemma OneOutcomeRow(w: World, x: TxnId, j: nat, k: nat)
    requires Inv(w) && Once(w.bus, RequestRow, x) && j < |w.t.outbox| && k < |w.t.outbox|
    requires IsOutcomeOf(w.t.outbox[j].payload, x) && IsOutcomeOf(w.t.outbox[k].payload, x)
    ensures j == k
  {
    RowAt(w.t.outbox, w.t.txns, w.bus, w.announced, w.concluded, j);
    RowAt(w.t.outbox, w.t.txns, w.bus, w.announced, w.concluded, k);
    OneRequestEvent(w, x, w.t.outbox[j].cause.value, w.t.outbox[k].cause.value);
  }

  /** While the event is unmarked there is no outcome row for its transaction. */
  lemma NoOutcomeYet(w: World, x: TxnId, e: EventId, k: nat)
    requires Inv(w) && Once(w.bus, RequestRow, x) && e < |w.bus| && k < |w.t.outbox|
    requires IsAbout(w.bus[e].payload, RequestRow, x) && e !in w.t.processed
    ensures !IsOutcomeOf(w.t.outbox[k].payload, x)
  {
    RowAt(w.t.outbox, w.t.txns, w.bus, w.announced, w.concluded, k);
    ConclusionAt(|w.bus|, w.bus, w.t.processed, w.t.outbox, w.concluded, e);
    if IsOutcomeOf(w.t.outbox[k].payload, x) { OneRequestEvent(w, x, w.t.outbox[k].cause.value, e); }
  }

  /** Every outcome row of the transaction agrees with its status. */
  ghost predicate OutcomesHold(rows: seq<OutboxRow>, txns: seq<Transaction>, x: TxnId) {
    rows == [] ||
    var n := |rows| - 1;
    && OutcomesHold(rows[..n], txns, x)
    && (IsOutcomeOf(rows[n].payload, x) ==> x < |txns| && txns[x].status == StatusOf(rows[n].payload))
  }

  /** A saga about to commit an outcome of the transaction has set that status. */
  ghost predicate StageHolds(h: Handler, p: Payload, txns: seq<Transaction>, x: TxnId) {
    h.Judging? && IsAbout(p, RequestRow, x) ==>
      && (h.stage.CommitCompleted? ==> x < |txns| && txns[x].status == Completed)
      && (h.stage.CommitRejected? ==> x < |txns| && txns[x].status == Rejected)
  }

  ghost predicate StagesHold(n: nat, handlers: seq<Handler>, bus: seq<Message>, txns: seq<Transaction>, x: TxnId)
    requires n <= |handlers| && n <= |bus|
  {
    n == 0 || (StagesHold(n - 1, handlers, bus, txns, x) && StageHolds(handlers[n - 1], bus[n - 1].payload, txns, x))
  }

  ghost predicate StatusHolds(w: World, x: TxnId)
    requires |w.handlers| == |w.bus|
  {
    OutcomesHold(w.t.outbox, w.t.txns, x) && StagesHold(|w.bus|, w.handlers, w.bus, w.t.txns, x)
  }

  lemma {:induction false} OutcomeAt(rows: seq<OutboxRow>, txns: seq<Transaction>, x: TxnId, k: nat)
    requires OutcomesHold(rows, txns, x) && k < |rows| && IsOutcomeOf(rows[k].payload, x)
    ensures x < |txns| && txns[x].status == StatusOf(rows[k].payload)
  {
    if k < |rows| - 1 { OutcomeAt(rows[..|rows| - 1], txns, x, k); }
  }

  lemma {:induction false} StageAt(n: nat, handlers: seq<Handler>, bus: seq<Message>, txns: seq<Transaction>,
                                   x: TxnId, e: EventId)
    requires n <= |handlers| && n <= |bus| && StagesHold(n, handlers, bus, txns, x) && e < n
    ensures StageHolds(handlers[e], bus[e].payload, txns, x)
  {
    if e < n - 1 { StageAt(n - 1, handlers, bus, txns, x, e); }
  }

  lemma {:induction false} OutcomesGrow(rows: seq<OutboxRow>, txns: seq<Transaction>, txns': seq<Transaction>, x: TxnId)
    requires OutcomesHold(rows, txns, x) && txns <= txns'
    ensures OutcomesHold(rows, txns', x)
  {
    if rows != [] { OutcomesGrow(rows[..|rows| - 1], txns, txns', x); }
  }

  /** A status may change if it is another transaction's, or while this one has no outcome row. */
  lemma {:induction false} OutcomesElsewhere(rows: seq<OutboxRow>, txns: seq<Transaction>, x: TxnId, y: TxnId,
                                             status: Status)
    requires OutcomesHold(rows, txns, x) && y < |txns|
    requires y == x ==> forall k | 0 <= k < |rows| :: !IsOutcomeOf(rows[k].payload, x)
    ensures OutcomesHold(rows, txns[y := txns[y].(status := status)], x)
  {
    if rows != [] {
      var n := |rows| - 1;
      assert forall k | 0 <= k < n :: rows[..n][k] == rows[k];
      OutcomesElsewhere(rows[..n], txns, x, y, status);
    }
  }

  lemma {:induction false} StagesGrow(n: nat, handlers: seq<Handler>, bus: seq<Message>, txns: seq<Transaction>,
                                      handlers': seq<Handler>, bus': seq<Message>, txns': seq<Transaction>, x: TxnId)
    requires n <= |handlers| && n <= |bus| && StagesHold(n, handlers, bus, txns, x)
    requires handlers <= handlers' && bus <= bus' && txns <= txns'
    ensures StagesHold(n, handlers', bus', txns', x)
  {
    if n > 0 { StagesGrow(n - 1, handlers, bus, txns, handlers', bus', txns', x); }
  }

  lemma {:induction false} StagesElsewhere(n: nat, handlers: seq<Handler>, bus: seq<Message>, txns: seq<Transaction>,
                                           x: TxnId, e: EventId, h: Handler, y: TxnId, status: Status)
    requires n <= |handlers| && n <= |bus| && StagesHold(n, handlers, bus, txns, x)
    requires e < |handlers| && e < |bus| && y < |txns|
    requires y == x ==> forall f | 0 <= f < n && IsAbout(bus[f].payload, RequestRow, x) :: f == e
    requires StageHolds(h, bus[e].payload, txns[y := txns[y].(status := status)], x)
    ensures StagesHold(n, handlers[e := h], bus, txns[y := txns[y].(status := status)], x)
  {
    if n > 0 { StagesElsewhere(n - 1, handlers, bus, txns, x, e, h, y, status); }
  }

  lemma {:induction false} StagesHandler(n: nat, handlers: seq<Handler>, bus: seq<Message>, txns: seq<Transaction>,
                                         x: TxnId, e: EventId, h: Handler)
    requires n <= |handlers| && n <= |bus| && StagesHold(n, handlers, bus, txns, x) && e < |handlers| && e < |bus|
    requires StageHolds(h, bus[e].payload, txns, x)
    ensures StagesHold(n, handlers[e := h], bus, txns, x)
  {
    if n > 0 { StagesHandler(n - 1, handlers, bus, txns, x, e, h); }
  }

  /** The saga sets a status. If it is that of `x`, there is no outcome row of `x` yet, and no other
      event whose saga could be about to commit one. */
  lemma StatusSet(w: World, x: TxnId, e: EventId, txn: TxnId, order: Order, status: Status, h: Handler)
    requires Inv(w) && Once(w.bus, RequestRow, x) && StatusHolds(w, x) && e < |w.bus| && e !in w.t.processed
    requires w.bus[e].payload == TransactionRequested(txn, order)
    requires h.Judging? && h.stage.CommitCompleted? ==> status == Completed
    requires h.Judging? && h.stage.CommitRejected? ==> status == Rejected
    ensures StatusHolds(SetHandler(w.(t := SetStatus(w.t, txn, status)), e, h), x)
  {
    RequestTerms(w, e, txn, order);
    if txn == x {
      forall k | 0 <= k < |w.t.outbox| ensures !IsOutcomeOf(w.t.outbox[k].payload, x) { NoOutcomeYet(w, x, e, k); }
      forall f | 0 <= f < |w.bus| && IsAbout(w.bus[f].payload, RequestRow, x) ensures f == e {
        OneRequestEvent(w, x, f, e);
      }
    }
    OutcomesElsewhere(w.t.outbox, w.t.txns, x, txn, status);
    StagesElsewhere(|w.bus|, w.handlers, w.bus, w.t.txns, x, e, h, txn, status);
  }

  lemma ConcludeHolds(w: World, x: TxnId, e: EventId, outcome: Payload)
    requires Sized(w) && StatusHolds(w, x) && e < |w.bus|
    requires IsOutcomeOf(outcome, x) ==> x < |w.t.txns| && w.t.txns[x].status == StatusOf(outcome)
    ensures StatusHolds(SetHandler(w.(t := Conclude(w.t, e, outcome)), e, Idle), x)
  {
    assert (w.t.outbox + [OutboxRow(outcome, Some(e))])[..|w.t.outbox|] == w.t.outbox;
    StagesHandler(|w.bus|, w.handlers, w.bus, w.t.txns, x, e, Idle);
  }

  /** A call of the saga that writes nothing and is not followed by a commit. */
  predicate Quiet(h: Handler) { h.Judging? ==> !h.stage.CommitCompleted? && !h.stage.CommitRejected? }

  /** What the saga's next stage says about the call just made. */
  lemma NextStage(t: TxnDb, e: EventId, txn: TxnId, order: Order, stage: S.Stage, outcome: Outcome)
    requires txn < |t.txns|
    ensures var (t', move) := S.Step(t, e, txn, order, stage, outcome);
      && (move == S.End(false) ==> stage.CommitCompleted? || stage.CommitRejected?)
      && (move.Go? && move.stage.CommitCompleted? ==> stage == S.SetCompleted && t' == SetStatus(t, txn, Completed))
      && (move.Go? && move.stage.CommitRejected? ==> stage.SetRejected? && t' == SetStatus(t, txn, Rejected))
      && (move != S.End(false) && t' != t ==> stage == S.SetCompleted || stage.SetRejected?)
      && (stage == S.SetCompleted ==> t' == t || t' == SetStatus(t, txn, Completed))
      && (stage.SetRejected? ==> t' == t || t' == SetStatus(t, txn, Rejected))
  {
  }

  lemma JudgeHolds(w: World, x: TxnId, e: EventId, txn: TxnId, order: Order, stage: S.Stage, outcome: Outcome)
    requires Inv(w) && Once(w.bus, RequestRow, x) && StatusHolds(w, x) && e < |w.bus|
    requires w.bus[e].payload == TransactionRequested(txn, order) && w.handlers[e] == Judging(stage)
    ensures StatusHolds(ActJudge(w, e, txn, order, stage, outcome), x)
  {
    HandlerAt(|w.handlers|, w.handlers, w.t.processed, e);
    RequestTerms(w, e, txn, order);
    StageAt(|w.bus|, w.handlers, w.bus, w.t.txns, x, e);
    JudgeActs(w, e, txn, order, stage, outcome);
    NextStage(w.t, e, txn, order, stage, outcome);
    var (t', move) := S.Step(w.t, e, txn, order, stage, outcome);
    var after := if move.Go? then Judging(move.stage) else Idle;
    if move == S.End(false) {
      ConcludeHolds(w, x, e, OutcomeOf(stage, txn, order));
    } else if t' == w.t && Quiet(after) {
      HandlerHolds(w, x, e, after);
    } else {
      StatusSet(w, x, e, txn, order, if stage == S.SetCompleted then Completed else Rejected, after);
    }
  }

  lemma CreateHolds(w: World, x: TxnId, i: nat, outcome: Outcome)
    requires Sized(w) && StatusHolds(w, x) && Enabled(w, CreateRow(i, outcome))
    ensures StatusHolds(ActCreate(w, i, outcome), x)
  {
    var txns' := ActCreate(w, i, outcome).t.txns;
    OutcomesGrow(w.t.outbox, w.t.txns, txns', x);
    StagesGrow(|w.bus|, w.handlers, w.bus, w.t.txns, w.handlers, w.bus, txns', x);
  }

  lemma AnnounceHolds(w: World, x: TxnId, i: nat, outcome: Outcome)
    requires Sized(w) && StatusHolds(w, x) && Enabled(w, AnnounceRow(i, outcome))
    ensures StatusHolds(ActAnnounce(w, i, outcome), x)
  {
    if outcome == Done { assert ActAnnounce(w, i, outcome).t.outbox[..|w.t.outbox|] == w.t.outbox; }
  }

  lemma PublishHolds(w: World, x: TxnId, side: Side, row: nat)
    requires Sized(w) && StatusHolds(w, x) && Enabled(w, Publish(side, row))
    ensures |Act(w, Publish(side, row)).handlers| == |Act(w, Publish(side, row)).bus|
    ensures StatusHolds(Act(w, Publish(side, row)), x)
  {
    var w' := Act(w, Publish(side, row));
    StagesGrow(|w.bus|, w.handlers, w.bus, w.t.txns, w'.handlers, w'.bus, w.t.txns, x);
  }

  lemma HandlerHolds(w: World, x: TxnId, e: EventId, h: Handler)
    requires Sized(w) && StatusHolds(w, x) && e < |w.bus|
    requires h.Judging? ==> !h.stage.CommitCompleted? && !h.stage.CommitRejected?
    ensures StatusHolds(SetHandler(w, e, h), x)
  {
    StagesHandler(|w.bus|, w.handlers, w.bus, w.t.txns, x, e, h);
  }

  lemma StepHolds(w: World, x: TxnId, s: Step)
    requires Inv(w) && Once(w.bus, RequestRow, x) && StatusHolds(w, x) && Enabled(w, s)
    ensures |Act(w, s).handlers| == |Act(w, s).bus|
    ensures StatusHolds(Act(w, s), x)
  {
    match s
    case CreateRow(i, outcome) => CreateHolds(w, x, i, outcome);
    case AnnounceRow(i, outcome) => AnnounceHolds(w, x, i, outcome);
    case Publish(side, row) => PublishHolds(w, x, side, row);
    case Deliver(e) => HandlerHolds(w, x, e, FirstCall(w.bus[e].payload));
    case Proceed(e, outcome) => ProceedHolds(w, x, e, outcome);
    case Crash(e) => HandlerHolds(w, x, e, Idle);
    case _ =>
  }

  /** The projection handlers touch neither transactions nor their rows. */
  lemma ProjectionActs(w: World, e: EventId, outcome: Outcome)
    requires Enabled(w, Proceed(e, outcome)) && !w.bus[e].payload.TransactionRequested?
    ensures var w' := ActProceed(w, e, outcome);
      && w'.t.txns == w.t.txns && w'.t.outbox == w.t.outbox && w'.bus == w.bus
      && w'.handlers == w.handlers[e := w'.handlers[e]]
  {
  }

  lemma ProceedHolds(w: World, x: TxnId, e: EventId, outcome: Outcome)
    requires Inv(w) && Once(w.bus, RequestRow, x) && StatusHolds(w, x) && Enabled(w, Proceed(e, outcome))
    ensures |ActProceed(w, e, outcome).handlers| == |ActProceed(w, e, outcome).bus|
    ensures StatusHolds(ActProceed(w, e, outcome), x)
  {
    if w.bus[e].payload.TransactionRequested? {
      JudgeHolds(w, x, e, w.bus[e].payload.txn, w.bus[e].payload.order, w.handlers[e].stage, outcome);
    } else {
      ProjectionActs(w, e, outcome);
      StagesHandler(|w.bus|, w.handlers, w.bus, w.t.txns, x, e, ActProceed(w, e, outcome).handlers[e]);
    }
  }

  lemma BusGrows(w: World, s: Step)
    ensures Next(w, s).bus == w.bus || (|Next(w, s).bus| == |w.bus| + 1 && Next(w, s).bus[..|w.bus|] == w.bus)
  {
  }

  /** In every run in which its request row is published at most once, whatever happens to all other
      rows, a transaction's status agrees with its outcome row. */
  lemma {:induction false} RunHolds(w: World, x: TxnId, steps: seq<Step>)
    requires Inv(w) && (Once(w.bus, RequestRow, x) ==> StatusHolds(w, x))
    ensures Inv(Run(w, steps))
    ensures Once(Run(w, steps).bus, RequestRow, x) ==> StatusHolds(Run(w, steps), x)
  {
    RunKeeps(w, steps);
    if steps != [] {
      var before, s := Run(w, steps[..|steps| - 1]), steps[|steps| - 1];
      RunHolds(w, x, steps[..|steps| - 1]);
      BusGrows(before, s);
      if Once(Run(w, steps).bus, RequestRow, x) && Enabled(before, s) { StepHolds(before, x, s); }
    }
  }
}
