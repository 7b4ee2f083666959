/** One whole transaction without faults: requested, published, judged, its completion published. */
module WholeTransactions {
  import opened Options
  import opened Banking
  import opened Ledger
  import opened Transactions
  import opened Protocol
  import opened ProtocolKeeps
  import opened ProtocolTheorems
  import opened ProtocolRuns
  import opened Deliveries
  import S = Saga

  // ---------------------------------------------------------------- runs without faults

  /** Every call ends well, nothing crashes, and nobody touches an account's status by hand. */
  predicate Faultless(s: Step) {
    match s
    case SetActive(_, _) => false
    case CreateRow(_, outcome) => outcome == Done
    case AnnounceRow(_, outcome) => outcome == Done
    case Proceed(_, outcome) => outcome == Done
    case Complete(_, outcome) => outcome == Done
    case Crash(_) => false
    case _ => true
  }

  predicate NoFaults(steps: seq<Step>) { forall s | s in steps :: Faultless(s) }

  /** No row of either service has been published as two events. */
  predicate NoRowTwice(bus: seq<Message>) {
    forall e, f | 0 <= e < f < |bus| :: bus[e].side != bus[f].side || bus[e].row != bus[f].row
  }

  lemma NoFaultsConcat(a: seq<Step>, b: seq<Step>)
    requires NoFaults(b)
    ensures NoFaults(a) ==> NoFaults(a + b)
  {
  }

  lemma {:induction false} JudgingNoFaults(t: TxnDb, e: EventId, txn: TxnId, order: Order, stage: S.Stage,
                                           plan: S.Stage -> Outcome)
    requires forall s :: plan(s) == Done
    ensures NoFaults(SagaSteps(t, e, txn, order, stage, plan))
    decreases S.Rank(stage)
  {
    var (t', move) := S.Step(t, e, txn, order, stage, plan(stage));
    assert Faultless(Proceed(e, plan(stage)));
    if move.Go? { JudgingNoFaults(t', e, txn, order, move.stage, plan); }
  }

  lemma NewRowOnce(bus: seq<Message>, m: Message)
    requires NoRowTwice(bus) && forall e | 0 <= e < |bus| :: bus[e].side != m.side || bus[e].row != m.row
    ensures NoRowTwice(bus + [m])
  {
  }

  // ---------------------------------------------------------------- publications

  lemma OnceStill(bus: seq<Message>, m: Message, topic: Topic, x: TxnId)
    requires Once(bus, topic, x) && !IsAbout(m.payload, topic, x)
    ensures Once(bus + [m], topic, x)
  {
    assert (bus + [m])[..|bus|] == bus;
  }

  lemma OnceMore(bus: seq<Message>, m: Message, topic: Topic, x: TxnId)
    requires Once(bus, topic, x) && forall e | 0 <= e < |bus| :: bus[e].side != m.side || bus[e].row != m.row
    ensures Once(bus + [m], topic, x)
  {
    assert (bus + [m])[..|bus|] == bus;
  }

  lemma {:induction false} OnceUnnamed(bus: seq<Message>, topic: Topic, x: TxnId)
    requires forall e | 0 <= e < |bus| :: !IsAbout(bus[e].payload, topic, x)
    ensures Once(bus, topic, x)
  {
    if bus != [] {
      assert forall e | 0 <= e < |bus| - 1 :: bus[..|bus| - 1][e] == bus[e];
      OnceUnnamed(bus[..|bus| - 1], topic, x);
    }
  }

  /** A transaction that is not in the table yet is in no event. */
  lemma NotNamedYet(w: World, topic: Topic, e: EventId)
    requires Inv(w) && e < |w.bus|
    ensures !IsAbout(w.bus[e].payload, topic, |w.t.txns|)
  {
    SideOf(w, e);
    if w.bus[e].side == TxnSide { RowAt(w.t.outbox, w.t.txns, w.bus, w.announced, w.concluded, w.bus[e].row); }
  }

  // ---------------------------------------------------------------- the steps of a transaction

  lemma RequestMade(w: World, order: Order, key: Key)
    requires |w.announced| == |w.t.txns| && ValidTerms(order) && !KeyTaken(w.t.txns, key)
    ensures var i, x, k := |w.calls|, |w.t.txns|, |w.t.outbox|;
      Next(Next(Next(w, BeginCall(order, key)), CreateRow(i, Done)), AnnounceRow(i, Done))
        == w.(t := Announce(Create(w.t, order, key, i), x, order), calls := w.calls + [Call(order, key, Ended)],
              announced := w.announced + [Some(k)])
  {
    var i, x := |w.calls|, |w.t.txns|;
    var w1 := Next(w, BeginCall(order, key));
    assert w1 == w.(calls := w.calls + [Call(order, key, Creating)]);
    var w2 := Next(w1, CreateRow(i, Done));
    assert w2 == w.(t := Create(w.t, order, key, i), calls := w.calls + [Call(order, key, Announcing(x))],
                    announced := w.announced + [None]);
  }

  /** Whatever is on the bus is about other transactions, and from other rows than the next two. */
  lemma NothingYet(w: World, e: EventId)
    requires Inv(w) && e < |w.bus|
    ensures w.bus[e].side == TxnSide ==> w.bus[e].row < |w.t.outbox|
    ensures !IsAbout(w.bus[e].payload, RequestRow, |w.t.txns|) && !IsAbout(w.bus[e].payload, CompletionRow, |w.t.txns|)
  {
    SideOf(w, e);
    NotNamedYet(w, RequestRow, e);
    NotNamedYet(w, CompletionRow, e);
  }

  /** Two new rows published one after the other. */
  lemma TwoNewRows(bus: seq<Message>, k: nat, p1: Payload, p2: Payload)
    requires forall e | 0 <= e < |bus| && bus[e].side == TxnSide :: bus[e].row < k
    ensures NoRowTwice(bus) ==> NoRowTwice(bus + [Message(p1, TxnSide, k)] + [Message(p2, TxnSide, k + 1)])
  {
    if NoRowTwice(bus) {
      NewRowOnce(bus, Message(p1, TxnSide, k));
      NewRowOnce(bus + [Message(p1, TxnSide, k)], Message(p2, TxnSide, k + 1));
    }
  }

  /** The request event and the completion event of a transaction not heard of before. */
  lemma TwoNewEvents(bus: seq<Message>, k: nat, x: TxnId, order: Order)
    requires Once(bus, RequestRow, x) && Once(bus, CompletionRow, x)
    requires forall e | 0 <= e < |bus| && bus[e].side == TxnSide :: bus[e].row < k
    ensures OnceFor(bus + [Message(TransactionRequested(x, order), TxnSide, k)]
                        + [Message(TransactionCompleted(x, order), TxnSide, k + 1)], x)
  {
    var m1 := Message(TransactionRequested(x, order), TxnSide, k);
    var m2 := Message(TransactionCompleted(x, order), TxnSide, k + 1);
    OnceMore(bus, m1, RequestRow, x);
    OnceStill(bus + [m1], m2, RequestRow, x);
    OnceMore(bus, m1, CompletionRow, x);
    OnceMore(bus + [m1], m2, CompletionRow, x);
  }

  /** The events of a transaction that has gone through once. */
  lemma PublishedOnceEach(w: World, order: Order)
    requires Inv(w)
    ensures var x, k := |w.t.txns|, |w.t.outbox|;
      var bus := w.bus + [Message(TransactionRequested(x, order), TxnSide, k)]
                       + [Message(TransactionCompleted(x, order), TxnSide, k + 1)];
      OnceFor(bus, x) && (NoRowTwice(w.bus) ==> NoRowTwice(bus))
  {
    var x, k := |w.t.txns|, |w.t.outbox|;
    forall e | 0 <= e < |w.bus|
      ensures w.bus[e].side == TxnSide ==> w.bus[e].row < k
      ensures !IsAbout(w.bus[e].payload, RequestRow, x) && !IsAbout(w.bus[e].payload, CompletionRow, x)
    {
      NothingYet(w, e);
    }
    OnceUnnamed(w.bus, RequestRow, x);
    OnceUnnamed(w.bus, CompletionRow, x);
    TwoNewEvents(w.bus, k, x, order);
    TwoNewRows(w.bus, k, TransactionRequested(x, order), TransactionCompleted(x, order));
  }

  /** The first half: made and published. */
  lemma Requested(before: seq<Step>, order: Order, key: Key) returns (steps: seq<Step>)
    requires var t := Run(START, before).t; ValidTerms(order) && !KeyTaken(t.txns, key)
    ensures NoFaults(before) ==> NoFaults(steps)
    ensures var w, w' := Run(START, before), Run(START, steps);
      && w'.t == Announce(Create(w.t, order, key, |w.calls|), |w.t.txns|, order) && w'.c == w.c
      && w'.bus == w.bus + [Message(TransactionRequested(|w.t.txns|, order), TxnSide, |w.t.outbox|)]
      && w'.handlers == w.handlers + [Idle]
  {
    var w := Run(START, before);
    Reachable(before);
    var i := |w.calls|;
    RequestMade(w, order, key);
    var requesting := [BeginCall(order, key), CreateRow(i, Done), AnnounceRow(i, Done)];
    RunThree(w, BeginCall(order, key), CreateRow(i, Done), AnnounceRow(i, Done));
    RunSplit(START, before, requesting);
    RunLast(START, before + requesting, Publish(TxnSide, |w.t.outbox|));
    steps := before + requesting + [Publish(TxnSide, |w.t.outbox|)];
    NoFaultsConcat(before, requesting);
    NoFaultsConcat(before + requesting, [Publish(TxnSide, |w.t.outbox|)]);
  }

  /** The steps of one delivery to the saga. */
  lemma JudgingRun(before: seq<Step>, n: EventId, x: TxnId, order: Order, plan: S.Stage -> Outcome)
    returns (steps: seq<Step>)
    requires forall s :: plan(s) == Done
    ensures NoFaults(before) ==> NoFaults(steps)
    ensures var w := Run(START, before);
      Run(START, steps) == Run(w, [Deliver(n)] + SagaSteps(w.t, n, x, order, S.FirstStage(order), plan))
  {
    var stages := SagaSteps(Run(START, before).t, n, x, order, S.FirstStage(order), plan);
    RunSplit(START, before, [Deliver(n)] + stages);
    steps := before + ([Deliver(n)] + stages);
    JudgingNoFaults(Run(START, before).t, n, x, order, S.FirstStage(order), plan);
    NoFaultsConcat([Deliver(n)], stages);
    NoFaultsConcat(before, [Deliver(n)] + stages);
  }

  /** The second half: the saga judges event `n`. */
  lemma JudgedGood(before: seq<Step>, n: EventId) returns (steps: seq<Step>)
    requires var w := Run(START, before);
      && n < |w.bus| == |w.handlers| && w.bus[n].payload.TransactionRequested? && w.handlers[n] == Idle
      && n !in w.t.processed && ValidTerms(w.bus[n].payload.order) && S.Shown(w.t.projections, w.bus[n].payload.order)
    ensures NoFaults(before) ==> NoFaults(steps)
    ensures var w, w' := Run(START, before), Run(START, steps);
      var x, order := w.bus[n].payload.txn, w.bus[n].payload.order;
      && w'.c == w.c && w'.bus == w.bus
      && w'.t == Conclude(SetStatus(w.t, x, Completed), n, TransactionCompleted(x, order))
  {
    var w := Run(START, before);
    var x, order := w.bus[n].payload.txn, w.bus[n].payload.order;
    Reachable(before);
    RequestTerms(w, n, x, order);
    var plan := (s: S.Stage) => Done;
    HandleIsARun(w, n, plan);
    S.HandleDecides(w.t, n, x, order, plan);
    steps := JudgingRun(before, n, x, order, plan);
  }

  /** What a transaction that goes through with no fault leaves: its row, completed; its two outbox
      rows; the two events they were published as; and nothing else. */
  ghost predicate GoneThrough(w: World, w': World, order: Order, key: Key) {
    var x, k := |w.t.txns|, |w.t.outbox|;
    && w'.c == w.c && w'.t.projections == w.t.projections
    && w'.t.txns == w.t.txns + [Transaction(order, key, Completed, |w.calls|)]
    && w'.t.outbox == w.t.outbox + [OutboxRow(TransactionRequested(x, order), None)]
                                 + [OutboxRow(TransactionCompleted(x, order), Some(|w.bus|))]
    && w'.bus == w.bus + [Message(TransactionRequested(x, order), TxnSide, k)]
                       + [Message(TransactionCompleted(x, order), TxnSide, k + 1)]
  }

  lemma CompletionPublished(w: World, w2: World, order: Order, key: Key)
    requires var x, k := |w.t.txns|, |w.t.outbox|;
      && w2.bus == w.bus + [Message(TransactionRequested(x, order), TxnSide, k)] && w2.c == w.c
      && w2.t == Conclude(SetStatus(Announce(Create(w.t, order, key, |w.calls|), x, order), x, Completed), |w.bus|,
                          TransactionCompleted(x, order))
    ensures GoneThrough(w, Next(w2, Publish(TxnSide, |w.t.outbox| + 1)), order, key)
  {
    var row := Transaction(order, key, Completed, |w.calls|);
    assert w2.t.txns == w.t.txns + [row];
  }

  /** From any reachable world a valid request under a free key, good by the projection, can be made,
      published, judged and its completion published, with no fault and no row published twice. */
  lemma Completes(before: seq<Step>, order: Order, key: Key) returns (steps: seq<Step>)
    requires var t := Run(START, before).t; ValidTerms(order) && !KeyTaken(t.txns, key) && S.Shown(t.projections, order)
    ensures NoFaults(before) ==> NoFaults(steps)
    ensures NoRowTwice(Run(START, before).bus) ==> NoRowTwice(Run(START, steps).bus)
    ensures GoneThrough(Run(START, before), Run(START, steps), order, key)
    ensures OnceFor(Run(START, steps).bus, |Run(START, before).t.txns|)
  {
    var w := Run(START, before);
    Reachable(before);
    var steps1 := Requested(before, order, key);
    var steps2 := JudgedStep(w, steps1, order, key);
    RunLast(START, steps2, Publish(TxnSide, |w.t.outbox| + 1));
    steps := steps2 + [Publish(TxnSide, |w.t.outbox| + 1)];
    NoFaultsConcat(steps2, [Publish(TxnSide, |w.t.outbox| + 1)]);
    CompletionPublished(w, Run(START, steps2), order, key);
    PublishedOnceEach(w, order);
  }

  lemma JudgedStep(w: World, steps1: seq<Step>, order: Order, key: Key) returns (steps: seq<Step>)
    requires ValidTerms(order) && S.Shown(w.t.projections, order)
    requires |w.bus| == |w.handlers| && Below(w.t.processed, |w.bus|)
    requires var w1 := Run(START, steps1);
      && w1.t == Announce(Create(w.t, order, key, |w.calls|), |w.t.txns|, order) && w1.c == w.c
      && w1.bus == w.bus + [Message(TransactionRequested(|w.t.txns|, order), TxnSide, |w.t.outbox|)]
      && w1.handlers == w.handlers + [Idle]
    ensures NoFaults(steps1) ==> NoFaults(steps)
    ensures var w1, w2 := Run(START, steps1), Run(START, steps);
      && w2.c == w.c && w2.bus == w1.bus
      && w2.t == Conclude(SetStatus(w1.t, |w.t.txns|, Completed), |w.bus|, TransactionCompleted(|w.t.txns|, order))
  {
    steps := JudgedGood(steps1, |w.bus|);
  }
}
