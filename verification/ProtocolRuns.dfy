/** The handlers and services as they are written, one call at a time, are runs of the machine. */
module ProtocolRuns {
  import opened Options
  import opened Banking
  import opened Ledger
  import opened Transactions
  import opened Projections
  import opened Protocol
  import opened ProtocolTheorems
  import S = Saga

  // ---------------------------------------------------------------- one delivery is a run

  /** The database calls the saga makes from `stage` on when nobody else is at work. */
  function SagaSteps(t: TxnDb, e: EventId, txn: TxnId, order: Order, stage: S.Stage, plan: S.Stage -> Outcome)
    : seq<Step>
    decreases S.Rank(stage)
  {
    var (t', move) := S.Step(t, e, txn, order, stage, plan(stage));
    [Proceed(e, plan(stage))] + if move.Go? then SagaSteps(t', e, txn, order, move.stage, plan) else []
  }

  /** A handler's steps touch no more than its service's tables and its own place. */
  predicate OnlyHandled(w: World, w': World) {
    && w'.c == w.c && w'.bus == w.bus && |w'.handlers| == |w'.concluded| == |w.bus|
    && w'.calls == w.calls && w'.openings == w.openings && w'.announced == w.announced
  }

  lemma Judged(w: World, e: EventId, txn: TxnId, order: Order, stage: S.Stage, outcome: Outcome)
    requires e < |w.bus| == |w.handlers| == |w.concluded|
    requires w.bus[e].payload == TransactionRequested(txn, order) && w.handlers[e] == Judging(stage)
    ensures var w1 := Next(w, Proceed(e, outcome));
      var (t', move) := S.Step(w.t, e, txn, order, stage, outcome);
      && w1.t == t' && OnlyHandled(w, w1)
      && w1.handlers[e] == if move.Go? then Judging(move.stage) else Idle
  {
  }

  lemma {:induction false} FinishIsARun(w: World, e: EventId, txn: TxnId, order: Order, stage: S.Stage,
                                        plan: S.Stage -> Outcome)
    requires e < |w.bus| == |w.handlers| == |w.concluded|
    requires w.bus[e].payload == TransactionRequested(txn, order) && w.handlers[e] == Judging(stage)
    ensures var w' := Run(w, SagaSteps(w.t, e, txn, order, stage, plan));
      w'.t == S.Finish(w.t, e, txn, order, stage, plan).0 && OnlyHandled(w, w')
    decreases S.Rank(stage)
  {
    var (t', move) := S.Step(w.t, e, txn, order, stage, plan(stage));
    var w1 := Next(w, Proceed(e, plan(stage)));
    var rest := if move.Go? then SagaSteps(t', e, txn, order, move.stage, plan) else [];
    Judged(w, e, txn, order, stage, plan(stage));
    RunFirst(w, Proceed(e, plan(stage)), rest);
    if move.Go? { FinishIsARun(w1, e, txn, order, move.stage, plan); }
  }

  /** What the saga's handler does in one call is what the machine does when it delivers the event
      and takes the handler's steps without interruption. */
  lemma HandleIsARun(w: World, e: EventId, plan: S.Stage -> Outcome)
    requires e < |w.bus| == |w.handlers| == |w.concluded| && w.handlers[e] == Idle
    requires w.bus[e].payload.TransactionRequested?
    ensures var txn, order := w.bus[e].payload.txn, w.bus[e].payload.order;
      var steps := [Deliver(e)] +
        if e in w.t.processed then [] else SagaSteps(w.t, e, txn, order, S.FirstStage(order), plan);
      Run(w, steps).t == S.Handle(w.t, e, txn, order, Done, plan).0 && OnlyHandled(w, Run(w, steps))
  {
    var txn, order := w.bus[e].payload.txn, w.bus[e].payload.order;
    var rest := if e in w.t.processed then [] else SagaSteps(w.t, e, txn, order, S.FirstStage(order), plan);
    RunFirst(w, Deliver(e), rest);
    if e !in w.t.processed { FinishIsARun(Next(w, Deliver(e)), e, txn, order, S.FirstStage(order), plan); }
  }

  /** The same for a balance update, ... */
  lemma UpdateIsARun(w: World, e: EventId, faults: Faults)
    requires e < |w.bus| == |w.handlers| == |w.concluded| && w.handlers[e] == Idle && faults.read == Done
    requires w.bus[e].payload.BalanceUpdated?
    ensures var p, w' := w.bus[e].payload, Run(w, [Deliver(e), Proceed(e, faults.upsert), Proceed(e, faults.mark)]);
      && w'.t == HandleBalanceUpdated(w.t, e, p.account, p.newBalance, w.bus[e].row, faults).0
      && OnlyHandled(w, w')
  {
    RunThree(w, Deliver(e), Proceed(e, faults.upsert), Proceed(e, faults.mark));
    Updated(w, e, faults);
  }

  lemma Updated(w: World, e: EventId, faults: Faults)
    requires e < |w.bus| == |w.handlers| == |w.concluded| && w.handlers[e] == Idle && w.bus[e].payload.BalanceUpdated?
    ensures var p := w.bus[e].payload;
      var w' := Next(Next(Next(w, Deliver(e)), Proceed(e, faults.upsert)), Proceed(e, faults.mark));
      && w'.t == (if e in w.t.processed then w.t
                  else WriteAndMark(w.t, e, p.account, p.newBalance, w.bus[e].row, faults).0)
      && OnlyHandled(w, w')
  {
  }

  /** ... for a client's request, ... */
  lemma RequestIsARun(w: World, order: Order, key: Key, faults: RequestFaults)
    requires |w.announced| == |w.t.txns| && faults.find == Done && faults.accountsFound
    ensures var i := |w.calls|;
      Run(w, [BeginCall(order, key), CreateRow(i, faults.create), AnnounceRow(i, faults.commit)]).t
        == Request(w.t, order, key, i, faults).0
  {
    var i := |w.calls|;
    RunThree(w, BeginCall(order, key), CreateRow(i, faults.create), AnnounceRow(i, faults.commit));
    var w1 := Next(w, BeginCall(order, key));
    if ValidInput(order) && !KeyTaken(w.t.txns, key) {
      assert w1 == w.(calls := w.calls + [Call(order, key, Creating)]);
      CreatedAndAnnounced(w1, i, order, key, faults.create, faults.commit);
    } else {
      RefusedCall(w, order, key, faults);
    }
  }

  /** A request that is refused makes no call. */
  lemma RefusedCall(w: World, order: Order, key: Key, faults: RequestFaults)
    requires !ValidInput(order) || KeyTaken(w.t.txns, key)
    ensures var i := |w.calls|;
      Next(Next(Next(w, BeginCall(order, key)), CreateRow(i, faults.create)), AnnounceRow(i, faults.commit)) == w
  {
  }

  lemma CreatedAndAnnounced(w: World, i: nat, order: Order, key: Key, create: Outcome, commit: Outcome)
    requires |w.announced| == |w.t.txns| && i < |w.calls| && w.calls[i] == Call(order, key, Creating)
    ensures Next(Next(w, CreateRow(i, create)), AnnounceRow(i, commit)).t
         == CreateAndAnnounce(w.t, order, key, i, create, commit).0
  {
    var w1 := Next(w, CreateRow(i, create));
    assert w1.t.txns == w.t.txns || |w1.announced| == |w.t.txns| + 1;
  }

  /** The steps of one `createAccount`: as far as its calls get. */
  function OpeningSteps(account: AccountId, initialBalance: int, faults: OpenFaults): seq<Step> {
    if faults.find != Done || !faults.clientFound || faults.create == Failed then []
    else if faults.create == FailedAfter || faults.commit != Done then [OpenAccount(initialBalance)]
    else [OpenAccount(initialBalance), AnnounceAccount(account)]
  }

  /** ... for opening an account, ... */
  lemma OpeningIsARun(w: World, initialBalance: int, faults: OpenFaults)
    requires |w.openings| == |w.c.accounts|
    ensures var w' := Run(w, OpeningSteps(|w.c.accounts|, initialBalance, faults));
      w'.c == CreateAccount(w.c, initialBalance, faults).0 && w'.t == w.t && |w'.openings| == |w'.c.accounts|
  {
    RunLast(w, [], OpenAccount(initialBalance));
    assert [] + [OpenAccount(initialBalance)] == [OpenAccount(initialBalance)];
    RunTwo(w, OpenAccount(initialBalance), AnnounceAccount(|w.c.accounts|));
  }

  /** ... and for a new account with its initial deposit. */
  lemma CreatedIsARun(w: World, e: EventId, faults: Faults)
    requires e < |w.bus| == |w.handlers| == |w.concluded| && w.handlers[e] == Idle && faults.read == Done
    requires w.bus[e].payload.AccountCreated? && |w.announced| == |w.t.txns|
    ensures var p, i := w.bus[e].payload, |w.calls|;
      Run(w, [Deliver(e), Proceed(e, faults.upsert), Proceed(e, faults.mark)]
             + [Proceed(e, faults.find), CreateRow(i, faults.create), AnnounceRow(i, faults.commit)]).t
        == HandleAccountCreated(w.t, e, p.account, p.initialBalance, w.bus[e].row, i, faults).0
  {
    var p, i := w.bus[e].payload, |w.calls|;
    var marking := [Deliver(e), Proceed(e, faults.upsert), Proceed(e, faults.mark)];
    var w1 := Run(w, marking);
    RunThree(w, Deliver(e), Proceed(e, faults.upsert), Proceed(e, faults.mark));
    RunSplit(w, marking, [Proceed(e, faults.find), CreateRow(i, faults.create), AnnounceRow(i, faults.commit)]);
    RunThree(w1, Proceed(e, faults.find), CreateRow(i, faults.create), AnnounceRow(i, faults.commit));
    SeededAndMarked(w, e, faults);
    if w1.handlers[e] == Queueing { DepositQueued(w1, e, faults); }
  }

  /** The first half: seed and mark. */
  lemma SeededAndMarked(w: World, e: EventId, faults: Faults)
    requires e < |w.bus| == |w.handlers| == |w.concluded| && w.handlers[e] == Idle
    requires w.bus[e].payload.AccountCreated?
    ensures var w1 := Next(Next(Next(w, Deliver(e)), Proceed(e, faults.upsert)), Proceed(e, faults.mark));
      var p := w.bus[e].payload;
      var (t', past) := WriteAndMark(w.t, e, p.account, 0, w.bus[e].row, faults);
      && w1.t == (if e in w.t.processed then w.t else t') && w1.calls == w.calls && w1.announced == w.announced
      && w1.bus == w.bus && |w1.handlers| == |w.handlers| && w1.concluded == w.concluded
      && w1.handlers[e] == if e !in w.t.processed && past && p.initialBalance > 0 then Queueing else Idle
  {
  }

  /** The second half: the initial deposit. */
  lemma DepositQueued(w: World, e: EventId, faults: Faults)
    requires e < |w.bus| == |w.handlers| == |w.concluded| && w.handlers[e] == Queueing
    requires w.bus[e].payload.AccountCreated? && |w.announced| == |w.t.txns|
    ensures var p, i := w.bus[e].payload, |w.calls|;
      var w1 := Next(w, Proceed(e, faults.find));
      var w' := Next(Next(w1, CreateRow(i, faults.create)), AnnounceRow(i, faults.commit));
      w'.t == if faults.find != Done || KeyTaken(w.t.txns, InitialDeposit(p.account)) then w.t
              else CreateAndAnnounce(w.t, InitialOrder(p.account, p.initialBalance), InitialDeposit(p.account), i,
                                     faults.create, faults.commit).0
  {
    var p, i := w.bus[e].payload, |w.calls|;
    var w1 := Next(w, Proceed(e, faults.find));
    assert w1.t == w.t && w1.announced == w.announced;
    if i < |w1.calls| {
      CreatedAndAnnounced(w1, i, InitialOrder(p.account, p.initialBalance), InitialDeposit(p.account), faults.create,
                          faults.commit);
    }
  }
}
