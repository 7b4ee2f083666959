/** What becomes of completed transactions in the ledger: which accounts they can name, when a delivery
    applies them, and which of them are never applied. */
module Deliveries {
  import opened Options
  import opened Banking
  import opened Ledger
  import opened Transactions
  import opened Protocol
  import opened ProtocolKeeps
  import opened ProtocolTheorems
  import opened MoneySafety
  import S = Saga

  // ---------------------------------------------------------------- terms

  predicate ValidTerms(order: Order) { ValidInput(order) && order.amount > 0 }

  /** Every call and every transaction has terms that `requestTransaction` accepts. */
  ghost predicate TermsValid(calls: seq<Call>, txns: seq<Transaction>) {
    && (forall i | 0 <= i < |calls| :: ValidInput(calls[i].order))
    && (forall x | 0 <= x < |txns| :: ValidTerms(txns[x].order))
  }

  lemma SameTermsValid(calls: seq<Call>, txns: seq<Transaction>, txns': seq<Transaction>)
    requires TermsValid(calls, txns) && SameTerms(txns, txns') && |txns'| == |txns|
    ensures TermsValid(calls, txns')
  {
  }

  lemma CallsStepValid(w: World, s: Step)
    requires TermsValid(w.calls, w.t.txns) && Enabled(w, s) && (s.CreateRow? || s.AnnounceRow? || s.BeginCall?)
    ensures TermsValid(Act(w, s).calls, Act(w, s).t.txns)
  {
  }

  lemma ProceedTermsValid(w: World, e: EventId, outcome: Outcome)
    requires TermsValid(w.calls, w.t.txns) && Enabled(w, Proceed(e, outcome))
    ensures TermsValid(ActProceed(w, e, outcome).calls, ActProceed(w, e, outcome).t.txns)
  {
    if w.bus[e].payload.TransactionRequested? {
      SameTermsValid(w.calls, w.t.txns, ActProceed(w, e, outcome).t.txns);
    }
  }

  lemma {:induction false} TermsStayValid(steps: seq<Step>)
    ensures TermsValid(Run(START, steps).calls, Run(START, steps).t.txns)
  {
    if steps != [] {
      var w, s := Run(START, steps[..|steps| - 1]), steps[|steps| - 1];
      TermsStayValid(steps[..|steps| - 1]);
      if Enabled(w, s) {
        match s
        case BeginCall(_, _) => CallsStepValid(w, s);
        case CreateRow(_, _) => CallsStepValid(w, s);
        case AnnounceRow(_, _) => CallsStepValid(w, s);
        case Proceed(e, outcome) => ProceedTermsValid(w, e, outcome);
        case _ =>
      }
    }
  }

  /** A completion event carries the valid terms of its transaction, and its row is an outcome row. */
  lemma CompletedTerms(w: World, e: EventId)
    requires Inv(w) && TermsValid(w.calls, w.t.txns) && e < |w.bus| && w.bus[e].payload.TransactionCompleted?
    ensures ValidTerms(w.bus[e].payload.order)
    ensures w.bus[e].row < |w.t.outbox| && w.t.outbox[w.bus[e].row].payload == w.bus[e].payload
  {
    SideOf(w, e);
    RowAt(w.t.outbox, w.t.txns, w.bus, w.announced, w.concluded, w.bus[e].row);
  }

  // ---------------------------------------------------------------- completed orders name accounts that exist

  predicate SourceNamed(order: Order, n: nat) { order.kind != Deposit && order.source.Some? ==> order.source.value < n }

  predicate TargetNamed(order: Order, n: nat) {
    order.kind != Withdrawal && order.target.Some? ==> order.target.value < n
  }

  /** What the saga has found out by the time it is at a stage. */
  predicate StageNamed(stage: S.Stage, order: Order, n: nat) {
    match stage
    case SourceFunds => SourceNamed(order, n)
    case TargetExists => SourceNamed(order, n)
    case SetCompleted => SourceNamed(order, n) && TargetNamed(order, n)
    case CommitCompleted => SourceNamed(order, n) && TargetNamed(order, n)
    case _ => true
  }

  ghost predicate HandlersNamed(handlers: seq<Handler>, bus: seq<Message>, n: nat)
    requires |handlers| == |bus|
  {
    forall e | 0 <= e < |handlers| :: HandlerNamed(handlers[e], bus[e].payload, n)
  }

  predicate HandlerNamed(h: Handler, p: Payload, n: nat) {
    h.Judging? && p.TransactionRequested? ==> StageNamed(h.stage, p.order, n)
  }

  predicate CompletedNamed(p: Payload, n: nat) {
    p.TransactionCompleted? ==> SourceNamed(p.order, n) && TargetNamed(p.order, n)
  }

  predicate AccountNamed(p: Payload, n: nat) { IsAccountRow(p) ==> p.account < n }

  /** Every account that a projection, a saga past its check, a completed row or a ledger row names
      is in the ledger's table. */
  ghost predicate Named(w: World) {
    var n := |w.c.accounts|;
    && |w.handlers| == |w.bus| && |w.openings| == n
    && (forall a | a in w.t.projections :: a < n)
    && HandlersNamed(w.handlers, w.bus, n)
    && (forall k | 0 <= k < |w.t.outbox| :: CompletedNamed(w.t.outbox[k].payload, n))
    && (forall k | 0 <= k < |w.c.outbox| :: AccountNamed(w.c.outbox[k].payload, n))
  }

  /** The saga commits an outcome it has found out enough for. */
  lemma ConcludeNamed(w: World, e: EventId, outcome: Payload)
    requires Named(w) && e < |w.bus| && CompletedNamed(outcome, |w.c.accounts|)
    ensures Named(w.(t := Conclude(w.t, e, outcome)))
  {
    var rows' := Conclude(w.t, e, outcome).outbox;
    forall k | 0 <= k < |rows'| ensures CompletedNamed(rows'[k].payload, |w.c.accounts|) {
      if k < |w.t.outbox| { assert rows'[k] == w.t.outbox[k]; }
    }
  }

  lemma NextStageNamed(t: TxnDb, e: EventId, txn: TxnId, order: Order, stage: S.Stage, outcome: Outcome, n: nat)
    requires StageNamed(stage, order, n) && forall a | a in t.projections :: a < n
    ensures var move := S.Step(t, e, txn, order, stage, outcome).1; move.Go? ==> StageNamed(move.stage, order, n)
    ensures var move := S.Step(t, e, txn, order, stage, outcome).1;
      move == S.End(false) ==> CompletedNamed(OutcomeOf(stage, txn, order), n)
  {
  }

  lemma StatusNamed(w: World, txn: TxnId, status: Status)
    requires Named(w)
    ensures Named(w.(t := SetStatus(w.t, txn, status)))
  {
  }

  lemma JudgeNamed(w: World, e: EventId, txn: TxnId, order: Order, stage: S.Stage, outcome: Outcome)
    requires Inv(w) && Named(w) && e < |w.bus| && w.bus[e].payload == TransactionRequested(txn, order)
    requires w.handlers[e] == Judging(stage)
    ensures Named(ActJudge(w, e, txn, order, stage, outcome))
  {
    RequestTerms(w, e, txn, order);
    assert HandlerNamed(w.handlers[e], w.bus[e].payload, |w.c.accounts|);
    NextStageNamed(w.t, e, txn, order, stage, outcome, |w.c.accounts|);
    JudgeActs(w, e, txn, order, stage, outcome);
    var (t', move) := S.Step(w.t, e, txn, order, stage, outcome);
    var after := if move.Go? then Judging(move.stage) else Idle;
    if move == S.End(false) {
      ConcludeNamed(w, e, OutcomeOf(stage, txn, order));
      SetHandlerNamed(w.(t := Conclude(w.t, e, OutcomeOf(stage, txn, order))), e, Idle);
    } else if t' == w.t {
      SetHandlerNamed(w, e, after);
    } else {
      var status := if stage == S.SetCompleted then Completed else Rejected;
      StatusNamed(w, txn, status);
      SetHandlerNamed(w.(t := SetStatus(w.t, txn, status)), e, after);
    }
  }

  lemma SetHandlerNamed(w: World, e: EventId, h: Handler)
    requires Named(w) && e < |w.bus| && HandlerNamed(h, w.bus[e].payload, |w.c.accounts|)
    ensures Named(SetHandler(w, e, h))
  {
  }

  lemma ProjectNamed(w: World, e: EventId, account: AccountId, value: int, next: Handler, outcome: Outcome)
    requires Named(w) && e < |w.bus| && account < |w.c.accounts| && !next.Judging?
    ensures Named(ActProject(w, e, account, value, next, outcome))
  {
    SetHandlerNamed(w, e, if outcome == Done then next else Idle);
  }

  lemma MarkNamed(w: World, e: EventId, next: Handler, outcome: Outcome)
    requires Named(w) && e < |w.bus| && !next.Judging?
    ensures Named(ActMark(w, e, next, outcome))
  {
    SetHandlerNamed(w, e, if outcome == Done then next else Idle);
  }

  lemma CreatedNamed(w: World, e: EventId, outcome: Outcome)
    requires Named(w) && Enabled(w, Proceed(e, outcome)) && w.bus[e].payload.AccountCreated?
    requires w.bus[e].payload.account < |w.c.accounts|
    ensures Named(ActProceed(w, e, outcome))
  {
    var p := w.bus[e].payload;
    match w.handlers[e]
    case Seeding => ProjectNamed(w, e, p.account, 0, SeedMarking, outcome);
    case SeedMarking => MarkNamed(w, e, if p.initialBalance > 0 then Queueing else Idle, outcome);
    case _ => SetHandlerNamed(w, e, Idle);
  }

  lemma UpdatedNamed(w: World, e: EventId, outcome: Outcome)
    requires Named(w) && Enabled(w, Proceed(e, outcome)) && w.bus[e].payload.BalanceUpdated?
    requires w.bus[e].payload.account < |w.c.accounts|
    ensures Named(ActProceed(w, e, outcome))
  {
    var p := w.bus[e].payload;
    match w.handlers[e]
    case Updating => ProjectNamed(w, e, p.account, p.newBalance, UpdateMarking, outcome);
    case _ => MarkNamed(w, e, Idle, outcome);
  }

  /** The account an event of the ledger is about is in its table. */
  lemma EventNamed(w: World, e: EventId)
    requires Inv(w) && Named(w) && e < |w.bus| && IsAccountRow(w.bus[e].payload)
    ensures w.bus[e].payload.account < |w.c.accounts|
  {
    SideOf(w, e);
    assert AccountNamed(w.c.outbox[w.bus[e].row].payload, |w.c.accounts|);
  }

  lemma ProceedNamed(w: World, e: EventId, outcome: Outcome)
    requires Inv(w) && Named(w) && Enabled(w, Proceed(e, outcome))
    ensures Named(ActProceed(w, e, outcome))
  {
    match w.bus[e].payload
    case TransactionRequested(txn, order) => JudgeNamed(w, e, txn, order, w.handlers[e].stage, outcome);
    case AccountCreated(_, _) =>
      EventNamed(w, e);
      CreatedNamed(w, e, outcome);
    case BalanceUpdated(_, _, _, _) =>
      EventNamed(w, e);
      UpdatedNamed(w, e, outcome);
    case _ =>
  }

  /** A row that a delivery adds is about an account of its order, which exists, and carries the
      balance the delivery leaves it. */
  lemma NewRowShowsBalance(c: CustomerDb, e: EventId, txn: TxnId, order: Order, outcome: Outcome, k: nat)
    requires ValidInput(order)
    requires |c.outbox| <= k < |Apply(c, e, txn, order, outcome).0.outbox|
    ensures var c' := Apply(c, e, txn, order, outcome).0;
      var p := c'.outbox[k].payload;
      && p.BalanceUpdated? && p.account < |c'.accounts| == |c.accounts|
      && p.newBalance == c'.accounts[p.account].balance
      && p.txn == txn && c'.outbox[k].cause == Some(e)
      && (order.source == Some(p.account) || order.target == Some(p.account))
  {
  }

  /** The rows a delivery adds: none without an effect; with one, a row for each account the order has,
      the source first, from the balance it had to the balance it is left with. */
  lemma AppliedRows(c: CustomerDb, e: EventId, txn: TxnId, order: Order, outcome: Outcome)
    requires ValidInput(order)
    ensures var c' := Apply(c, e, txn, order, outcome).0;
      if c'.effects == c.effects then c'.outbox == c.outbox && c'.accounts == c.accounts
      else
        var source := if order.kind == Deposit then [] else
          var had := BalanceIn(c.accounts, order.source.value);
          [OutboxRow(BalanceUpdated(order.source.value, had, had - order.amount, txn), Some(e))];
        var target := if order.kind == Withdrawal then [] else
          var had := BalanceIn(c.accounts, order.target.value);
          [OutboxRow(BalanceUpdated(order.target.value, had, had + order.amount, txn), Some(e))];
        c'.outbox == c.outbox + source + target
  {
    assert c.effects + [Effect(e, txn, order)] != c.effects by {
      assert |c.effects + [Effect(e, txn, order)]| != |c.effects|;
    }
  }

  lemma CompleteNamed(w: World, e: EventId, outcome: Outcome)
    requires Inv(w) && TermsValid(w.calls, w.t.txns) && Named(w) && Enabled(w, Complete(e, outcome))
    ensures Named(Act(w, Complete(e, outcome)))
  {
    var p := w.bus[e].payload;
    var c' := Apply(w.c, e, p.txn, p.order, outcome).0;
    CompletedTerms(w, e);
    ApplyMeans(w.c, e, p.txn, p.order, outcome);
    forall k | 0 <= k < |c'.outbox| ensures AccountNamed(c'.outbox[k].payload, |c'.accounts|) {
      if k < |w.c.outbox| {
        assert c'.outbox[k] == w.c.outbox[k];
      } else {
        NewRowShowsBalance(w.c, e, p.txn, p.order, outcome, k);
      }
    }
  }

  /** A longer table names no less. */
  lemma OpenNamed(w: World, initialBalance: int)
    requires Named(w)
    ensures Named(Act(w, OpenAccount(initialBalance)))
  {
    var n := |w.c.accounts|;
    forall e | 0 <= e < |w.handlers| ensures HandlerNamed(w.handlers[e], w.bus[e].payload, n + 1) {
      assert HandlerNamed(w.handlers[e], w.bus[e].payload, n);
    }
    forall k | 0 <= k < |w.t.outbox| ensures CompletedNamed(w.t.outbox[k].payload, n + 1) {
      assert CompletedNamed(w.t.outbox[k].payload, n);
    }
    forall k | 0 <= k < |w.c.outbox| ensures AccountNamed(w.c.outbox[k].payload, n + 1) {
      assert AccountNamed(w.c.outbox[k].payload, n);
    }
  }

  lemma PublishNamed(w: World, side: Side, row: nat)
    requires Named(w) && Enabled(w, Publish(side, row))
    ensures Named(Act(w, Publish(side, row)))
  {
  }

  lemma AnnouncementNamed(w: World, s: Step)
    requires Named(w) && Enabled(w, s) && (s.AnnounceAccount? || s.AnnounceRow?)
    ensures Named(Act(w, s))
  {
  }

  lemma OthersNamed(w: World, s: Step)
    requires Named(w) && Enabled(w, s) && (s.SetActive? || s.BeginCall? || s.CreateRow?)
    ensures Named(Act(w, s))
  {
  }

  lemma StepNamed(w: World, s: Step)
    requires Inv(w) && TermsValid(w.calls, w.t.txns) && Named(w) && Enabled(w, s)
    ensures Named(Act(w, s))
  {
    match s
    case OpenAccount(initialBalance) => OpenNamed(w, initialBalance);
    case AnnounceAccount(_) => AnnouncementNamed(w, s);
    case AnnounceRow(_, _) => AnnouncementNamed(w, s);
    case Publish(side, row) => PublishNamed(w, side, row);
    case Deliver(e) => SetHandlerNamed(w, e, FirstCall(w.bus[e].payload));
    case Proceed(e, outcome) => ProceedNamed(w, e, outcome);
    case Crash(e) => SetHandlerNamed(w, e, Idle);
    case Complete(e, outcome) => CompleteNamed(w, e, outcome);
    case _ => OthersNamed(w, s);
  }

  lemma {:induction false} NamesExist(steps: seq<Step>)
    ensures Named(Run(START, steps))
  {
    if steps != [] {
      var w, s := Run(START, steps[..|steps| - 1]), steps[|steps| - 1];
      NamesExist(steps[..|steps| - 1]);
      Reachable(steps[..|steps| - 1]);
      TermsStayValid(steps[..|steps| - 1]);
      if Enabled(w, s) { StepNamed(w, s); }
    }
  }

  /** In every run the accounts of a completed order exist in the ledger, and its terms are valid: the
      saga has found them projected, and only accounts of the ledger are projected. */
  lemma CompletedAccountsExist(steps: seq<Step>, k: nat)
    requires var rows := Run(START, steps).t.outbox; k < |rows| && rows[k].payload.TransactionCompleted?
    ensures var w := Run(START, steps);
      var order := w.t.outbox[k].payload.order;
      && ValidTerms(order)
      && (order.kind != Deposit ==> order.source.value < |w.c.accounts|)
      && (order.kind != Withdrawal ==> order.target.value < |w.c.accounts|)
  {
    var w := Run(START, steps);
    Reachable(steps);
    TermsStayValid(steps);
    NamesExist(steps);
    RowAt(w.t.outbox, w.t.txns, w.bus, w.announced, w.concluded, k);
    assert CompletedNamed(w.t.outbox[k].payload, |w.c.accounts|);
  }

  // ---------------------------------------------------------------- when a delivery applies its order

  /** The order's source is active and holds `need`, and its target is active. */
  predicate Covered(accounts: seq<Account>, order: Order, need: int)
    requires ValidInput(order)
  {
    && (order.kind != Deposit ==>
          && order.source.value < |accounts| && accounts[order.source.value].active
          && accounts[order.source.value].balance >= need)
    && (order.kind != Withdrawal ==> order.target.value < |accounts| && accounts[order.target.value].active)
  }

  /** When a fault-free delivery of a completed transaction changes balances, when it is marked
      without doing so, and when it throws and will come back. */
  lemma AppliedWhen(c: CustomerDb, e: EventId, txn: TxnId, order: Order)
    requires e !in c.processed && ValidTerms(order) && NonNegative(c.accounts)
    ensures var (c', threw) := Apply(c, e, txn, order, Done);
      var covered := Covered(c.accounts, order, order.amount);
      && (c'.effects != c.effects <==> covered)
      && (threw <==> order.kind == Transfer && !covered)
      && (e in c'.processed && c'.effects == c.effects <==> order.kind != Transfer && !covered)
  {
    assert c.effects + [Effect(e, txn, order)] != c.effects by {
      assert |c.effects + [Effect(e, txn, order)]| != |c.effects|;
    }
  }

  predicate AllActive(accounts: seq<Account>) { forall a | 0 <= a < |accounts| :: accounts[a].active }

  /** Nobody has taken an account out of service by hand; the services never do. */
  predicate NoDeactivation(steps: seq<Step>) {
    steps == [] ||
    var s := steps[|steps| - 1];
    NoDeactivation(steps[..|steps| - 1]) && (s.SetActive? ==> s.active)
  }

  lemma ApplyKeepsActive(c: CustomerDb, e: EventId, txn: TxnId, order: Order, outcome: Outcome)
    requires AllActive(c.accounts)
    ensures AllActive(Apply(c, e, txn, order, outcome).0.accounts)
  {
  }

  lemma {:induction false} AccountsStayActive(steps: seq<Step>)
    requires NoDeactivation(steps)
    ensures AllActive(Run(START, steps).c.accounts)
  {
    if steps != [] {
      var w, s := Run(START, steps[..|steps| - 1]), steps[|steps| - 1];
      AccountsStayActive(steps[..|steps| - 1]);
      if Enabled(w, s) && s.Complete? {
        ApplyKeepsActive(w.c, s.e, w.bus[s.e].payload.txn, w.bus[s.e].payload.order, s.outcome);
      }
    }
  }

  /** In every run without a deactivation, a fault-free delivery of a completed transaction applies it
      exactly if its source holds the amount; otherwise a withdrawal is marked without effect, and a
      transfer throws. A deposit is always applied. */
  lemma DeliveredWhen(steps: seq<Step>, e: EventId)
    requires NoDeactivation(steps)
    requires var w := Run(START, steps);
      e < |w.bus| && w.bus[e].payload.TransactionCompleted? && e !in w.c.processed
    ensures var c, p := Run(START, steps).c, Run(START, steps).bus[e].payload;
      var (c', threw) := Apply(c, e, p.txn, p.order, Done);
      && ValidTerms(p.order) && (p.order.kind != Deposit ==> p.order.source.value < |c.accounts|)
      && var short := p.order.kind != Deposit && c.accounts[p.order.source.value].balance < p.order.amount;
      && (c'.effects != c.effects <==> !short)
      && (threw <==> p.order.kind == Transfer && short)
      && (e in c'.processed && c'.effects == c.effects <==> p.order.kind == Withdrawal && short)
  {
    var w := Run(START, steps);
    Reachable(steps);
    TermsStayValid(steps);
    CompletedTerms(w, e);
    CompletedAccountsExist(steps, w.bus[e].row);
    AccountsStayActive(steps);
    AppliedWhen(w.c, e, w.bus[e].payload.txn, w.bus[e].payload.order);
  }

  predicate HasEffect(effects: seq<Effect>, e: EventId) { exists i :: 0 <= i < |effects| && effects[i].event == e }

  lemma EffectsGrow(effects: seq<Effect>, effects': seq<Effect>, e: EventId)
    requires effects <= effects' && HasEffect(effects, e)
    ensures HasEffect(effects', e)
  {
    var i :| 0 <= i < |effects| && effects[i].event == e;
    assert effects'[i] == effects[i];
  }

  /** Every marked event has its effect or is a withdrawal. */
  ghost predicate AppliedOrWithdrawal(c: CustomerDb, bus: seq<Message>) {
    forall e | e in c.processed :: MarkedRight(c.effects, bus, e)
  }

  ghost predicate MarkedRight(effects: seq<Effect>, bus: seq<Message>, e: EventId) {
    && e < |bus| && bus[e].payload.TransactionCompleted?
    && (bus[e].payload.order.kind != Withdrawal ==> HasEffect(effects, e))
  }

  lemma CompleteApplies(w: World, steps: seq<Step>, e: EventId, outcome: Outcome)
    requires w == Run(START, steps) && NoDeactivation(steps) && Enabled(w, Complete(e, outcome))
    requires AppliedOrWithdrawal(w.c, w.bus)
    ensures AppliedOrWithdrawal(Act(w, Complete(e, outcome)).c, w.bus)
  {
    var p := w.bus[e].payload;
    var c' := Apply(w.c, e, p.txn, p.order, outcome).0;
    ApplyMeans(w.c, e, p.txn, p.order, outcome);
    forall f | f in c'.processed ensures MarkedRight(c'.effects, w.bus, f) {
      if f in w.c.processed {
        if HasEffect(w.c.effects, f) { EffectsGrow(w.c.effects, c'.effects, f); }
      } else {
        DeliveredWhen(steps, e);
        if p.order.kind != Withdrawal { assert c'.effects[|w.c.effects|].event == e; }
      }
    }
  }

  /** So in every run without a deactivation every completed deposit or transfer whose event is marked
      has its effect; the only completed transactions that are never applied are withdrawals that were
      short when they were delivered, and transfers that keep throwing. */
  lemma {:induction false} MarkedMeansApplied(steps: seq<Step>)
    requires NoDeactivation(steps)
    ensures AppliedOrWithdrawal(Run(START, steps).c, Run(START, steps).bus)
  {
    if steps != [] {
      var before := steps[..|steps| - 1];
      var w, s := Run(START, before), steps[|steps| - 1];
      MarkedMeansApplied(before);
      if Enabled(w, s) {
        if s.Complete? {
          CompleteApplies(w, before, s.e, s.outcome);
        } else {
          BusGrows(w, s);
          forall e | e in Next(w, s).c.processed ensures MarkedRight(Next(w, s).c.effects, Next(w, s).bus, e) {
            assert MarkedRight(w.c.effects, w.bus, e);
          }
        }
      }
    }
  }

  // ---------------------------------------------------------------- marked without effect is for good

  /** An event that is marked and has no effect never gets one. */
  lemma {:induction false} StaysWithout(w: World, e: EventId, more: seq<Step>)
    requires e in w.c.processed && !HasEffect(w.c.effects, e)
    ensures e in Run(w, more).c.processed && !HasEffect(Run(w, more).c.effects, e)
  {
    if more != [] {
      var w1, s := Run(w, more[..|more| - 1]), more[|more| - 1];
      StaysWithout(w, e, more[..|more| - 1]);
      if Enabled(w1, s) && s.Complete? {
        var p := w1.bus[s.e].payload;
        ApplyMeans(w1.c, s.e, p.txn, p.order, s.outcome);
        assert forall i | 0 <= i < |w1.c.effects| :: w1.c.effects[i].event != e;
      }
    }
  }

  /** A completed transaction whose event is marked without effect is never applied in any later run,
      unless one of its own rows is published again. */
  lemma NeverApplied(steps: seq<Step>, more: seq<Step>, x: TxnId, e: EventId, i: nat)
    requires var w := Run(START, steps);
      e < |w.bus| && IsAbout(w.bus[e].payload, CompletionRow, x) && e in w.c.processed && !HasEffect(w.c.effects, e)
    requires OnceFor(Run(START, steps + more).bus, x) && i < |Run(START, steps + more).c.effects|
    ensures Run(START, steps + more).c.effects[i].txn != x
  {
    var w, w' := Run(START, steps), Run(START, steps + more);
    RunSplit(START, steps, more);
    StaysWithout(w, e, more);
    Reachable(steps + more);
    BusOnlyGrows(w, more);
    EffectAt(w'.c.effects, w'.bus, i);
    if w'.c.effects[i].txn == x { OneCompletionEvent(w', x, w'.c.effects[i].event, e); }
  }

  lemma {:induction false} BusOnlyGrows(w: World, more: seq<Step>)
    ensures w.bus <= Run(w, more).bus
  {
    if more != [] {
      BusOnlyGrows(w, more[..|more| - 1]);
      BusGrows(Run(w, more[..|more| - 1]), more[|more| - 1]);
    }
  }
}
