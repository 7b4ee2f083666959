/** Every step of the machine keeps its invariant. */
module ProtocolKeeps {
  import opened Options
  import opened Banking
  import opened Ledger
  import opened Transactions
  import opened Projections
  import opened Protocol
  import S = Saga

  // ---------------------------------------------------------------- reading the invariant

  lemma {:induction false} RowAt(rows: seq<OutboxRow>, txns: seq<Transaction>, bus: seq<Message>,
                                 announced: seq<Option<nat>>, concluded: seq<Option<nat>>, k: nat)
    requires RowsOk(rows, txns, bus, announced, concluded) && k < |rows|
    ensures RowOk(k, rows[k], txns, bus, announced, concluded)
  {
    if k < |rows| - 1 { RowAt(rows[..|rows| - 1], txns, bus, announced, concluded, k); }
  }

  lemma {:induction false} BusAt(bus: seq<Message>, txnRows: seq<OutboxRow>, customerRows: seq<OutboxRow>, e: EventId)
    requires BusOk(bus, txnRows, customerRows) && e < |bus|
    ensures var rows := if bus[e].side == TxnSide then txnRows else customerRows;
      bus[e].row < |rows| && rows[bus[e].row].payload == bus[e].payload
  {
    if e < |bus| - 1 { BusAt(bus[..|bus| - 1], txnRows, customerRows, e); }
  }

  lemma {:induction false} ConclusionAt(n: nat, bus: seq<Message>, processed: set<EventId>, rows: seq<OutboxRow>,
                                        concluded: seq<Option<nat>>, e: EventId)
    requires n <= |bus| == |concluded| && ConclusionsOk(n, bus, processed, rows, concluded) && e < n
    ensures ConcludedOk(e, bus[e].payload, processed, rows, concluded[e])
  {
    if e < n - 1 { ConclusionAt(n - 1, bus, processed, rows, concluded, e); }
  }

  lemma {:induction false} HandlerAt(n: nat, handlers: seq<Handler>, processed: set<EventId>, e: EventId)
    requires n <= |handlers| && HandlersOk(n, handlers, processed) && e < n
    ensures handlers[e].Judging? ==> e !in processed
  {
    if e < n - 1 { HandlerAt(n - 1, handlers, processed, e); }
  }

  lemma {:induction false} CallAt(calls: seq<Call>, txns: seq<Transaction>, announced: seq<Option<nat>>, i: nat)
    requires CallsOk(calls, txns, announced) && i < |calls|
    ensures CallOk(i, calls[i], txns, announced)
  {
    if i < |calls| - 1 { CallAt(calls[..|calls| - 1], txns, announced, i); }
  }

  lemma {:induction false} EffectAt(effects: seq<Effect>, bus: seq<Message>, i: nat)
    requires EffectsOk(effects, bus) && i < |effects|
    ensures effects[i].event < |bus|
    ensures bus[effects[i].event].payload == TransactionCompleted(effects[i].txn, effects[i].order)
  {
    if i < |effects| - 1 { EffectAt(effects[..|effects| - 1], bus, i); }
  }

  lemma {:induction false} WriteAt(writes: seq<Write>, rows: seq<OutboxRow>, i: nat)
    requires WritesOk(writes, rows) && i < |writes|
    ensures WriteOk(writes[i], rows)
  {
    if i < |writes| - 1 { WriteAt(writes[..|writes| - 1], rows, i); }
  }

  // ---------------------------------------------------------------- growth

  lemma RowKept(k: nat, row: OutboxRow, txns: seq<Transaction>, bus: seq<Message>,
                announced: seq<Option<nat>>, concluded: seq<Option<nat>>,
                txns': seq<Transaction>, bus': seq<Message>,
                announced': seq<Option<nat>>, concluded': seq<Option<nat>>)
    requires RowOk(k, row, txns, bus, announced, concluded)
    requires SameTerms(txns, txns') && bus <= bus' && Extends(announced, announced') && Extends(concluded, concluded')
    ensures RowOk(k, row, txns', bus', announced', concluded')
  {
  }

  lemma {:induction false} RowsKept(rows: seq<OutboxRow>, txns: seq<Transaction>, bus: seq<Message>,
                                    announced: seq<Option<nat>>, concluded: seq<Option<nat>>,
                                    txns': seq<Transaction>, bus': seq<Message>,
                                    announced': seq<Option<nat>>, concluded': seq<Option<nat>>)
    requires RowsOk(rows, txns, bus, announced, concluded)
    requires SameTerms(txns, txns') && bus <= bus' && Extends(announced, announced') && Extends(concluded, concluded')
    ensures RowsOk(rows, txns', bus', announced', concluded')
  {
    if rows != [] {
      var n := |rows| - 1;
      RowsKept(rows[..n], txns, bus, announced, concluded, txns', bus', announced', concluded');
      RowKept(n, rows[n], txns, bus, announced, concluded, txns', bus', announced', concluded');
    }
  }

  lemma {:induction false} BusKept(bus: seq<Message>, txnRows: seq<OutboxRow>, customerRows: seq<OutboxRow>,
                                   txnRows': seq<OutboxRow>, customerRows': seq<OutboxRow>)
    requires BusOk(bus, txnRows, customerRows) && txnRows <= txnRows' && customerRows <= customerRows'
    ensures BusOk(bus, txnRows', customerRows')
  {
    if bus != [] { BusKept(bus[..|bus| - 1], txnRows, customerRows, txnRows', customerRows'); }
  }

  lemma {:induction false} WritesKept(writes: seq<Write>, rows: seq<OutboxRow>, rows': seq<OutboxRow>)
    requires WritesOk(writes, rows) && rows <= rows'
    ensures WritesOk(writes, rows')
  {
    if writes != [] { WritesKept(writes[..|writes| - 1], rows, rows'); }
  }

  lemma {:induction false} EffectsKept(effects: seq<Effect>, bus: seq<Message>, bus': seq<Message>)
    requires EffectsOk(effects, bus) && bus <= bus'
    ensures EffectsOk(effects, bus')
  {
    if effects != [] { EffectsKept(effects[..|effects| - 1], bus, bus'); }
  }

  /** Calls keep their transaction as long as no other call's is announced. */
  lemma {:induction false} CallsKept(calls: seq<Call>, txns: seq<Transaction>, announced: seq<Option<nat>>,
                                     txns': seq<Transaction>, announced': seq<Option<nat>>)
    requires CallsOk(calls, txns, announced) && SameTerms(txns, txns') && announced <= announced'
    ensures CallsOk(calls, txns', announced')
  {
    if calls != [] { CallsKept(calls[..|calls| - 1], txns, announced, txns', announced'); }
  }

  /** ... which its own call does, and then it is done. */
  lemma {:induction false} CallsAfterAnnounce(calls: seq<Call>, txns: seq<Transaction>, announced: seq<Option<nat>>,
                                              i: nat, k: nat)
    requires CallsOk(calls, txns, announced) && i < |calls| && calls[i].phase.Announcing?
    requires calls[i].phase.txn < |announced| && calls[i].phase.txn < |txns| && txns[calls[i].phase.txn].creator == i
    ensures CallsOk(calls[i := calls[i].(phase := Ended)], txns, announced[calls[i].phase.txn := Some(k)])
  {
    var n := |calls| - 1;
    var ended := calls[i].(phase := Ended);
    var announced' := announced[calls[i].phase.txn := Some(k)];
    if i == n {
      OtherCalls(calls[..n], txns, announced, calls[i].phase.txn, k);
      assert calls[i := ended][..n] == calls[..n];
    } else {
      CallsAfterAnnounce(calls[..n], txns, announced, i, k);
      assert calls[i := ended][..n] == calls[..n][i := ended];
    }
  }

  lemma {:induction false} OtherCalls(calls: seq<Call>, txns: seq<Transaction>, announced: seq<Option<nat>>,
                                      x: TxnId, k: nat)
    requires CallsOk(calls, txns, announced) && x < |announced| && x < |txns| && txns[x].creator >= |calls|
    ensures CallsOk(calls, txns, announced[x := Some(k)])
  {
    if calls != [] { OtherCalls(calls[..|calls| - 1], txns, announced, x, k); }
  }

  lemma {:induction false} ReplaceCall(calls: seq<Call>, txns: seq<Transaction>, announced: seq<Option<nat>>,
                                       i: nat, call: Call)
    requires CallsOk(calls, txns, announced) && i < |calls| && CallOk(i, call, txns, announced)
    ensures CallsOk(calls[i := call], txns, announced)
  {
    var n := |calls| - 1;
    if i == n {
      assert calls[i := call][..n] == calls[..n];
    } else {
      ReplaceCall(calls[..n], txns, announced, i, call);
      assert calls[i := call][..n] == calls[..n][i := call];
    }
  }

  lemma AddCall(calls: seq<Call>, txns: seq<Transaction>, announced: seq<Option<nat>>, call: Call)
    requires CallsOk(calls, txns, announced) && call.phase.Creating?
    ensures CallsOk(calls + [call], txns, announced)
  {
    assert (calls + [call])[..|calls|] == calls;
  }

  lemma {:induction false} ReplaceHandler(n: nat, handlers: seq<Handler>, processed: set<EventId>, e: EventId,
                                          h: Handler)
    requires n <= |handlers| && HandlersOk(n, handlers, processed) && e < |handlers|
    requires h.Judging? ==> e !in processed
    ensures HandlersOk(n, handlers[e := h], processed)
  {
    if n > 0 { ReplaceHandler(n - 1, handlers, processed, e, h); }
  }

  /** Marking an event only concerns its own handler. */
  lemma {:induction false} HandlersAfterMark(n: nat, handlers: seq<Handler>, processed: set<EventId>, e: EventId)
    requires n <= |handlers| && HandlersOk(n, handlers, processed)
    requires e < n ==> !handlers[e].Judging?
    ensures HandlersOk(n, handlers, processed + {e})
  {
    if n > 0 { HandlersAfterMark(n - 1, handlers, processed, e); }
  }

  lemma {:induction false} HandlersPrefix(n: nat, handlers: seq<Handler>, processed: set<EventId>,
                                          handlers': seq<Handler>)
    requires n <= |handlers| && HandlersOk(n, handlers, processed) && handlers <= handlers'
    ensures HandlersOk(n, handlers', processed)
  {
    if n > 0 { HandlersPrefix(n - 1, handlers, processed, handlers'); }
  }

  /** The outcome rows already there stay the events' outcomes when rows, events or marks of other
      kinds of event are added. */
  lemma {:induction false} ConclusionsKept(n: nat, bus: seq<Message>, processed: set<EventId>, rows: seq<OutboxRow>,
                                           concluded: seq<Option<nat>>, bus': seq<Message>, processed': set<EventId>,
                                           rows': seq<OutboxRow>, concluded': seq<Option<nat>>)
    requires n <= |bus| == |concluded| && ConclusionsOk(n, bus, processed, rows, concluded)
    requires |bus'| == |concluded'| && bus <= bus' && rows <= rows'
    requires concluded <= concluded' && processed <= processed'
    requires forall e | e in processed' - processed :: e < |bus| && !bus[e].payload.TransactionRequested?
    ensures ConclusionsOk(n, bus', processed', rows', concluded')
  {
    if n > 0 {
      ConclusionsKept(n - 1, bus, processed, rows, concluded, bus', processed', rows', concluded');
      if n - 1 in processed' && n - 1 !in processed { assert n - 1 in processed' - processed; }
    }
  }

  /** Concluding an event concerns only that event. */
  lemma {:induction false} ConclusionAdded(n: nat, bus: seq<Message>, processed: set<EventId>, rows: seq<OutboxRow>,
                                           concluded: seq<Option<nat>>, e: EventId, row: OutboxRow)
    requires n <= |bus| == |concluded| && ConclusionsOk(n, bus, processed, rows, concluded)
    requires e < |bus| && bus[e].payload.TransactionRequested? && row.cause == Some(e)
    ensures ConclusionsOk(n, bus, processed + {e}, rows + [row], concluded[e := Some(|rows|)])
  {
    if n > 0 { ConclusionAdded(n - 1, bus, processed, rows, concluded, e, row); }
  }

  // ---------------------------------------------------------------- the steps

  lemma SameTermsStatus(t: TxnDb, txn: TxnId, status: Status)
    ensures SameTerms(t.txns, SetStatus(t, txn, status).txns)
    ensures KeysUnique(t.txns) ==> KeysUnique(SetStatus(t, txn, status).txns)
  {
    if KeysUnique(t.txns) { KeysSameTerms(t.txns, SetStatus(t, txn, status).txns); }
  }

  lemma {:induction false} KeysSameTerms(a: seq<Transaction>, b: seq<Transaction>)
    requires KeysUnique(a) && |a| == |b| && SameTerms(a, b)
    ensures KeysUnique(b)
  {
    if a != [] {
      var n := |a| - 1;
      KeysSameTerms(a[..n], b[..n]);
      forall x | 0 <= x < n ensures b[..n][x].key != b[n].key {
        assert a[..n][x].key != a[n].key;
      }
    }
  }

  lemma StepStatus(w: World, txn: TxnId, status: Status, e: EventId, h: Handler)
    requires Inv(w) && e < |w.handlers| && (h.Judging? ==> e !in w.t.processed)
    ensures Inv(SetHandler(w.(t := SetStatus(w.t, txn, status)), e, h))
  {
    var t' := SetStatus(w.t, txn, status);
    SameTermsStatus(w.t, txn, status);
    RowsKept(w.t.outbox, w.t.txns, w.bus, w.announced, w.concluded, t'.txns, w.bus, w.announced, w.concluded);
    CallsKept(w.calls, w.t.txns, w.announced, t'.txns, w.announced);
    ReplaceHandler(|w.handlers|, w.handlers, w.t.processed, e, h);
  }

  lemma StepHandler(w: World, e: EventId, h: Handler)
    requires Inv(w) && e < |w.handlers| && (h.Judging? ==> e !in w.t.processed)
    ensures Inv(SetHandler(w, e, h))
  {
    ReplaceHandler(|w.handlers|, w.handlers, w.t.processed, e, h);
  }

  /** The handler of `e` commits its outcome: the rows stay right, ... */
  lemma ConcludeRows(w: World, e: EventId, txn: TxnId, order: Order, outcome: Payload)
    requires Inv(w) && e < |w.bus| && e !in w.t.processed && w.bus[e].payload == TransactionRequested(txn, order)
    requires IsOutcome(outcome) && outcome.txn == txn && outcome.order == order
    requires txn < |w.t.txns| && w.t.txns[txn].order == order
    ensures RowsOk(w.t.outbox + [OutboxRow(outcome, Some(e))], w.t.txns, w.bus, w.announced,
                   w.concluded[e := Some(|w.t.outbox|)])
  {
    var n := |w.t.outbox|;
    var rows', concluded' := w.t.outbox + [OutboxRow(outcome, Some(e))], w.concluded[e := Some(n)];
    ConclusionAt(|w.bus|, w.bus, w.t.processed, w.t.outbox, w.concluded, e);
    RowsKept(w.t.outbox, w.t.txns, w.bus, w.announced, w.concluded, w.t.txns, w.bus, w.announced, concluded');
    assert RowOk(n, rows'[n], w.t.txns, w.bus, w.announced, concluded');
    assert rows'[..n] == w.t.outbox;
  }

  /** ... and so does everything else. */
  lemma StepConclude(w: World, e: EventId, txn: TxnId, order: Order, outcome: Payload)
    requires Inv(w) && e < |w.bus| && e !in w.t.processed && w.bus[e].payload == TransactionRequested(txn, order)
    requires IsOutcome(outcome) && outcome.txn == txn && outcome.order == order
    requires txn < |w.t.txns| && w.t.txns[txn].order == order
    ensures var w' := w.(t := Conclude(w.t, e, outcome), concluded := w.concluded[e := Some(|w.t.outbox|)]);
      Inv(SetHandler(w', e, Idle))
  {
    ConcludeRows(w, e, txn, order, outcome);
    ConclusionAdded(|w.bus|, w.bus, w.t.processed, w.t.outbox, w.concluded, e, OutboxRow(outcome, Some(e)));
    BusKept(w.bus, w.t.outbox, w.c.outbox, Conclude(w.t, e, outcome).outbox, w.c.outbox);
    ReplaceHandler(|w.handlers|, w.handlers, w.t.processed, e, Idle);
    HandlersAfterMark(|w.handlers|, w.handlers[e := Idle], w.t.processed, e);
  }

  /** A request event's row is its transaction's, so the terms in the event are the row's. */
  lemma RequestTerms(w: World, e: EventId, txn: TxnId, order: Order)
    requires Inv(w) && e < |w.bus| && w.bus[e].payload == TransactionRequested(txn, order)
    ensures w.bus[e].side == TxnSide && txn < |w.t.txns| == |w.announced| && w.t.txns[txn].order == order
    ensures w.announced[txn] == Some(w.bus[e].row)
  {
    SideOf(w, e);
    RowAt(w.t.outbox, w.t.txns, w.bus, w.announced, w.concluded, w.bus[e].row);
  }

  /** The outcome that a committing stage writes. */
  function OutcomeOf(stage: S.Stage, txn: TxnId, order: Order): Payload {
    if stage == S.CommitCompleted then TransactionCompleted(txn, order) else TransactionRejected(txn, order)
  }

  /** The three things a call of the saga can come to. */
  lemma JudgeActs(w: World, e: EventId, txn: TxnId, order: Order, stage: S.Stage, outcome: Outcome)
    requires e < |w.handlers| && e < |w.concluded| && txn < |w.t.txns| && w.t.txns[txn].order == order
    ensures var (t', move) := S.Step(w.t, e, txn, order, stage, outcome);
      var after := if move.Go? then Judging(move.stage) else Idle;
      ActJudge(w, e, txn, order, stage, outcome)
        == if move == S.End(false) then
             SetHandler(w.(t := Conclude(w.t, e, OutcomeOf(stage, txn, order)),
                           concluded := w.concluded[e := Some(|w.t.outbox|)]), e, Idle)
           else if t' == w.t then SetHandler(w, e, after)
           else
             SetHandler(w.(t := SetStatus(w.t, txn, if stage == S.SetCompleted then Completed else Rejected)), e, after)
  {
  }

  lemma StepJudge(w: World, e: EventId, txn: TxnId, order: Order, stage: S.Stage, outcome: Outcome)
    requires Inv(w) && e < |w.bus| && w.bus[e].payload == TransactionRequested(txn, order)
    requires w.handlers[e] == Judging(stage)
    ensures Inv(ActJudge(w, e, txn, order, stage, outcome))
  {
    HandlerAt(|w.handlers|, w.handlers, w.t.processed, e);
    RequestTerms(w, e, txn, order);
    JudgeActs(w, e, txn, order, stage, outcome);
    var (t', move) := S.Step(w.t, e, txn, order, stage, outcome);
    var after := if move.Go? then Judging(move.stage) else Idle;
    if move == S.End(false) {
      StepConclude(w, e, txn, order, OutcomeOf(stage, txn, order));
    } else if t' == w.t {
      StepHandler(w, e, after);
    } else {
      StepStatus(w, txn, if stage == S.SetCompleted then Completed else Rejected, e, after);
    }
  }

  lemma StepProject(w: World, e: EventId, account: AccountId, value: int, next: Handler, outcome: Outcome)
    requires Inv(w) && e < |w.bus| && !next.Judging?
    requires w.bus[e].row < |w.c.outbox| && WriteOk(Write(account, value, w.bus[e].row), w.c.outbox)
    ensures Inv(ActProject(w, e, account, value, next, outcome))
  {
    var write := Write(account, value, w.bus[e].row);
    StepHandler(w, e, Idle);
    StepHandler(w, e, next);
    assert (w.t.writes + [write])[..|w.t.writes|] == w.t.writes;
  }

  lemma StepMark(w: World, e: EventId, next: Handler, outcome: Outcome)
    requires Inv(w) && e < |w.bus| && !w.bus[e].payload.TransactionRequested? && !next.Judging?
    ensures Inv(ActMark(w, e, next, outcome))
  {
    var after := if outcome == Done then next else Idle;
    StepHandler(w, e, Idle);
    ReplaceHandler(|w.handlers|, w.handlers, w.t.processed, e, after);
    HandlersAfterMark(|w.handlers|, w.handlers[e := after], w.t.processed, e);
    ConclusionsKept(|w.bus|, w.bus, w.t.processed, w.t.outbox, w.concluded,
                    w.bus, w.t.processed + {e}, w.t.outbox, w.concluded);
  }

  lemma StepQueue(w: World, e: EventId, account: AccountId, initialBalance: int, outcome: Outcome)
    requires Inv(w) && e < |w.bus|
    ensures Inv(ActQueue(w, e, account, initialBalance, outcome))
  {
    StepHandler(w, e, Idle);
    AddCall(w.calls, w.t.txns, w.announced,
            Call(InitialOrder(account, initialBalance), InitialDeposit(account), Creating));
  }

  /** Account events come from the customer service, transaction events from the other. */
  lemma SideOf(w: World, e: EventId)
    requires Inv(w) && e < |w.bus|
    ensures w.bus[e].side == TxnSide ==>
      && w.bus[e].row < |w.t.outbox|
      && w.t.outbox[w.bus[e].row].payload == w.bus[e].payload
    ensures w.bus[e].side == CustomerSide ==>
      && w.bus[e].row < |w.c.outbox|
      && w.c.outbox[w.bus[e].row].payload == w.bus[e].payload
    ensures w.bus[e].side == CustomerSide <==> IsAccountRow(w.bus[e].payload)
  {
    BusAt(w.bus, w.t.outbox, w.c.outbox, e);
    if w.bus[e].side == TxnSide {
      RowAt(w.t.outbox, w.t.txns, w.bus, w.announced, w.concluded, w.bus[e].row);
    } else {
      ChainedAt(w.c.outbox, w.bus[e].row);
    }
  }

  lemma StepProceed(w: World, e: EventId, outcome: Outcome)
    requires Inv(w) && Enabled(w, Proceed(e, outcome))
    ensures Inv(ActProceed(w, e, outcome))
  {
    SideOf(w, e);
    match w.bus[e].payload
    case TransactionRequested(txn, order) => StepJudge(w, e, txn, order, w.handlers[e].stage, outcome);
    case AccountCreated(account, initialBalance) =>
      match w.handlers[e] {
        case Seeding => StepProject(w, e, account, 0, SeedMarking, outcome);
        case SeedMarking => StepMark(w, e, if initialBalance > 0 then Queueing else Idle, outcome);
        case _ => StepQueue(w, e, account, initialBalance, outcome);
      }
    case BalanceUpdated(account, _, newBalance, _) =>
      match w.handlers[e] {
        case Updating => StepProject(w, e, account, newBalance, UpdateMarking, outcome);
        case _ => StepMark(w, e, Idle, outcome);
      }
    case _ =>
  }

  // ---------------------------------------------------------------- accounts and the ledger

  lemma CustomerGrows(w: World, c': CustomerDb)
    requires Inv(w) && LedgerOk(c') && w.c.outbox <= c'.outbox && EffectsOk(c'.effects, w.bus)
    requires Below(c'.processed, |w.bus|)
    ensures Inv(w.(c := c'))
  {
    BusKept(w.bus, w.t.outbox, w.c.outbox, w.t.outbox, c'.outbox);
    WritesKept(w.t.writes, w.c.outbox, c'.outbox);
  }

  lemma StepComplete(w: World, e: EventId, outcome: Outcome)
    requires Inv(w) && Enabled(w, Complete(e, outcome))
    ensures Inv(Act(w, Complete(e, outcome)))
  {
    var txn, order := w.bus[e].payload.txn, w.bus[e].payload.order;
    var c' := Apply(w.c, e, txn, order, outcome).0;
    ApplyKeeps(w.c, e, txn, order, outcome);
    ApplyMeans(w.c, e, txn, order, outcome);
    assert (w.c.effects + [Effect(e, txn, order)])[..|w.c.effects|] == w.c.effects;
    CustomerGrows(w, c');
  }

  lemma StepAccounts(w: World, s: Step)
    requires Inv(w) && Enabled(w, s) && (s.OpenAccount? || s.AnnounceAccount? || s.SetActive?)
    ensures Inv(Act(w, s))
  {
    match s
    case OpenAccount(_) => OpenKeeps(w.c);
    case AnnounceAccount(account) =>
      AnnounceKeeps(w.c, account, w.openings[account].initialBalance);
      CustomerGrows(w, AnnounceOpening(w.c, account, w.openings[account].initialBalance));
    case SetActive(account, active) => ActiveKeeps(w.c, account, active);
  }

  // ---------------------------------------------------------------- requests

  lemma PhaseKeeps(w: World, i: nat, p: Phase)
    requires Inv(w) && i < |w.calls| && CallOk(i, w.calls[i].(phase := p), w.t.txns, w.announced)
    ensures Inv(SetPhase(w, i, p))
  {
    ReplaceCall(w.calls, w.t.txns, w.announced, i, w.calls[i].(phase := p));
  }

  lemma RowCreated(w: World, order: Order, key: Key, creator: nat)
    requires Inv(w) && !KeyTaken(w.t.txns, key)
    ensures Inv(w.(t := Create(w.t, order, key, creator), announced := w.announced + [None]))
  {
    var t' := Create(w.t, order, key, creator);
    var announced' := w.announced + [None];
    RowsKept(w.t.outbox, w.t.txns, w.bus, w.announced, w.concluded, t'.txns, w.bus, announced', w.concluded);
    CallsKept(w.calls, w.t.txns, w.announced, t'.txns, announced');
    assert t'.txns[..|w.t.txns|] == w.t.txns;
  }

  lemma StepCreate(w: World, i: nat, outcome: Outcome)
    requires Inv(w) && Enabled(w, CreateRow(i, outcome))
    ensures Inv(ActCreate(w, i, outcome))
  {
    var call := w.calls[i];
    if outcome == Failed || !CanCreate(w.t, call.order, call.key) {
      PhaseKeeps(w, i, Ended);
    } else {
      RowCreated(w, call.order, call.key, i);
      PhaseKeeps(w.(t := Create(w.t, call.order, call.key, i), announced := w.announced + [None]), i,
                 if outcome == Done then Announcing(|w.t.txns|) else Ended);
    }
  }

  lemma StepAnnounced(w: World, i: nat)
    requires Inv(w) && Enabled(w, AnnounceRow(i, Done))
    ensures Inv(ActAnnounce(w, i, Done))
  {
    var x, k := w.calls[i].phase.txn, |w.t.outbox|;
    var rows' := Announce(w.t, x, w.calls[i].order).outbox;
    CallAt(w.calls, w.t.txns, w.announced, i);
    AnnouncedRows(w.t.outbox, w.t.txns, w.bus, w.announced, w.concluded, x, w.calls[i].order);
    CallsAfterAnnounce(w.calls, w.t.txns, w.announced, i, k);
    BusKept(w.bus, w.t.outbox, w.c.outbox, rows', w.c.outbox);
    ConclusionsKept(|w.bus|, w.bus, w.t.processed, w.t.outbox, w.concluded, w.bus, w.t.processed, rows', w.concluded);
  }

  lemma AnnouncedRows(rows: seq<OutboxRow>, txns: seq<Transaction>, bus: seq<Message>,
                      announced: seq<Option<nat>>, concluded: seq<Option<nat>>, x: TxnId, order: Order)
    requires RowsOk(rows, txns, bus, announced, concluded)
    requires x < |announced| && x < |txns| && txns[x].order == order && announced[x] == None
    ensures RowsOk(rows + [OutboxRow(TransactionRequested(x, order), None)], txns, bus,
                   announced[x := Some(|rows|)], concluded)
  {
    var announced' := announced[x := Some(|rows|)];
    RowsKept(rows, txns, bus, announced, concluded, txns, bus, announced', concluded);
    assert (rows + [OutboxRow(TransactionRequested(x, order), None)])[..|rows|] == rows;
  }

  lemma StepAnnounce(w: World, i: nat, outcome: Outcome)
    requires Inv(w) && Enabled(w, AnnounceRow(i, outcome))
    ensures Inv(ActAnnounce(w, i, outcome))
  {
    if outcome == Done {
      StepAnnounced(w, i);
    } else {
      PhaseKeeps(w, i, Ended);
    }
  }

  lemma PublishRows(w: World, m: Message)
    requires Inv(w)
    ensures RowsOk(w.t.outbox, w.t.txns, w.bus + [m], w.announced, w.concluded + [None])
    ensures EffectsOk(w.c.effects, w.bus + [m])
  {
    RowsKept(w.t.outbox, w.t.txns, w.bus, w.announced, w.concluded, w.t.txns, w.bus + [m], w.announced,
             w.concluded + [None]);
    EffectsKept(w.c.effects, w.bus, w.bus + [m]);
  }

  /** A new event is unmarked, has no outcome and no handler. */
  lemma PublishEvent(w: World, m: Message)
    requires Inv(w)
    ensures ConclusionsOk(|w.bus| + 1, w.bus + [m], w.t.processed, w.t.outbox, w.concluded + [None])
    ensures HandlersOk(|w.bus| + 1, w.handlers + [Idle], w.t.processed)
  {
    ConclusionsKept(|w.bus|, w.bus, w.t.processed, w.t.outbox, w.concluded,
                    w.bus + [m], w.t.processed, w.t.outbox, w.concluded + [None]);
    HandlersPrefix(|w.bus|, w.handlers, w.t.processed, w.handlers + [Idle]);
  }

  lemma StepPublish(w: World, side: Side, row: nat)
    requires Inv(w) && Enabled(w, Publish(side, row))
    ensures Inv(Act(w, Publish(side, row)))
  {
    var m := Message(Outbox(w, side)[row].payload, side, row);
    assert (w.bus + [m])[..|w.bus|] == w.bus;
    PublishRows(w, m);
    PublishEvent(w, m);
  }

  lemma StepKeeps(w: World, s: Step)
    requires Inv(w)
    ensures Inv(Next(w, s))
  {
    if Enabled(w, s) {
      match s
      case OpenAccount(_) => StepAccounts(w, s);
      case AnnounceAccount(_) => StepAccounts(w, s);
      case SetActive(_, _) => StepAccounts(w, s);
      case BeginCall(order, key) => AddCall(w.calls, w.t.txns, w.announced, Call(order, key, Creating));
      case CreateRow(i, outcome) => StepCreate(w, i, outcome);
      case AnnounceRow(i, outcome) => StepAnnounce(w, i, outcome);
      case Publish(side, row) => StepPublish(w, side, row);
      case Deliver(e) => StepHandler(w, e, FirstCall(w.bus[e].payload));
      case Proceed(e, outcome) => StepProceed(w, e, outcome);
      case Crash(e) => StepHandler(w, e, Idle);
      case Complete(e, outcome) => StepComplete(w, e, outcome);
    }
  }

  lemma {:induction false} RunKeeps(w: World, steps: seq<Step>)
    requires Inv(w)
    ensures Inv(Run(w, steps))
  {
    if steps != [] {
      RunKeeps(w, steps[..|steps| - 1]);
      StepKeeps(Run(w, steps[..|steps| - 1]), steps[|steps| - 1]);
    }
  }
}
