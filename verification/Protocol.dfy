/** The two services, their databases and the log between them as one machine. Every database call
    is a step of its own, except that what one BEGIN..COMMIT covers is one step; any handler may
    fail, crash, and be given its event again at any time, but one event is handled by at most one
    handler at a time. An outbox row may be published any number of times, each time as a new
    event. */
module Protocol {
  import opened Options
  import opened Banking
  import opened Ledger
  import opened Transactions
  import opened Projections
  import S = Saga

  datatype Side = TxnSide | CustomerSide

  /** A published event: its payload and the outbox row it was read from. */
  datatype Message = Message(payload: Payload, side: Side, row: nat)

  /** Where the transaction service's handler of an event stands. */
  datatype Handler =
    | Idle
    | Judging(stage: S.Stage)
    | Seeding | SeedMarking | Queueing
    | Updating | UpdateMarking

  datatype Phase = Creating | Announcing(txn: TxnId) | Ended

  /** A request on its way: a client's call, or the initial deposit of a new account. */
  datatype Call = Call(order: Order, key: Key, phase: Phase)

  /** The opening of an account whose row is there: what it asks for, and its `AccountCreated` row
      once that is there too. */
  datatype Opening = Opening(initialBalance: int, row: Option<nat>)

  /** Two history variables: `announced` gives for every transaction the outbox row that requested
      it, `concluded` for every event the outcome row its handling committed. */
  datatype World = World(
    t: TxnDb,
    c: CustomerDb,
    bus: seq<Message>,
    handlers: seq<Handler>,
    calls: seq<Call>,
    openings: seq<Opening>,
    announced: seq<Option<nat>>,
    concluded: seq<Option<nat>>)

  const START := World(NO_TRANSACTIONS, NO_ACCOUNTS, [], [], [], [], [], [])

  /** The two halves of `createAccount`; a status change by hand; the halves of a request; one
      publication of a row; a delivery to the transaction service, the next database call of its
      handler, a crash of that handler; and a delivery of a completed transaction to the ledger. */
  datatype Step =
    | OpenAccount(initialBalance: int)
    | AnnounceAccount(account: AccountId)
    | SetActive(account: AccountId, active: bool)
    | BeginCall(order: Order, key: Key)
    | CreateRow(i: nat, outcome: Outcome)
    | AnnounceRow(i: nat, outcome: Outcome)
    | Publish(side: Side, row: nat)
    | Deliver(e: EventId)
    | Proceed(e: EventId, outcome: Outcome)
    | Crash(e: EventId)
    | Complete(e: EventId, outcome: Outcome)

  function Outbox(w: World, side: Side): seq<OutboxRow> {
    match side
    case TxnSide => w.t.outbox
    case CustomerSide => w.c.outbox
  }

  /** The first call of a handler that found its event unprocessed. */
  function FirstCall(p: Payload): Handler {
    match p
    case TransactionRequested(_, order) => Judging(S.FirstStage(order))
    case AccountCreated(_, _) => Seeding
    case BalanceUpdated(_, _, _, _) => Updating
    case _ => Idle
  }

  /** Does the transaction service handle this kind of event, in this state? */
  predicate Handles(p: Payload, h: Handler) {
    match h
    case Idle => false
    case Judging(_) => p.TransactionRequested?
    case Seeding => p.AccountCreated?
    case SeedMarking => p.AccountCreated?
    case Queueing => p.AccountCreated?
    case Updating => p.BalanceUpdated?
    case UpdateMarking => p.BalanceUpdated?
  }

  /** Can this step happen now? The bounds on the history sequences hold in every reachable world. */
  predicate Enabled(w: World, s: Step) {
    match s
    case OpenAccount(_) => true
    case AnnounceAccount(account) => account < |w.openings| && w.openings[account].row.None?
    case SetActive(account, _) => account < |w.c.accounts|
    case BeginCall(order, key) => ValidInput(order) && !KeyTaken(w.t.txns, key)
    case CreateRow(i, _) => i < |w.calls| && w.calls[i].phase.Creating?
    case AnnounceRow(i, _) =>
      i < |w.calls| && w.calls[i].phase.Announcing? && w.calls[i].phase.txn < |w.announced|
    case Publish(side, row) => row < |Outbox(w, side)|
    case Deliver(e) => e < |w.bus| && e < |w.handlers| && w.handlers[e] == Idle && e !in w.t.processed
    case Proceed(e, _) =>
      e < |w.bus| && e < |w.handlers| && e < |w.concluded| && Handles(w.bus[e].payload, w.handlers[e])
    case Crash(e) => e < |w.handlers|
    case Complete(e, _) => e < |w.bus| && w.bus[e].payload.TransactionCompleted?
  }

  function SetHandler(w: World, e: EventId, h: Handler): World
    requires e < |w.handlers|
  {
    w.(handlers := w.handlers[e := h])
  }

  function SetPhase(w: World, i: nat, p: Phase): World
    requires i < |w.calls|
  {
    w.(calls := w.calls[i := w.calls[i].(phase := p)])
  }

  function ActCreate(w: World, i: nat, outcome: Outcome): World
    requires Enabled(w, CreateRow(i, outcome))
  {
    var call := w.calls[i];
    if outcome == Failed || !CanCreate(w.t, call.order, call.key) then SetPhase(w, i, Ended)
    else
      SetPhase(w.(t := Create(w.t, call.order, call.key, i), announced := w.announced + [None]), i,
               if outcome == Done then Announcing(|w.t.txns|) else Ended)
  }

  function ActAnnounce(w: World, i: nat, outcome: Outcome): World
    requires Enabled(w, AnnounceRow(i, outcome))
  {
    var call := w.calls[i];
    if outcome != Done then SetPhase(w, i, Ended)
    else
      SetPhase(w.(t := Announce(w.t, call.phase.txn, call.order),
                  announced := w.announced[call.phase.txn := Some(|w.t.outbox|)]), i, Ended)
  }

  /** The next call of the saga; the last one may have committed an outcome row. */
  function ActJudge(w: World, e: EventId, txn: TxnId, order: Order, stage: S.Stage, outcome: Outcome): World
    requires e < |w.handlers| && e < |w.concluded|
  {
    var (t', move) := S.Step(w.t, e, txn, order, stage, outcome);
    var after := if move.Go? then Judging(move.stage) else Idle;
    SetHandler(w.(t := t', concluded :=
      if move == S.End(false) then w.concluded[e := Some(|w.t.outbox|)] else w.concluded), e, after)
  }

  /** The next call of a projection handler. */
  function ActProject(w: World, e: EventId, account: AccountId, value: int, next: Handler, outcome: Outcome): World
    requires e < |w.handlers| && e < |w.bus|
  {
    if outcome == Failed then SetHandler(w, e, Idle)
    else
      SetHandler(w.(t := Upsert(w.t, account, value, w.bus[e].row)), e, if outcome == Done then next else Idle)
  }

  function ActMark(w: World, e: EventId, next: Handler, outcome: Outcome): World
    requires e < |w.handlers|
  {
    if outcome == Failed then SetHandler(w, e, Idle)
    else SetHandler(w.(t := Transactions.Mark(w.t, e)), e, if outcome == Done then next else Idle)
  }

  /** The initial deposit becomes a call of its own; its event is marked already. */
  function ActQueue(w: World, e: EventId, account: AccountId, initialBalance: int, outcome: Outcome): World
    requires e < |w.handlers|
  {
    if outcome != Done || KeyTaken(w.t.txns, InitialDeposit(account)) then SetHandler(w, e, Idle)
    else
      var call := Call(InitialOrder(account, initialBalance), InitialDeposit(account), Creating);
      SetHandler(w.(calls := w.calls + [call]), e, Idle)
  }

  function ActProceed(w: World, e: EventId, outcome: Outcome): World
    requires Enabled(w, Proceed(e, outcome))
  {
    match w.bus[e].payload
    case TransactionRequested(txn, order) => ActJudge(w, e, txn, order, w.handlers[e].stage, outcome)
    case AccountCreated(account, initialBalance) =>
      (match w.handlers[e]
       case Seeding => ActProject(w, e, account, 0, SeedMarking, outcome)
       case SeedMarking => ActMark(w, e, if initialBalance > 0 then Queueing else Idle, outcome)
       case _ => ActQueue(w, e, account, initialBalance, outcome))
    case BalanceUpdated(account, _, newBalance, _) =>
      (match w.handlers[e]
       case Updating => ActProject(w, e, account, newBalance, UpdateMarking, outcome)
       case _ => ActMark(w, e, Idle, outcome))
    case _ => w
  }

  function Act(w: World, s: Step): World
    requires Enabled(w, s)
  {
    match s
    case OpenAccount(initialBalance) =>
      w.(c := OpenRow(w.c), openings := w.openings + [Opening(initialBalance, None)])
    case AnnounceAccount(account) =>
      w.(c := AnnounceOpening(w.c, account, w.openings[account].initialBalance),
         openings := w.openings[account := w.openings[account].(row := Some(|w.c.outbox|))])
    case SetActive(account, active) =>
      w.(c := w.c.(accounts := w.c.accounts[account := w.c.accounts[account].(active := active)]))
    case BeginCall(order, key) => w.(calls := w.calls + [Call(order, key, Creating)])
    case CreateRow(i, outcome) => ActCreate(w, i, outcome)
    case AnnounceRow(i, outcome) => ActAnnounce(w, i, outcome)
    case Publish(side, row) =>
      w.(bus := w.bus + [Message(Outbox(w, side)[row].payload, side, row)],
         handlers := w.handlers + [Idle], concluded := w.concluded + [None])
    case Deliver(e) => SetHandler(w, e, FirstCall(w.bus[e].payload))
    case Proceed(e, outcome) => ActProceed(w, e, outcome)
    case Crash(e) => SetHandler(w, e, Idle)
    case Complete(e, outcome) =>
      w.(c := Apply(w.c, e, w.bus[e].payload.txn, w.bus[e].payload.order, outcome).0)
  }

  function Next(w: World, s: Step): World { if Enabled(w, s) then Act(w, s) else w }

  function Run(w: World, steps: seq<Step>): World {
    if steps == [] then w else Next(Run(w, steps[..|steps| - 1]), steps[|steps| - 1])
  }

  // ---------------------------------------------------------------- what is only added to

  /** Filled entries stay as they are. */
  ghost predicate Extends(a: seq<Option<nat>>, b: seq<Option<nat>>) {
    |a| <= |b| && forall i | 0 <= i < |a| && a[i].Some? :: b[i] == a[i]
  }

  /** A transaction row keeps everything but its status. */
  ghost predicate SameTerms(a: seq<Transaction>, b: seq<Transaction>) {
    |a| <= |b| && forall x | 0 <= x < |a| :: b[x] == a[x].(status := b[x].status)
  }

  // ---------------------------------------------------------------- the invariant

  /** What row `k` of the transaction outbox says about the tables: a request row is the one row of
      its transaction, an outcome row is the one outcome of the event that caused it. */
  ghost predicate RowOk(k: nat, row: OutboxRow, txns: seq<Transaction>, bus: seq<Message>,
                        announced: seq<Option<nat>>, concluded: seq<Option<nat>>)
  {
    match row.payload
    case TransactionRequested(x, order) =>
      row.cause.None? && x < |txns| && txns[x].order == order && x < |announced| && announced[x] == Some(k)
    case AccountCreated(_, _) => false
    case BalanceUpdated(_, _, _, _) => false
    case _ =>
      && row.cause.Some? && var e := row.cause.value;
      && e < |bus| && bus[e].payload == TransactionRequested(row.payload.txn, row.payload.order)
      && e < |concluded| && concluded[e] == Some(k)
      && row.payload.txn < |txns| && txns[row.payload.txn].order == row.payload.order
  }

  ghost predicate RowsOk(rows: seq<OutboxRow>, txns: seq<Transaction>, bus: seq<Message>,
                         announced: seq<Option<nat>>, concluded: seq<Option<nat>>)
  {
    rows == [] ||
    var n := |rows| - 1;
    RowsOk(rows[..n], txns, bus, announced, concluded) && RowOk(n, rows[n], txns, bus, announced, concluded)
  }

  /** Every event carries the payload of the row it was published from. */
  ghost predicate BusOk(bus: seq<Message>, txnRows: seq<OutboxRow>, customerRows: seq<OutboxRow>) {
    bus == [] ||
    var n := |bus| - 1;
    && BusOk(bus[..n], txnRows, customerRows)
    && var rows := if bus[n].side == TxnSide then txnRows else customerRows;
    && bus[n].row < |rows| && rows[bus[n].row].payload == bus[n].payload
  }

  /** A request event is marked exactly when its outcome row is there. */
  ghost predicate ConcludedOk(e: EventId, p: Payload, processed: set<EventId>, rows: seq<OutboxRow>, k: Option<nat>) {
    && (p.TransactionRequested? ==> (e in processed <==> k.Some?))
    && (k.Some? ==> p.TransactionRequested? && k.value < |rows| && rows[k.value].cause == Some(e))
  }

  ghost predicate ConclusionsOk(n: nat, bus: seq<Message>, processed: set<EventId>, rows: seq<OutboxRow>,
                                concluded: seq<Option<nat>>)
    requires n <= |bus| && |concluded| == |bus|
  {
    n == 0 || (ConclusionsOk(n - 1, bus, processed, rows, concluded)
               && ConcludedOk(n - 1, bus[n - 1].payload, processed, rows, concluded[n - 1]))
  }

  /** The saga only works on an event that is not marked. */
  ghost predicate HandlersOk(n: nat, handlers: seq<Handler>, processed: set<EventId>)
    requires n <= |handlers|
  {
    n == 0 || (HandlersOk(n - 1, handlers, processed) && (handlers[n - 1].Judging? ==> n - 1 !in processed))
  }

  /** A call about to announce its transaction created it, and it is not announced yet. */
  ghost predicate CallOk(i: nat, call: Call, txns: seq<Transaction>, announced: seq<Option<nat>>) {
    call.phase.Announcing? ==>
      var x := call.phase.txn;
      x < |txns| && txns[x].creator == i && txns[x].order == call.order && x < |announced| && announced[x] == None
  }

  ghost predicate CallsOk(calls: seq<Call>, txns: seq<Transaction>, announced: seq<Option<nat>>) {
    calls == [] ||
    var n := |calls| - 1;
    CallsOk(calls[..n], txns, announced) && CallOk(n, calls[n], txns, announced)
  }

  ghost predicate EffectsOk(effects: seq<Effect>, bus: seq<Message>) {
    effects == [] ||
    var n := |effects| - 1;
    && EffectsOk(effects[..n], bus)
    && effects[n].event < |bus|
    && bus[effects[n].event].payload == TransactionCompleted(effects[n].txn, effects[n].order)
  }

  ghost predicate KeysUnique(txns: seq<Transaction>) {
    txns == [] ||
    var n := |txns| - 1;
    KeysUnique(txns[..n]) && !KeyTaken(txns[..n], txns[n].key)
  }

  /** A projection write copies 0 for a new account, or the new balance of a ledger row. */
  ghost predicate WriteOk(write: Write, rows: seq<OutboxRow>) {
    && write.row < |rows|
    && match rows[write.row].payload
       case AccountCreated(account, _) => write.account == account && write.value == 0
       case BalanceUpdated(account, _, newBalance, _) => write.account == account && write.value == newBalance
       case _ => false
  }

  ghost predicate WritesOk(writes: seq<Write>, rows: seq<OutboxRow>) {
    writes == [] || (WritesOk(writes[..|writes| - 1], rows) && WriteOk(writes[|writes| - 1], rows))
  }

  function Upserted(writes: seq<Write>): map<AccountId, int> {
    if writes == [] then map[]
    else Upserted(writes[..|writes| - 1])[writes[|writes| - 1].account := writes[|writes| - 1].value]
  }

  ghost predicate Below(ids: set<EventId>, n: nat) { forall e | e in ids :: e < n }

  ghost predicate Sized(w: World) {
    && |w.handlers| == |w.concluded| == |w.bus| && |w.announced| == |w.t.txns|
    && Below(w.t.processed, |w.bus|) && Below(w.c.processed, |w.bus|)
  }

  ghost predicate Inv(w: World) {
    && Sized(w)
    && LedgerOk(w.c)
    && RowsOk(w.t.outbox, w.t.txns, w.bus, w.announced, w.concluded)
    && BusOk(w.bus, w.t.outbox, w.c.outbox)
    && ConclusionsOk(|w.bus|, w.bus, w.t.processed, w.t.outbox, w.concluded)
    && HandlersOk(|w.handlers|, w.handlers, w.t.processed)
    && CallsOk(w.calls, w.t.txns, w.announced)
    && EffectsOk(w.c.effects, w.bus)
    && KeysUnique(w.t.txns)
    && WritesOk(w.t.writes, w.c.outbox) && w.t.projections == Upserted(w.t.writes)
  }
}
