/** The poller at work: timers and notifications trigger cycles at any time, rows arrive at any time,
    every call may fail, and the process may crash. */
module OutboxRuns {
  import opened Options
  import opened Outbox

  /** Rows are named in the order they arrive; `log` is a history variable: every row ever sent to
      the bus, as often as it was. A trigger that finds the guard free starts a cycle of its own. */
  datatype World = World(
    rows: seq<Row>,
    polls: seq<Phase>,
    isPollRunning: bool,
    now: nat,
    arrived: nat,
    log: seq<RowId>)

  const START := World([], [], false, 0, 0, [])

  datatype Step =
    | Arrive(created: nat)
    | Trigger
    | Work(p: nat, outcome: Outcome)
    | Crash
    | Tick(ms: nat)

  predicate Enabled(w: World, s: Step) { s.Work? ==> s.p < |w.polls| && !w.polls[s.p].Ended? }

  function Act(w: World, s: Step): World
    requires Enabled(w, s)
  {
    match s
    case Arrive(created) => w.(rows := Insert(w.rows, Row(w.arrived, created, None, 0)), arrived := w.arrived + 1)
    case Trigger =>
      if w.isPollRunning then w
      else w.(polls := w.polls + [Reading], isPollRunning := true)
    case Work(p, outcome) =>
      var e := MakeCall(w.rows, w.polls[p], w.now, outcome);
      w.(rows := e.rows, polls := w.polls[p := e.next], isPollRunning := w.isPollRunning && !e.next.Ended?,
         log := w.log + e.sent)
    case Crash => w.(polls := [], isPollRunning := false)
    case Tick(ms) => w.(now := w.now + ms)
  }

  function Next(w: World, s: Step): World { if Enabled(w, s) then Act(w, s) else w }

  function Run(w: World, steps: seq<Step>): World {
    if steps == [] then w else Next(Run(w, steps[..|steps| - 1]), steps[|steps| - 1])
  }

  // ---------------------------------------------------------------- statements and ids

  lemma {:induction false} InsertHas(rows: seq<Row>, r: Row, id: RowId)
    ensures HasId(Insert(rows, r), id) <==> HasId(rows, id) || r.id == id
    ensures HasId(Pending(Insert(rows, r)), id) <==> HasId(Pending(rows), id) || (IsPending(r) && r.id == id)
  {
    if rows == [] || r.created < rows[0].created {
      assert ([r] + rows)[1..] == rows;
    } else {
      InsertHas(rows[1..], r, id);
      assert Insert(rows, r)[1..] == Insert(rows[1..], r);
    }
    HasAll(Pending(rows), id);
    HasAll(Pending(Insert(rows, r)), id);
    if rows == [] || r.created < rows[0].created {
      HasFirst(r, Pending(rows), id);
    } else {
      HasFirst(rows[0], Pending(rows[1..]), id);
      HasFirst(rows[0], Pending(Insert(rows[1..], r)), id);
    }
  }

  lemma HasAll(rows: seq<Row>, id: RowId)
    ensures HasId(rows, id) <==> exists k :: 0 <= k < |rows| && rows[k].id == id
  {
    IdsOf(rows, id);
  }

  lemma HasFirst(r: Row, rows: seq<Row>, id: RowId)
    ensures HasId([r] + rows, id) <==> r.id == id || HasId(rows, id)
  {
    assert ([r] + rows)[1..] == rows;
  }

  lemma {:induction false} MarkHas(rows: seq<Row>, marked: RowId, now: nat, id: RowId)
    ensures HasId(MarkPublished(rows, marked, now), id) <==> HasId(rows, id)
    ensures HasId(Pending(MarkPublished(rows, marked, now)), id) <==> HasId(Pending(rows), id) && id != marked
  {
    if rows != [] {
      MarkHas(rows[1..], marked, now, id);
      assert MarkPublished(rows, marked, now)[1..] == MarkPublished(rows[1..], marked, now);
      HasFirst(rows[0], Pending(rows[1..]), id);
      HasFirst(rows[0], Pending(MarkPublished(rows[1..], marked, now)), id);
    }
  }

  lemma {:induction false} RecordHas(rows: seq<Row>, failed: RowId, id: RowId)
    ensures HasId(RecordFailure(rows, failed), id) <==> HasId(rows, id)
    ensures HasId(Pending(RecordFailure(rows, failed)), id) <==> HasId(Pending(rows), id)
  {
    if rows != [] {
      RecordHas(rows[1..], failed, id);
      var rows' := RecordFailure(rows, failed);
      assert rows'[1..] == RecordFailure(rows[1..], failed);
      HasFirst(rows[0], Pending(rows[1..]), id);
      HasFirst(rows'[0], Pending(RecordFailure(rows[1..], failed)), id);
    }
  }

  // ---------------------------------------------------------------- nothing is lost

  /** Only the call of `poll` that started last can be inside a cycle; the guard says whether it is. */
  ghost predicate OneCycle(w: World) {
    && (forall p | 0 <= p < |w.polls| - 1 :: w.polls[p].Ended?)
    && (w.isPollRunning <==> w.polls != [] && !w.polls[|w.polls| - 1].Ended?)
  }

  /** Every row that arrived is pending or was sent. */
  ghost predicate Accounted(w: World) {
    forall id: RowId | id < w.arrived :: HasId(Pending(w.rows), id) || id in w.log
  }

  /** A row is marked only after it was sent. */
  ghost predicate MarkedAreSent(rows: seq<Row>, log: seq<RowId>) {
    rows == [] || (MarkedAreSent(rows[1..], log) && (rows[0].published.Some? ==> rows[0].id in log))
  }

  ghost predicate MarkingSent(ph: Phase, log: seq<RowId>) {
    ph.Marking? && ph.i < |ph.batch| ==> ph.batch[ph.i].id in log
  }

  ghost predicate Inv(w: World) {
    && OneCycle(w) && Accounted(w) && MarkedAreSent(w.rows, w.log)
    && (forall p | 0 <= p < |w.polls| :: MarkingSent(w.polls[p], w.log))
  }

  lemma {:induction false} MoreSent(rows: seq<Row>, log: seq<RowId>, more: seq<RowId>)
    requires MarkedAreSent(rows, log)
    ensures MarkedAreSent(rows, log + more)
  {
    if rows != [] { MoreSent(rows[1..], log, more); }
  }

  lemma {:induction false} MarkSent(rows: seq<Row>, log: seq<RowId>, id: RowId, now: nat)
    requires MarkedAreSent(rows, log) && id in log
    ensures MarkedAreSent(MarkPublished(rows, id, now), log)
  {
    if rows != [] {
      MarkSent(rows[1..], log, id, now);
      assert MarkPublished(rows, id, now)[1..] == MarkPublished(rows[1..], id, now);
    }
  }

  lemma {:induction false} OthersSent(rows: seq<Row>, log: seq<RowId>, r: Row, id: RowId, now: nat)
    requires MarkedAreSent(rows, log) && IsPending(r)
    ensures MarkedAreSent(Insert(rows, r), log)
    ensures MarkedAreSent(RecordFailure(rows, id), log)
    ensures MarkedAreSent(DeletePublished(rows, now), log)
  {
    if rows != [] {
      OthersSent(rows[1..], log, r, id, now);
      assert ([r] + rows)[1..] == rows;
      assert Insert(rows, r)[1..] == if r.created < rows[0].created then rows else Insert(rows[1..], r);
      assert RecordFailure(rows, id)[1..] == RecordFailure(rows[1..], id);
      if !Expired(rows[0], now) { assert DeletePublished(rows, now)[1..] == DeletePublished(rows[1..], now); }
    }
  }

  /** One call of a cycle: what is sent is logged first, and only a row just sent stops pending. */
  lemma CallAccounts(rows: seq<Row>, ph: Phase, now: nat, outcome: Outcome, log: seq<RowId>, arrived: nat)
    requires MarkedAreSent(rows, log) && MarkingSent(ph, log)
    requires forall id: RowId | id < arrived :: HasId(Pending(rows), id) || id in log
    ensures var e := MakeCall(rows, ph, now, outcome);
      && MarkedAreSent(e.rows, log + e.sent) && MarkingSent(e.next, log + e.sent)
      && forall id: RowId | id < arrived :: HasId(Pending(e.rows), id) || id in log + e.sent
  {
    var e := MakeCall(rows, ph, now, outcome);
    MoreSent(rows, log, e.sent);
    var recorded := if ph.Recording? && ph.i < |ph.batch| then ph.batch[ph.i].id else 0;
    OthersSent(rows, log + e.sent, Row(0, 0, None, 0), recorded, now);
    if ph.Marking? && ph.i < |ph.batch| { MarkSent(rows, log, ph.batch[ph.i].id, now); }
    DeleteKeepsPending(rows, now);
    forall id: RowId | id < arrived ensures HasId(Pending(e.rows), id) || id in log + e.sent {
      if ph.Marking? && ph.i < |ph.batch| { MarkHas(rows, ph.batch[ph.i].id, now, id); }
      if ph.Recording? && ph.i < |ph.batch| { RecordHas(rows, ph.batch[ph.i].id, id); }
    }
    assert log + [] == log;
  }

  lemma StepKeeps(w: World, s: Step)
    requires Inv(w)
    ensures Inv(Next(w, s))
  {
    if Enabled(w, s) {
      match s
      case Arrive(created) => ArriveKeeps(w, created);
      case Work(p, outcome) => WorkKeeps(w, p, outcome);
      case Trigger =>
      case Crash =>
      case Tick(_) =>
    }
  }

  lemma ArriveKeeps(w: World, created: nat)
    requires Inv(w)
    ensures Inv(Act(w, Arrive(created)))
  {
    var r := Row(w.arrived, created, None, 0);
    OthersSent(w.rows, w.log, r, 0, 0);
    forall id: RowId | id < w.arrived + 1 ensures HasId(Pending(Insert(w.rows, r)), id) || id in w.log {
      InsertHas(w.rows, r, id);
    }
  }

  lemma WorkKeeps(w: World, p: nat, outcome: Outcome)
    requires Inv(w) && Enabled(w, Work(p, outcome))
    ensures Inv(Act(w, Work(p, outcome)))
  {
    CallAccounts(w.rows, w.polls[p], w.now, outcome, w.log, w.arrived);
    assert p == |w.polls| - 1;
  }

  lemma {:induction false} RunKeeps(w: World, steps: seq<Step>)
    requires Inv(w)
    ensures Inv(Run(w, steps))
  {
    if steps != [] {
      RunKeeps(w, steps[..|steps| - 1]);
      StepKeeps(Run(w, steps[..|steps| - 1]), steps[|steps| - 1]);
    }
  }

  /** Whatever fails and whenever: a row that arrived is still pending or has been sent at least
      once; a row no longer in the table, or marked in it, has been sent; two cycles never overlap. */
  lemma NothingIsLost(steps: seq<Step>, id: RowId)
    ensures var w := Run(START, steps);
      && (id < w.arrived ==> HasId(Pending(w.rows), id) || id in w.log)
      && (id < w.arrived && !HasId(w.rows, id) ==> id in w.log)
      && (forall r | r in w.rows && r.published.Some? :: r.id in w.log)
      && (forall p, q | 0 <= p < q < |w.polls| :: w.polls[p].Ended? || w.polls[q].Ended?)
  {
    var w := Run(START, steps);
    RunKeeps(START, steps);
    if !HasId(w.rows, id) { PendingHasId(w.rows, id); }
    forall r | r in w.rows && r.published.Some? ensures r.id in w.log { SentAt(w.rows, w.log, r); }
  }

  lemma {:induction false} SentAt(rows: seq<Row>, log: seq<RowId>, r: Row)
    requires MarkedAreSent(rows, log) && r in rows && r.published.Some?
    ensures r.id in log
  {
    if r != rows[0] {
      assert rows == [rows[0]] + rows[1..];
      SentAt(rows[1..], log, r);
    }
  }

  // ---------------------------------------------------------------- without faults, never twice

  predicate FaultFree(steps: seq<Step>) {
    steps == [] ||
    var s := steps[|steps| - 1];
    FaultFree(steps[..|steps| - 1]) && !s.Crash? && (s.Work? ==> s.outcome == Done)
  }

  predicate NoneTwice(log: seq<RowId>) {
    log == [] || (NoneTwice(log[..|log| - 1]) && log[|log| - 1] !in log[..|log| - 1])
  }

  /** The row a cycle has sent and not yet marked. */
  predicate InMarking(ph: Phase, id: RowId) { ph.Marking? && ph.i < |ph.batch| && ph.batch[ph.i].id == id }

  /** What a fault-free cycle still has to send is pending, each row once. */
  ghost predicate BatchOk(rows: seq<Row>, ph: Phase) {
    match ph
    case Publishing(batch, i) => DistinctIds(batch) && forall j | i <= j < |batch| :: HasId(Pending(rows), batch[j].id)
    case Marking(batch, i) =>
      i < |batch| && DistinctIds(batch) && forall j | i < j < |batch| :: HasId(Pending(rows), batch[j].id)
    case Recording(_, _) => false
    case _ => true
  }

  function Current(w: World): Phase { if w.polls == [] then Ended else w.polls[|w.polls| - 1] }

  ghost predicate Clean(w: World) {
    && OneCycle(w)
    && DistinctIds(w.rows) && (forall id: RowId | HasId(w.rows, id) :: id < w.arrived)
    && NoneTwice(w.log)
    && (forall id | id in w.log :: id < w.arrived && (HasId(Pending(w.rows), id) ==> InMarking(Current(w), id)))
    && BatchOk(w.rows, Current(w))
  }

  lemma {:induction false} InsertDistinct(rows: seq<Row>, r: Row)
    requires DistinctIds(rows) && !HasId(rows, r.id)
    ensures DistinctIds(Insert(rows, r))
  {
    if rows == [] || r.created < rows[0].created {
      assert ([r] + rows)[1..] == rows;
    } else {
      InsertDistinct(rows[1..], r);
      assert Insert(rows, r)[1..] == Insert(rows[1..], r);
      InsertHas(rows[1..], r, rows[0].id);
    }
  }

  lemma {:induction false} DistinctAt(rows: seq<Row>, i: nat, j: nat)
    requires DistinctIds(rows) && i < j < |rows|
    ensures rows[i].id != rows[j].id
  {
    if i > 0 {
      DistinctAt(rows[1..], i - 1, j - 1);
    } else {
      HasAll(rows[1..], rows[0].id);
      assert rows[1..][j - 1] == rows[j];
    }
  }

  lemma ArriveClean(w: World, created: nat)
    requires Clean(w)
    ensures Clean(Act(w, Arrive(created)))
  {
    var r := Row(w.arrived, created, None, 0);
    InsertDistinct(w.rows, r);
    forall id: RowId
      ensures HasId(Insert(w.rows, r), id) <==> HasId(w.rows, id) || r.id == id
      ensures HasId(Pending(Insert(w.rows, r)), id) <==> HasId(Pending(w.rows), id) || r.id == id
    {
      InsertHas(w.rows, r, id);
    }
  }

  lemma TriggerClean(w: World)
    requires Clean(w)
    ensures Clean(Act(w, Trigger))
  {
  }

  lemma ReadClean(w: World, p: nat)
    requires Clean(w) && p < |w.polls| && w.polls[p].Reading?
    ensures Clean(Act(w, Work(p, Done)))
  {
    var batch := FirstPending(w.rows, BATCH);
    assert p == |w.polls| - 1;
    PendingDistinct(w.rows);
    if batch != Pending(w.rows) { TakeDistinct(Pending(w.rows), BATCH); }
    forall j | 0 <= j < |batch| ensures HasId(Pending(w.rows), batch[j].id) {
      assert Pending(w.rows)[j] == batch[j];
      HasAll(Pending(w.rows), batch[j].id);
    }
    assert w.log + [] == w.log;
  }

  lemma {:induction false} TakeDistinct(rows: seq<Row>, n: nat)
    requires DistinctIds(rows) && n <= |rows|
    ensures DistinctIds(rows[..n])
  {
    if n > 0 {
      TakeDistinct(rows[1..], n - 1);
      assert rows[..n][1..] == rows[1..][..n - 1];
      HasAll(rows[1..], rows[0].id);
      HasAll(rows[..n][1..], rows[0].id);
      assert forall k | 0 <= k < n - 1 :: rows[..n][1..][k] == rows[1..][k];
    }
  }

  lemma NoneTwiceAdd(log: seq<RowId>, id: RowId)
    requires NoneTwice(log) && id !in log
    ensures NoneTwice(log + [id])
  {
    assert (log + [id])[..|log|] == log;
  }

  /** The row a fault-free cycle sends next is in the table and was not sent before. */
  lemma NextIsUnsent(w: World, p: nat)
    requires Clean(w) && p < |w.polls| && w.polls[p].Publishing? && w.polls[p].i < |w.polls[p].batch|
    ensures var id := w.polls[p].batch[w.polls[p].i].id; id < w.arrived && id !in w.log && p == |w.polls| - 1
  {
    assert p == |w.polls| - 1;
    var id := w.polls[p].batch[w.polls[p].i].id;
    assert HasId(Pending(w.rows), id);
    if !HasId(w.rows, id) { PendingHasId(w.rows, id); }
  }

  /** A row sent for the first time, its cycle about to mark it. */
  lemma SentClean(w: World, batch: seq<Row>, i: nat)
    requires Clean(w) && Current(w) == Publishing(batch, i) && i < |batch| && w.polls != []
    ensures var n := |w.polls| - 1;
      Clean(w.(polls := w.polls[n := Marking(batch, i)], log := w.log + [batch[i].id]))
  {
    NextIsUnsent(w, |w.polls| - 1);
    NoneTwiceAdd(w.log, batch[i].id);
  }

  lemma PublishClean(w: World, p: nat)
    requires Clean(w) && p < |w.polls| && w.polls[p].Publishing?
    ensures Clean(Act(w, Work(p, Done)))
  {
    assert p == |w.polls| - 1;
    if w.polls[p].i < |w.polls[p].batch| {
      SentClean(w, w.polls[p].batch, w.polls[p].i);
    } else {
      assert w.log + [] == w.log;
    }
  }

  lemma MarkHasAll(rows: seq<Row>, marked: RowId, now: nat)
    ensures forall id: RowId :: HasId(MarkPublished(rows, marked, now), id) <==> HasId(rows, id)
    ensures forall id: RowId ::
      HasId(Pending(MarkPublished(rows, marked, now)), id) <==> HasId(Pending(rows), id) && id != marked
  {
    forall id: RowId
      ensures HasId(MarkPublished(rows, marked, now), id) <==> HasId(rows, id)
      ensures HasId(Pending(MarkPublished(rows, marked, now)), id) <==> HasId(Pending(rows), id) && id != marked
    {
      MarkHas(rows, marked, now, id);
    }
  }

  /** The rows a cycle still has to send stay pending when another one is marked. */
  lemma RestStaysPending(rows: seq<Row>, batch: seq<Row>, i: nat, now: nat)
    requires BatchOk(rows, Marking(batch, i))
    ensures BatchOk(MarkPublished(rows, batch[i].id, now), From(batch, i + 1))
  {
    MarkHasAll(rows, batch[i].id, now);
    forall j | i < j < |batch| ensures HasId(Pending(MarkPublished(rows, batch[i].id, now)), batch[j].id) {
      DistinctAt(batch, i, j);
    }
  }

  /** The row just sent is marked, and its cycle goes on. */
  lemma MarkedClean(w: World, batch: seq<Row>, i: nat)
    requires Clean(w) && Current(w) == Marking(batch, i) && i < |batch| && w.polls != []
    ensures var n := |w.polls| - 1;
      Clean(w.(rows := MarkPublished(w.rows, batch[i].id, w.now), polls := w.polls[n := From(batch, i + 1)]))
  {
    MarkKeepsIds(w.rows, batch[i].id, w.now);
    MarkHasAll(w.rows, batch[i].id, w.now);
    RestStaysPending(w.rows, batch, i, w.now);
  }

  lemma MarkClean(w: World, p: nat)
    requires Clean(w) && p < |w.polls| && w.polls[p].Marking?
    ensures Clean(Act(w, Work(p, Done)))
  {
    assert p == |w.polls| - 1;
    MarkedClean(w, w.polls[p].batch, w.polls[p].i);
    assert w.log + [] == w.log;
  }

  lemma CleanUpClean(w: World, p: nat)
    requires Clean(w) && p < |w.polls| && w.polls[p].Cleaning?
    ensures Clean(Act(w, Work(p, Done)))
  {
    assert p == |w.polls| - 1;
    DeleteKeepsPending(w.rows, w.now);
    assert w.log + [] == w.log;
  }

  lemma StepClean(w: World, s: Step)
    requires Clean(w) && !s.Crash? && (s.Work? ==> s.outcome == Done)
    ensures Clean(Next(w, s))
  {
    if Enabled(w, s) {
      match s
      case Arrive(created) => ArriveClean(w, created);
      case Trigger => TriggerClean(w);
      case Tick(_) =>
      case Work(p, _) =>
        assert p == |w.polls| - 1;
        match w.polls[p] {
          case Reading => ReadClean(w, p);
          case Publishing(_, _) => PublishClean(w, p);
          case Marking(_, _) => MarkClean(w, p);
          case Cleaning => CleanUpClean(w, p);
          case _ =>
        }
    }
  }

  /** As long as no call fails and the process does not crash, no row is ever sent twice, however
      triggers, cycles and arrivals interleave. */
  lemma {:induction false} SentOnceWithoutFaults(steps: seq<Step>)
    requires FaultFree(steps)
    ensures Clean(Run(START, steps)) && NoneTwice(Run(START, steps).log)
  {
    if steps != [] {
      SentOnceWithoutFaults(steps[..|steps| - 1]);
      StepClean(Run(START, steps[..|steps| - 1]), steps[|steps| - 1]);
    }
  }

  // ---------------------------------------------------------------- draining from any reachable table

  lemma {:induction false} InsertSorted(rows: seq<Row>, r: Row)
    requires Sorted(rows)
    ensures Sorted(Insert(rows, r))
    ensures forall x :: x in Insert(rows, r) <==> x in rows || x == r
  {
    if rows == [] || r.created < rows[0].created {
      assert ([r] + rows)[1..] == rows;
    } else {
      InsertSorted(rows[1..], r);
      var rows' := Insert(rows, r);
      assert rows'[1..] == Insert(rows[1..], r) && rows == [rows[0]] + rows[1..];
      forall k | 0 < k < |rows'| ensures rows'[0].created <= rows'[k].created {
        assert rows'[k] == rows'[1..][k - 1] && rows'[k] in rows'[1..];
      }
    }
  }

  function Stamps(rows: seq<Row>): seq<nat> {
    if rows == [] then [] else [rows[0].created] + Stamps(rows[1..])
  }

  lemma {:induction false} StampsOf(rows: seq<Row>)
    ensures |Stamps(rows)| == |rows| && forall k | 0 <= k < |rows| :: Stamps(rows)[k] == rows[k].created
  {
    if rows != [] { StampsOf(rows[1..]); }
  }

  lemma {:induction false} SameStampsSorted(a: seq<Row>, b: seq<Row>)
    requires Sorted(a) && Stamps(a) == Stamps(b)
    ensures Sorted(b)
  {
    StampsOf(a);
    StampsOf(b);
    if b != [] {
      assert Stamps(a)[1..] == Stamps(a[1..]) && Stamps(b)[1..] == Stamps(b[1..]);
      SameStampsSorted(a[1..], b[1..]);
      forall k | 0 < k < |b| ensures b[0].created <= b[k].created {
        assert Stamps(a)[k] == a[k].created && Stamps(a)[0] == a[0].created;
      }
    }
  }

  lemma {:induction false} UpdatesKeepOrder(rows: seq<Row>, id: RowId, now: nat)
    ensures Stamps(MarkPublished(rows, id, now)) == Stamps(rows) == Stamps(RecordFailure(rows, id))
    ensures Ids(RecordFailure(rows, id)) == Ids(rows)
  {
    if rows != [] {
      UpdatesKeepOrder(rows[1..], id, now);
      assert MarkPublished(rows, id, now)[1..] == MarkPublished(rows[1..], id, now);
      assert RecordFailure(rows, id)[1..] == RecordFailure(rows[1..], id);
    }
  }

  lemma {:induction false} SameIdsDistinct(a: seq<Row>, b: seq<Row>)
    requires DistinctIds(a) && Ids(a) == Ids(b)
    ensures DistinctIds(b)
  {
    if b != [] {
      IdsOf(a, 0);
      IdsOf(b, 0);
      assert Ids(a)[1..] == Ids(a[1..]) && Ids(b)[1..] == Ids(b[1..]);
      SameIdsDistinct(a[1..], b[1..]);
      HasSameIds(a[1..], b[1..], b[0].id);
      assert Ids(a)[0] == a[0].id;
    }
  }

  ghost predicate RowsOk(rows: seq<Row>, arrived: nat) {
    Sorted(rows) && DistinctIds(rows) && forall id: RowId | HasId(rows, id) :: id < arrived
  }

  lemma UpdateKeepsRows(rows: seq<Row>, rows': seq<Row>, arrived: nat)
    requires RowsOk(rows, arrived) && Stamps(rows') == Stamps(rows) && Ids(rows') == Ids(rows)
    ensures RowsOk(rows', arrived)
  {
    SameStampsSorted(rows, rows');
    SameIdsDistinct(rows, rows');
    forall id: RowId ensures HasId(rows', id) <==> HasId(rows, id) { HasSameIds(rows, rows', id); }
  }

  lemma CallKeepsRows(rows: seq<Row>, ph: Phase, now: nat, outcome: Outcome, arrived: nat)
    requires RowsOk(rows, arrived)
    ensures RowsOk(MakeCall(rows, ph, now, outcome).rows, arrived)
  {
    match ph
    case Marking(batch, i) =>
      if i < |batch| {
        UpdatesKeepOrder(rows, batch[i].id, now);
        MarkKeepsIds(rows, batch[i].id, now);
        UpdateKeepsRows(rows, MarkPublished(rows, batch[i].id, now), arrived);
      }
    case Recording(batch, i) =>
      if i < |batch| {
        UpdatesKeepOrder(rows, batch[i].id, now);
        UpdateKeepsRows(rows, RecordFailure(rows, batch[i].id), arrived);
      }
    case Cleaning =>
      DeleteMeans(rows, now);
      DeleteKeepsPending(rows, now);
    case _ =>
  }

  /** In every run, faults or not, the table is in created_at order and no id is in it twice. */
  lemma {:induction false} TableStaysInOrder(steps: seq<Step>)
    ensures var w := Run(START, steps); RowsOk(w.rows, w.arrived)
  {
    if steps != [] {
      var w, s := Run(START, steps[..|steps| - 1]), steps[|steps| - 1];
      TableStaysInOrder(steps[..|steps| - 1]);
      if Enabled(w, s) {
        if s.Work? {
          CallKeepsRows(w.rows, w.polls[s.p], w.now, s.outcome, w.arrived);
        } else if s.Arrive? {
          var r := Row(w.arrived, s.created, None, 0);
          InsertSorted(w.rows, r);
          InsertDistinct(w.rows, r);
          forall id: RowId ensures HasId(Insert(w.rows, r), id) <==> HasId(w.rows, id) || r.id == id {
            InsertHas(w.rows, r, id);
          }
        }
      }
    }
  }

  /** From any reachable table, whatever went wrong before: ceil(n / 50) fault-free cycles publish
      all n pending rows, oldest first, each exactly once. */
  lemma DrainsFromAnywhere(steps: seq<Step>, k: nat, plan: Call -> Outcome)
    requires var w := Run(START, steps); 50 * k >= |Pending(w.rows)|
    requires forall c :: plan(c) == Done
    ensures var w := Run(START, steps);
      var (rows', sent) := Polls(w.rows, k, w.now, plan);
      Pending(rows') == [] && sent == Ids(Pending(w.rows)) && Sorted(Pending(w.rows)) && NoRepeat(sent)
  {
    var w := Run(START, steps);
    TableStaysInOrder(steps);
    OutboxDrains(w.rows, k, w.now, plan);
  }

  // ---------------------------------------------------------------- one cycle is a run

  lemma {:induction false} RunSplit(w: World, steps: seq<Step>, more: seq<Step>)
    ensures Run(w, steps + more) == Run(Run(w, steps), more)
  {
    if more == [] {
      assert steps + more == steps;
    } else {
      var n := |more| - 1;
      assert (steps + more)[..|steps + more| - 1] == steps + more[..n];
      RunSplit(w, steps, more[..n]);
    }
  }

  lemma RunFirst(w: World, s: Step, rest: seq<Step>)
    ensures Run(w, [s] + rest) == Run(Next(w, s), rest)
  {
    RunSplit(w, [s], rest);
    assert [s][..0] == [];
  }

  /** The calls of cycle `p` from `ph` on when nothing else happens. */
  function CycleSteps(rows: seq<Row>, p: nat, ph: Phase, now: nat, plan: Call -> Outcome): seq<Step>
    decreases ph.Reading?, Rank(ph)
  {
    if ph.Ended? then []
    else
      var e := MakeCall(rows, ph, now, plan(CallOf(ph)));
      [Work(p, plan(CallOf(ph)))] + CycleSteps(e.rows, p, e.next, now, plan)
  }

  lemma {:induction false} CycleIsARun(w: World, p: nat, base: seq<RowId>, sent: seq<RowId>, plan: Call -> Outcome)
    requires p < |w.polls| && w.log == base + sent && (w.isPollRunning <==> !w.polls[p].Ended?)
    ensures var w' := Run(w, CycleSteps(w.rows, p, w.polls[p], w.now, plan));
      var (rows', sent') := Finish(w.rows, sent, w.polls[p], w.now, plan);
      w'.rows == rows' && w'.log == base + sent' && !w'.isPollRunning && w'.arrived == w.arrived
    decreases w.polls[p].Reading?, Rank(w.polls[p])
  {
    var ph := w.polls[p];
    if !ph.Ended? {
      var s := Work(p, plan(CallOf(ph)));
      var e := MakeCall(w.rows, ph, w.now, plan(CallOf(ph)));
      RunFirst(w, s, CycleSteps(e.rows, p, e.next, w.now, plan));
      assert base + (sent + e.sent) == (base + sent) + e.sent;
      CycleIsARun(Next(w, s), p, base, sent + e.sent, plan);
    }
  }

  /** What `poll` does in one call is what the machine does when it starts a cycle and lets it run
      through. */
  lemma PollIsARun(w: World, plan: Call -> Outcome)
    requires !w.isPollRunning
    ensures var w' := Run(w, [Trigger] + CycleSteps(w.rows, |w.polls|, Reading, w.now, plan));
      var (rows', sent) := Poll(w.rows, w.now, plan);
      w'.rows == rows' && w'.log == w.log + sent && !w'.isPollRunning
  {
    RunFirst(w, Trigger, CycleSteps(w.rows, |w.polls|, Reading, w.now, plan));
    assert w.log + [] == w.log;
    CycleIsARun(Next(w, Trigger), |w.polls|, w.log, [], plan);
  }
}
