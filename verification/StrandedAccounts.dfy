/** What the snapshot at the head comes to over whole runs: an account saved at a version divisible by
    ten is never added to again by any object loaded or opened afterwards. */
module StrandedAccounts {
  import opened Options
  import opened AccountEvents
  import opened EventStore
  import opened Aggregates
  import opened ConcurrentWriters
  import opened WriterTheorems
  import opened SaveProgress

  /** An object that counts fewer events than its stream has, and is not past its first check. */
  ghost predicate WriterStuck(rows: seq<StoredRow>, wr: Writer) {
    Base(wr.agg) < |Stream(rows, wr.agg.id)| && (wr.phase == Idle || wr.phase == Appending(0))
  }

  /** A load that has read a snapshot at the head. */
  ghost predicate LoadStuck(rows: seq<StoredRow>, l: Loading) {
    l.snapshot.Some? && l.snapshot.value.version == |Stream(rows, l.id)|
  }

  /** Account `id` has its newest snapshot at the head, and everybody at work on it is stuck, except
      for the objects in `gone` and the loads in `dropped`. */
  ghost predicate Stuck(w: World, id: AggregateId, gone: set<Handle>, dropped: set<nat>) {
    && SnapshotAtHead(w.store, id) && |Stream(w.store.rows, id)| > 0
    && (forall h | 0 <= h < |w.writers| && h !in gone && w.writers[h].agg.id == id ::
          WriterStuck(w.store.rows, w.writers[h]))
    && (forall l | 0 <= l < |w.loading| && l !in dropped && w.loading[l].id == id ::
          LoadStuck(w.store.rows, w.loading[l]))
  }

  /** A step that none of these objects and loads takes. */
  predicate Avoids(s: Step, gone: set<Handle>, dropped: set<nat>) {
    match s
    case Open(_, _) => true
    case ReadSnapshot(_) => true
    case ReadTail(l) => l !in dropped
    case Issue(h, _, _) => h !in gone
    case BeginSave(h) => h !in gone
    case ReadVersion(h, _) => h !in gone
    case InsertEvent(h, _) => h !in gone
    case WriteSnapshot(h, _) => h !in gone
    case Tick(_) => true
  }

  predicate AllAvoid(steps: seq<Step>, gone: set<Handle>, dropped: set<nat>) {
    steps == [] || (AllAvoid(steps[..|steps| - 1], gone, dropped) && Avoids(steps[|steps| - 1], gone, dropped))
  }

  // ---------------------------------------------------------------- one step

  /** A load from a snapshot at the head gives version 0. */
  lemma LoadedStuck(rows: seq<StoredRow>, l: Loading)
    requires LoadStuck(rows, l) && |Stream(rows, l.id)| > 0
    ensures var r := LoadTail(rows, l.id, l.snapshot); r.Some? && WriterStuck(rows, LoadedWriter(rows, r.value))
    ensures LoadTail(rows, l.id, l.snapshot).value.id == l.id
  {
    assert EventsAfter(rows, l.id, l.snapshot.value.version) == [];
  }

  /** One more object, the tables as they are. */
  lemma WriterAdded(w: World, wr: Writer, id: AggregateId, gone: set<Handle>, dropped: set<nat>)
    requires Stuck(w, id, gone, dropped) && (wr.agg.id == id ==> WriterStuck(w.store.rows, wr))
    ensures Stuck(w.(writers := w.writers + [wr]), id, gone, dropped)
  {
  }

  lemma ReadTailStuck(w: World, l: nat, id: AggregateId, gone: set<Handle>, dropped: set<nat>)
    requires Stuck(w, id, gone, dropped) && Enabled(w, ReadTail(l)) && l !in dropped
    ensures Stuck(Act(w, ReadTail(l)), id, gone, dropped)
  {
    var loading := w.loading[l];
    LoadKeepsId(w.store.rows, loading.id, loading.snapshot);
    if loading.id == id { LoadedStuck(w.store.rows, loading); }
    var a := LoadTail(w.store.rows, loading.id, loading.snapshot).value;
    WriterAdded(w, LoadedWriter(w.store.rows, a), id, gone, dropped);
  }

  lemma LoadKeepsId(rows: seq<StoredRow>, id: AggregateId, snapshot: Option<Snapshot>)
    requires LoadTail(rows, id, snapshot).Some?
    ensures LoadTail(rows, id, snapshot).value.id == id
  {
    var from := if snapshot.Some? then snapshot.value.version else 0;
    var state := if snapshot.Some? then snapshot.value.state else INITIAL;
    LoadFromHistoryReplays(Aggregate(id, state, 0, []), EventsAfter(rows, id, from));
  }

  /** Replacing one object, the tables as they are. */
  lemma WriterReplaced(w: World, h: Handle, wr: Writer, id: AggregateId, gone: set<Handle>, dropped: set<nat>)
    requires Stuck(w, id, gone, dropped) && h < |w.writers|
    requires wr.agg.id == w.writers[h].agg.id
    requires h !in gone && wr.agg.id == id ==> WriterStuck(w.store.rows, wr)
    ensures Stuck(SetWriter(w, h, wr), id, gone, dropped)
  {
  }

  lemma IssueStuck(w: World, h: Handle, c: Command, eventId: nat, id: AggregateId, gone: set<Handle>, dropped: set<nat>)
    requires Stuck(w, id, gone, dropped) && Enabled(w, Issue(h, c, eventId)) && h !in gone
    ensures Stuck(Act(w, Issue(h, c, eventId)), id, gone, dropped)
  {
    WriterReplaced(w, h, Issued(w.writers[h], c, eventId), id, gone, dropped);
  }

  /** The first check of a stuck object fails. */
  lemma CheckFails(w: World, h: Handle, outcome: Outcome, id: AggregateId, gone: set<Handle>, dropped: set<nat>)
    requires Inv(w) && Stuck(w, id, gone, dropped) && Enabled(w, ReadVersion(h, outcome)) && h !in gone
    requires w.writers[h].agg.id == id
    ensures Act(w, ReadVersion(h, outcome)) == SetPhase(w, h, Idle)
  {
    assert WriterStuck(w.store.rows, w.writers[h]);
    BehindConflicts(w, h);
    ReadVersionActs(w, h, outcome);
  }

  lemma ReadVersionStuck(w: World, h: Handle, outcome: Outcome, id: AggregateId, gone: set<Handle>, dropped: set<nat>)
    requires Inv(w) && Stuck(w, id, gone, dropped) && Enabled(w, ReadVersion(h, outcome)) && h !in gone
    ensures Stuck(Act(w, ReadVersion(h, outcome)), id, gone, dropped)
  {
    if w.writers[h].agg.id == id {
      CheckFails(w, h, outcome, id, gone, dropped);
      WriterReplaced(w, h, w.writers[h].(phase := Idle), id, gone, dropped);
    } else {
      ReadVersionActs(w, h, outcome);
      WriterReplaced(w, h, Act(w, ReadVersion(h, outcome)).writers[h], id, gone, dropped);
    }
  }

  /** A row of another account leaves everybody at work on this one where they were. */
  lemma OtherRowStuck(w: World, row: StoredRow, id: AggregateId, gone: set<Handle>, dropped: set<nat>)
    requires Stuck(w, id, gone, dropped) && row.aggregate != id
    ensures Stuck(AddRow(w, row), id, gone, dropped)
    ensures Stream(w.store.rows + [row], id) == Stream(w.store.rows, id)
  {
    StreamAppend(w.store.rows, row, id);
  }

  /** An insert is another account's. */
  lemma InsertStuck(w: World, h: Handle, outcome: Outcome, id: AggregateId, gone: set<Handle>, dropped: set<nat>)
    requires Stuck(w, id, gone, dropped) && Enabled(w, InsertEvent(h, outcome)) && h !in gone
    ensures Stuck(Act(w, InsertEvent(h, outcome)), id, gone, dropped)
    ensures Stream(Act(w, InsertEvent(h, outcome)).store.rows, id) == Stream(w.store.rows, id)
  {
    var wr := w.writers[h];
    assert wr.agg.id != id;
    var row := Pending(wr, w.now);
    OtherRowStuck(w, row, id, gone, dropped);
    WriterReplaced(w, h, wr.(phase := Idle), id, gone, dropped);
    WriterReplaced(AddRow(w, row), h, AfterInsert(wr, outcome), id, gone, dropped);
  }

  /** One more snapshot of a version that the stream has. */
  lemma NewestStaysAtHead(store: Store, id: AggregateId, s: Snapshot, outcome: Outcome)
    requires SnapshotAtHead(store, id) && (s.aggregate == id ==> s.version <= |Stream(store.rows, id)|)
    ensures SnapshotAtHead(store.(snapshots := InsertSnapshot(store.snapshots, s, outcome).0), id)
  {
    assert (store.snapshots + [s])[..|store.snapshots|] == store.snapshots;
  }

  lemma WriteSnapshotStuck(w: World, h: Handle, outcome: Outcome, id: AggregateId, gone: set<Handle>, dropped: set<nat>)
    requires Inv(w) && Stuck(w, id, gone, dropped) && Enabled(w, WriteSnapshot(h, outcome)) && h !in gone
    ensures Stuck(Act(w, WriteSnapshot(h, outcome)), id, gone, dropped)
  {
    var wr := w.writers[h];
    WriterAt(w.store.rows, w.writers, w.minted, h);
    NewestStaysAtHead(w.store, id, Snapshot(wr.agg.id, wr.phase.version, wr.phase.state), outcome);
    WriterReplaced(w, h, wr.(phase := Idle), id, gone, dropped);
  }

  lemma NewStuck(w: World, s: Step, id: AggregateId, gone: set<Handle>, dropped: set<nat>)
    requires Stuck(w, id, gone, dropped) && Enabled(w, s) && (s.Open? || s.ReadSnapshot? || s.Tick?)
    ensures Stuck(Act(w, s), id, gone, dropped)
  {
  }

  lemma StepStuck(w: World, s: Step, id: AggregateId, gone: set<Handle>, dropped: set<nat>)
    requires Inv(w) && Stuck(w, id, gone, dropped) && Avoids(s, gone, dropped) && Enabled(w, s)
    ensures Stuck(Act(w, s), id, gone, dropped)
    ensures Stream(Act(w, s).store.rows, id) == Stream(w.store.rows, id)
  {
    match s
    case ReadTail(l) => ReadTailStuck(w, l, id, gone, dropped);
    case Issue(h, c, eventId) => IssueStuck(w, h, c, eventId, id, gone, dropped);
    case BeginSave(h) => WriterReplaced(w, h, w.writers[h].(phase := Appending(0)), id, gone, dropped);
    case ReadVersion(h, outcome) => ReadVersionStuck(w, h, outcome, id, gone, dropped);
    case InsertEvent(h, outcome) => InsertStuck(w, h, outcome, id, gone, dropped);
    case WriteSnapshot(h, outcome) => WriteSnapshotStuck(w, h, outcome, id, gone, dropped);
    case _ => NewStuck(w, s, id, gone, dropped);
  }

  // ---------------------------------------------------------------- every later run

  /** Once everybody at work on an account is stuck, its stream never grows in any later run. */
  lemma {:induction false} StuckForGood(w: World, steps: seq<Step>, id: AggregateId, gone: set<Handle>,
                                        dropped: set<nat>)
    requires Inv(w) && Stuck(w, id, gone, dropped) && AllAvoid(steps, gone, dropped)
    ensures Stuck(Run(w, steps), id, gone, dropped)
    ensures Stream(Run(w, steps).store.rows, id) == Stream(w.store.rows, id)
  {
    if steps != [] {
      var w1, s := Run(w, steps[..|steps| - 1]), steps[|steps| - 1];
      StuckForGood(w, steps[..|steps| - 1], id, gone, dropped);
      RunKeeps(w, steps[..|steps| - 1]);
      if Enabled(w1, s) { StepStuck(w1, s, id, gone, dropped); }
    }
  }

  /** The objects and loads of an account that are there now. */
  function ObjectsOf(w: World, id: AggregateId): set<Handle> {
    set h: Handle | h < |w.writers| && w.writers[h].agg.id == id
  }

  function LoadsOf(w: World, id: AggregateId): set<nat> { set l: nat | l < |w.loading| && w.loading[l].id == id }

  /** Wherever the newest snapshot of an account is at its head, no object that is loaded or opened
      from then on ever stores an event of it. */
  lemma NobodySavesAgain(w: World, steps: seq<Step>, id: AggregateId)
    requires Inv(w) && SnapshotAtHead(w.store, id) && AllAvoid(steps, ObjectsOf(w, id), LoadsOf(w, id))
    ensures Stream(Run(w, steps).store.rows, id) == Stream(w.store.rows, id)
  {
    LatestLoading(w.store, id);
    StuckForGood(w, steps, id, ObjectsOf(w, id), LoadsOf(w, id));
  }

  /** So when an object that is up to date saves at a version divisible by ten, undisturbed and with no
      fault, its events are the last of that account, whatever is loaded, opened, issued and saved
      afterwards by others. */
  lemma SavedAtTenIsTheEnd(w: World, h: Handle, outcomes: nat -> Outcome, later: seq<Step>)
    requires Inv(w) && h < |w.writers| && w.writers[h].phase.Idle? && forall i :: outcomes(i) == Done
    requires var a := w.writers[h].agg;
      && a.uncommitted != [] && Base(a) == |Stream(w.store.rows, a.id)| && a.version % 10 == 0
      && var n := |a.uncommitted|;
         var saved := Run(w, AppendSteps(h, n, outcomes) + [WriteSnapshot(h, outcomes(n))]);
         AllAvoid(later, ObjectsOf(saved, a.id), LoadsOf(saved, a.id))
    ensures var a := w.writers[h].agg;
      var n := |a.uncommitted|;
      var saved := Run(w, AppendSteps(h, n, outcomes) + [WriteSnapshot(h, outcomes(n))]);
      Stream(Run(saved, later).store.rows, a.id) == Stream(w.store.rows, a.id) + a.uncommitted
  {
    var wr := w.writers[h];
    var n := |wr.agg.uncommitted|;
    var saving := AppendSteps(h, n, outcomes) + [WriteSnapshot(h, outcomes(n))];
    UpToDateIsAtHead(w, h);
    SaveIsARun(w, h, outcomes);
    SaveLands(w.store, wr, w.now, outcomes);
    ViewSplits(w.store.rows, wr);
    RunKeeps(w, saving);
    NobodySavesAgain(Run(w, saving), later, wr.agg.id);
  }

  lemma UpToDateIsAtHead(w: World, h: Handle)
    requires Inv(w) && h < |w.writers| && Base(w.writers[h].agg) == |Stream(w.store.rows, w.writers[h].agg.id)|
    ensures AtHead(w.store.rows, w.writers[h]) && w.writers[h].stored == 0 && Healthy(w.store, w.now)
  {
    WriterAt(w.store.rows, w.writers, w.minted, h);
    AnchoredAtHead(w.store.rows, w.writers[h]);
  }
}
