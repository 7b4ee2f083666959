/** Any number of writers on one event store, each holding an aggregate object that may be stale.
    Every database call is its own step, so `append` can be interrupted between reading the
    highest version and inserting, `load` between reading the snapshot and reading the tail, and
    commands may be raised on an object while its `save` is waiting. */
module ConcurrentWriters {
  import opened Options
  import opened AccountEvents
  import opened EventStore
  import opened Aggregates

  /** Writers are numbered in the order they appear. */
  type Handle = nat

  /** Where a writer's `save` stands. */
  datatype Phase =
    | Idle
    | Appending(next: nat)
    | Inserting(next: nat, newVersion: nat)
    | Snapshotting(version: nat, state: AccountState)

  /** Two history variables ride along: `stored`, how many of the uncommitted events are in the
      table, and `view`, the events the object's version counts, in order. */
  datatype Writer = Writer(agg: Aggregate, phase: Phase, stored: nat, view: seq<DomainEvent>)

  datatype Loading = Loading(id: AggregateId, snapshot: Option<Snapshot>)

  /** `minted` records every event id ever generated and the writer that generated it. */
  datatype World = World(
    store: Store,
    writers: seq<Writer>,
    loading: seq<Loading>,
    minted: map<nat, Handle>,
    now: nat)

  const START := World(EMPTY, [], [], map[], 0)

  datatype Step =
    | Open(id: AggregateId, eventId: nat)
    | ReadSnapshot(id: AggregateId)
    | ReadTail(l: nat)
    | Issue(h: Handle, command: Command, eventId: nat)
    | BeginSave(h: Handle)
    | ReadVersion(h: Handle, outcome: Outcome)
    | InsertEvent(h: Handle, outcome: Outcome)
    | WriteSnapshot(h: Handle, outcome: Outcome)
    | Tick(ms: nat)

  // ---------------------------------------------------------------- one writer

  function OpenedWriter(id: AggregateId, eventId: nat): Writer {
    Writer(Created(id, eventId), Idle, 0, [DomainEvent(eventId, AccountCreated, 1)])
  }

  /** The writer of an object fresh from `load`: its view is the whole stream, unless the object
      came back with version 0. */
  function LoadedWriter(rows: seq<StoredRow>, a: Aggregate): Writer {
    Writer(a, Idle, 0, if a.version == 0 then [] else Stream(rows, a.id))
  }

  /** The writer after a command on its object. */
  function Issued(wr: Writer, c: Command, eventId: nat): Writer {
    match Decide(wr.agg.state, c)
    case Raise(p) =>
      wr.(agg := RaiseEvent(wr.agg, p, eventId), view := wr.view + [DomainEvent(eventId, p, wr.agg.version + 1)])
    case Refuse(_) => wr
  }

  /** The row a writer is about to insert. */
  function Pending(wr: Writer, now: nat): StoredRow
    requires wr.phase.Inserting? && wr.phase.next < |wr.agg.uncommitted|
  {
    Stored(wr.agg.id, wr.agg.uncommitted[wr.phase.next], wr.phase.newVersion, now)
  }

  /** After the last append returned: the commit mark, and a snapshot at multiples of 10. */
  function Committed(wr: Writer): Writer {
    var a := wr.agg;
    Writer(a.(uncommitted := []),
           if a.version % 10 == 0 then Snapshotting(a.version, a.state) else Idle, 0, wr.view)
  }

  /** A writer whose row just went in. */
  function AfterInsert(wr: Writer, outcome: Outcome): Writer
    requires wr.phase.Inserting?
  {
    var stored := wr.phase.next + 1;
    if outcome == FailedAfter then wr.(phase := Idle, stored := stored)
    else if stored < |wr.agg.uncommitted| then wr.(phase := Appending(stored), stored := stored)
    else Committed(wr)
  }

  // ---------------------------------------------------------------- steps

  /** Can this step happen now? A step that cannot leaves the world alone. */
  predicate Enabled(w: World, s: Step) {
    match s
    case Open(_, eventId) => eventId !in w.minted
    case ReadSnapshot(_) => true
    case ReadTail(l) =>
      l < |w.loading| && LoadTail(w.store.rows, w.loading[l].id, w.loading[l].snapshot).Some?
    case Issue(h, _, eventId) => h < |w.writers| && eventId !in w.minted
    case BeginSave(h) => h < |w.writers| && w.writers[h].phase.Idle? && w.writers[h].agg.uncommitted != []
    case ReadVersion(h, _) =>
      h < |w.writers| && w.writers[h].phase.Appending?
        && w.writers[h].phase.next < |w.writers[h].agg.uncommitted|
    case InsertEvent(h, _) =>
      h < |w.writers| && w.writers[h].phase.Inserting?
        && w.writers[h].phase.next < |w.writers[h].agg.uncommitted|
    case WriteSnapshot(h, _) => h < |w.writers| && w.writers[h].phase.Snapshotting?
    case Tick(_) => true
  }

  function SetWriter(w: World, h: Handle, wr: Writer): World
    requires h < |w.writers|
  {
    w.(writers := w.writers[h := wr])
  }

  function SetPhase(w: World, h: Handle, p: Phase): World
    requires h < |w.writers|
  {
    SetWriter(w, h, w.writers[h].(phase := p))
  }

  function AddRow(w: World, row: StoredRow): World { w.(store := w.store.(rows := w.store.rows + [row])) }

  function Act(w: World, s: Step): World
    requires Enabled(w, s)
  {
    match s
    case Open(id, eventId) =>
      w.(writers := w.writers + [OpenedWriter(id, eventId)], minted := w.minted[eventId := |w.writers|])
    case ReadSnapshot(id) =>
      w.(loading := w.loading + [Loading(id, LatestSnapshot(w.store.snapshots, id))])
    case ReadTail(l) =>
      var a := LoadTail(w.store.rows, w.loading[l].id, w.loading[l].snapshot).value;
      w.(writers := w.writers + [LoadedWriter(w.store.rows, a)])
    case Issue(h, c, eventId) =>
      SetWriter(w.(minted := w.minted[eventId := h]), h, Issued(w.writers[h], c, eventId))
    case BeginSave(h) => SetPhase(w, h, Appending(0))
    case ReadVersion(h, outcome) =>
      var wr := w.writers[h];
      var i := wr.phase.next;
      var current := MaxVersion(w.store.rows, wr.agg.id);
      if outcome != Done || wr.agg.uncommitted[i].version - 1 != current then SetPhase(w, h, Idle)
      else SetPhase(w, h, Inserting(i, current + 1))
    case InsertEvent(h, outcome) =>
      var wr := w.writers[h];
      var row := Pending(wr, w.now);
      if outcome == Failed || !CanInsert(w.store.rows, wr.agg.id, row.event.version, row.event.eventId)
      then SetPhase(w, h, Idle)
      else SetWriter(AddRow(w, row), h, AfterInsert(wr, outcome))
    case WriteSnapshot(h, outcome) =>
      var wr := w.writers[h];
      var s := Snapshot(wr.agg.id, wr.phase.version, wr.phase.state);
      SetPhase(w.(store := w.store.(snapshots := InsertSnapshot(w.store.snapshots, s, outcome).0)), h, Idle)
    case Tick(ms) => w.(now := w.now + ms)
  }

  function Next(w: World, s: Step): World { if Enabled(w, s) then Act(w, s) else w }

  function Run(w: World, steps: seq<Step>): World {
    if steps == [] then w else Next(Run(w, steps[..|steps| - 1]), steps[|steps| - 1])
  }

  // ---------------------------------------------------------------- the tables

  /** A row that may come next in its stream: next version, legal event, not stamped earlier. */
  ghost predicate RightRow(rows: seq<StoredRow>, row: StoredRow) {
    var s := Stream(rows, row.aggregate);
    var stamps := Stamps(rows, row.aggregate);
    && row.event.version == |s| + 1
    && LegalStream(s + [row.event])
    && (stamps != [] ==> stamps[|stamps| - 1] <= row.timestamp)
  }

  /** Every row was right when it went in. */
  ghost predicate RightRows(rows: seq<StoredRow>) {
    rows == [] || (RightRows(rows[..|rows| - 1]) && RightRow(rows[..|rows| - 1], rows[|rows| - 1]))
  }

  /** One more right row leaves each stream legal and numbered. */
  lemma RightRowLegal(before: seq<StoredRow>, row: StoredRow, id: AggregateId)
    requires RightRow(before, row) && LegalStream(Stream(before, id)) && Numbered(Stream(before, id))
    ensures LegalStream(Stream(before + [row], id)) && Numbered(Stream(before + [row], id))
  {
    StreamAppend(before, row, id);
    if row.aggregate == id {
      assert Stream(before + [row], id) == Stream(before, id) + [row.event];
    } else {
      assert Stream(before + [row], id) == Stream(before, id);
    }
  }

  lemma {:induction false} RightRowsLegal(rows: seq<StoredRow>, id: AggregateId)
    requires RightRows(rows)
    ensures LegalStream(Stream(rows, id)) && Numbered(Stream(rows, id))
  {
    if rows != [] {
      var before, row := rows[..|rows| - 1], rows[|rows| - 1];
      RightRowsLegal(before, id);
      RightRowLegal(before, row, id);
      assert rows == before + [row];
    }
  }

  lemma {:induction false} RightRowsTimely(rows: seq<StoredRow>, id: AggregateId)
    requires RightRows(rows)
    ensures Chronological(Stamps(rows, id))
  {
    if rows != [] {
      var before, row := rows[..|rows| - 1], rows[|rows| - 1];
      RightRowsTimely(before, id);
      assert rows == before + [row];
      StreamAppend(before, row, id);
      if row.aggregate == id { ChronologicalAppend(Stamps(before, id), row.timestamp); }
    }
  }

  lemma ChronologicalAppend(stamps: seq<nat>, t: nat)
    requires Chronological(stamps) && (stamps != [] ==> stamps[|stamps| - 1] <= t)
    ensures Chronological(stamps + [t])
  {
    var r, n := stamps + [t], |stamps|;
    assert r[..n] == stamps && r[n] == t && (n > 0 ==> r[n - 1] == stamps[n - 1]);
  }

  lemma RightRowsContiguous(rows: seq<StoredRow>)
    requires RightRows(rows)
    ensures Contiguous(rows)
  {
    forall id: AggregateId, i | 0 <= i < |Stream(rows, id)| ensures Stream(rows, id)[i].version == i + 1 {
      RightRowsLegal(rows, id);
    }
  }

  /** A snapshot is the replay of exactly the events it counts. */
  ghost predicate SnapshotOk(rows: seq<StoredRow>, s: Snapshot) {
    var stream := Stream(rows, s.aggregate);
    0 < s.version <= |stream| && s.state == Replay(INITIAL, stream[..s.version])
  }

  ghost predicate SnapshotsOk(rows: seq<StoredRow>, ss: seq<Snapshot>) {
    ss == [] || (SnapshotsOk(rows, ss[..|ss| - 1]) && SnapshotOk(rows, ss[|ss| - 1]))
  }

  ghost predicate LoadingOk(rows: seq<StoredRow>, l: Loading) {
    l.snapshot.Some? ==> SnapshotOk(rows, l.snapshot.value) && l.snapshot.value.aggregate == l.id
  }

  ghost predicate LoadingsOk(rows: seq<StoredRow>, ls: seq<Loading>) {
    ls == [] || (LoadingsOk(rows, ls[..|ls| - 1]) && LoadingOk(rows, ls[|ls| - 1]))
  }

  lemma {:induction false} SnapshotAt(rows: seq<StoredRow>, ss: seq<Snapshot>, k: nat)
    requires SnapshotsOk(rows, ss) && k < |ss|
    ensures SnapshotOk(rows, ss[k])
  {
    if k < |ss| - 1 { SnapshotAt(rows, ss[..|ss| - 1], k); }
  }

  lemma {:induction false} LoadingAt(rows: seq<StoredRow>, ls: seq<Loading>, k: nat)
    requires LoadingsOk(rows, ls) && k < |ls|
    ensures LoadingOk(rows, ls[k])
  {
    if k < |ls| - 1 { LoadingAt(rows, ls[..|ls| - 1], k); }
  }

  /** Every row carries a minted id. */
  ghost predicate RowsMinted(rows: seq<StoredRow>, minted: map<nat, Handle>) {
    forall k | 0 <= k < |rows| :: rows[k].event.eventId in minted
  }

  /** No row is stamped later than `now`. */
  predicate NotAhead(rows: seq<StoredRow>, now: nat) {
    rows == [] || (NotAhead(rows[..|rows| - 1], now) && rows[|rows| - 1].timestamp <= now)
  }

  lemma {:induction false} NotAheadLater(rows: seq<StoredRow>, now: nat, later: nat)
    requires NotAhead(rows, now) && now <= later
    ensures NotAhead(rows, later)
  {
    if rows != [] { NotAheadLater(rows[..|rows| - 1], now, later); }
  }

  // ---------------------------------------------------------------- the writers

  predicate DistinctIds(es: seq<DomainEvent>) {
    es == [] ||
    var n := |es| - 1;
    DistinctIds(es[..n]) && forall k | 0 <= k < n :: es[k].eventId != es[n].eventId
  }

  lemma {:induction false} IdsDiffer(es: seq<DomainEvent>, i: nat, j: nat)
    requires DistinctIds(es) && i < j < |es|
    ensures es[i].eventId != es[j].eventId
  {
    if j < |es| - 1 { IdsDiffer(es[..|es| - 1], i, j); }
  }

  /** The uncommitted events are the tail of the view, and the view is numbered from 1. */
  ghost predicate Shape(wr: Writer) {
    && |wr.agg.uncommitted| <= |wr.view| == wr.agg.version
    && wr.agg.uncommitted == wr.view[Base(wr.agg)..]
    && (forall i | 0 <= i < |wr.view| :: wr.view[i].version == i + 1)
    && DistinctIds(wr.agg.uncommitted)
  }

  /** Up to its stored events the view is the table's; of the uncommitted events exactly the first
      `stored` are in the table, at their own versions. */
  ghost predicate Anchored(rows: seq<StoredRow>, wr: Writer) {
    var s := Stream(rows, wr.agg.id);
    var known := Base(wr.agg) + wr.stored;
    && wr.stored <= |wr.agg.uncommitted| && 0 <= known <= |s| && known <= |wr.view|
    && s[..known] == wr.view[..known]
    && (forall i | wr.stored <= i < |wr.agg.uncommitted| :: !IdTaken(rows, wr.agg.uncommitted[i].eventId))
  }

  /** The object's state is what its view comes to. */
  ghost predicate Coherent(wr: Writer) {
    wr.view != [] && LegalStream(wr.view) && wr.agg.state == Replay(INITIAL, wr.view)
  }

  /** The object counts from an empty stream, and the stream is not empty. */
  ghost predicate Stranded(rows: seq<StoredRow>, wr: Writer) {
    Base(wr.agg) == 0 && wr.stored == 0 && |Stream(rows, wr.agg.id)| > 0
  }

  ghost predicate PhaseOk(rows: seq<StoredRow>, wr: Writer) {
    match wr.phase
    case Idle => true
    case Appending(i) => i < |wr.agg.uncommitted| && (i == wr.stored || i == 0)
    case Inserting(i, v) =>
      i < |wr.agg.uncommitted| && i == wr.stored && v == Base(wr.agg) + i + 1 && Coherent(wr)
    case Snapshotting(v, state) => SnapshotOk(rows, Snapshot(wr.agg.id, v, state))
  }

  ghost predicate WriterOk(rows: seq<StoredRow>, wr: Writer) {
    && Shape(wr) && Anchored(rows, wr)
    && (Coherent(wr) || Stranded(rows, wr))
    && PhaseOk(rows, wr)
  }

  /** All of a writer's uncommitted events carry ids it minted itself. */
  ghost predicate OwnIds(a: Aggregate, h: Handle, minted: map<nat, Handle>) {
    forall i | 0 <= i < |a.uncommitted| ::
      a.uncommitted[i].eventId in minted && minted[a.uncommitted[i].eventId] == h
  }

  /** Every member of a list, with its place, is as it should be. */
  ghost predicate Each<T>(xs: seq<T>, ok: (nat, T) -> bool) {
    xs == [] ||
    var n := |xs| - 1;
    Each(xs[..n], ok) && ok(n, xs[n])
  }

  lemma {:induction false} EachAt<T>(xs: seq<T>, ok: (nat, T) -> bool, i: nat)
    requires Each(xs, ok) && i < |xs|
    ensures ok(i, xs[i])
  {
    if i < |xs| - 1 { EachAt(xs[..|xs| - 1], ok, i); }
  }

  lemma {:induction false} EachFrom<T>(xs: seq<T>, ok: (nat, T) -> bool)
    requires forall i | 0 <= i < |xs| :: ok(i, xs[i])
    ensures Each(xs, ok)
  {
    if xs != [] {
      var n := |xs| - 1;
      forall i | 0 <= i < n ensures ok(i, xs[..n][i]) {
        assert xs[..n][i] == xs[i];
      }
      EachFrom(xs[..n], ok);
    }
  }

  lemma EachAdd<T>(xs: seq<T>, ok: (nat, T) -> bool, x: T)
    requires Each(xs, ok) && ok(|xs|, x)
    ensures Each(xs + [x], ok)
  {
    assert (xs + [x])[..|xs|] == xs;
  }

  lemma EachReplace<T>(xs: seq<T>, ok: (nat, T) -> bool, i: nat, x: T)
    requires Each(xs, ok) && i < |xs| && ok(i, x)
    ensures Each(xs[i := x], ok)
  {
    var xs' := xs[i := x];
    forall j | 0 <= j < |xs'| ensures ok(j, xs'[j]) { EachAt(xs, ok, j); }
    EachFrom(xs', ok);
  }

  /** A writer is right, and its uncommitted events carry ids it minted itself. */
  ghost function Fine(rows: seq<StoredRow>, minted: map<nat, Handle>): (nat, Writer) -> bool {
    (h: nat, wr: Writer) => WriterOk(rows, wr) && OwnIds(wr.agg, h, minted)
  }

  ghost predicate WritersOk(rows: seq<StoredRow>, writers: seq<Writer>, minted: map<nat, Handle>) {
    Each(writers, Fine(rows, minted))
  }

  lemma WriterAt(rows: seq<StoredRow>, writers: seq<Writer>, minted: map<nat, Handle>, h: Handle)
    requires WritersOk(rows, writers, minted) && h < |writers|
    ensures WriterOk(rows, writers[h]) && OwnIds(writers[h].agg, h, minted)
  {
    EachAt(writers, Fine(rows, minted), h);
  }

  ghost predicate Inv(w: World) {
    && RightRows(w.store.rows)
    && SnapshotsOk(w.store.rows, w.store.snapshots)
    && RowsMinted(w.store.rows, w.minted) && NotAhead(w.store.rows, w.now)
    && WritersOk(w.store.rows, w.writers, w.minted)
    && LoadingsOk(w.store.rows, w.loading)
  }

  // ---------------------------------------------------------------- a row goes in

  lemma SnapshotKept(rows: seq<StoredRow>, row: StoredRow, s: Snapshot)
    requires SnapshotOk(rows, s)
    ensures SnapshotOk(rows + [row], s)
  {
    StreamAppend(rows, row, s.aggregate);
    assert Stream(rows + [row], s.aggregate)[..s.version] == Stream(rows, s.aggregate)[..s.version];
  }

  lemma {:induction false} SnapshotsKept(rows: seq<StoredRow>, row: StoredRow, ss: seq<Snapshot>)
    requires SnapshotsOk(rows, ss)
    ensures SnapshotsOk(rows + [row], ss)
  {
    if ss != [] {
      SnapshotsKept(rows, row, ss[..|ss| - 1]);
      SnapshotKept(rows, row, ss[|ss| - 1]);
    }
  }

  lemma {:induction false} LoadingsKept(rows: seq<StoredRow>, row: StoredRow, ls: seq<Loading>)
    requires LoadingsOk(rows, ls)
    ensures LoadingsOk(rows + [row], ls)
  {
    if ls != [] {
      LoadingsKept(rows, row, ls[..|ls| - 1]);
      var l := ls[|ls| - 1];
      if l.snapshot.Some? { SnapshotKept(rows, row, l.snapshot.value); }
    }
  }

  lemma IdTakenAppend(rows: seq<StoredRow>, row: StoredRow, eventId: nat)
    ensures IdTaken(rows + [row], eventId) <==> IdTaken(rows, eventId) || row.event.eventId == eventId
  {
    if row.event.eventId == eventId { assert (rows + [row])[|rows|] == row; }
    if IdTaken(rows, eventId) {
      var k :| 0 <= k < |rows| && rows[k].event.eventId == eventId;
      assert (rows + [row])[k] == rows[k];
    }
  }

  lemma AnchorKept(rows: seq<StoredRow>, row: StoredRow, wr: Writer)
    requires Anchored(rows, wr)
    requires forall i | wr.stored <= i < |wr.agg.uncommitted| :: wr.agg.uncommitted[i].eventId != row.event.eventId
    ensures Anchored(rows + [row], wr)
  {
    StreamAppend(rows, row, wr.agg.id);
    var known := Base(wr.agg) + wr.stored;
    assert Stream(rows + [row], wr.agg.id)[..known] == Stream(rows, wr.agg.id)[..known];
    forall i | wr.stored <= i < |wr.agg.uncommitted|
      ensures !IdTaken(rows + [row], wr.agg.uncommitted[i].eventId)
    {
      IdTakenAppend(rows, row, wr.agg.uncommitted[i].eventId);
    }
  }

  /** A row some other writer inserts does not disturb this one. */
  lemma OtherWriterKept(rows: seq<StoredRow>, row: StoredRow, wr: Writer)
    requires WriterOk(rows, wr)
    requires forall i | 0 <= i < |wr.agg.uncommitted| :: wr.agg.uncommitted[i].eventId != row.event.eventId
    ensures WriterOk(rows + [row], wr)
  {
    StreamAppend(rows, row, wr.agg.id);
    AnchorKept(rows, row, wr);
    if wr.phase.Snapshotting? {
      SnapshotKept(rows, row, Snapshot(wr.agg.id, wr.phase.version, wr.phase.state));
    }
  }

  lemma AddWriter(rows: seq<StoredRow>, writers: seq<Writer>, minted: map<nat, Handle>, wr: Writer)
    requires WritersOk(rows, writers, minted) && WriterOk(rows, wr) && OwnIds(wr.agg, |writers|, minted)
    ensures WritersOk(rows, writers + [wr], minted)
  {
    EachAdd(writers, Fine(rows, minted), wr);
  }

  /** The inserting writer is replaced and every other writer keeps its footing. */
  lemma WritersKept(rows: seq<StoredRow>, row: StoredRow, writers: seq<Writer>, minted: map<nat, Handle>, h: Handle,
                    wr: Writer)
    requires WritersOk(rows, writers, minted) && h < |writers|
    requires row.event.eventId in minted && minted[row.event.eventId] == h
    requires WriterOk(rows + [row], wr) && OwnIds(wr.agg, h, minted)
    ensures WritersOk(rows + [row], writers[h := wr], minted)
  {
    var writers' := writers[h := wr];
    forall i | 0 <= i < |writers'| ensures Fine(rows + [row], minted)(i, writers'[i]) {
      if i != h {
        WriterAt(rows, writers, minted, i);
        OtherWriterKept(rows, row, writers[i]);
      }
    }
    EachFrom(writers', Fine(rows + [row], minted));
  }

  /** An insert that the unique key lets in lands right after what the object was loaded from and
      has stored so far; so it is the next event of the object's own view. */
  lemma InsertLandsNext(rows: seq<StoredRow>, wr: Writer, now: nat)
    requires Contiguous(rows) && Shape(wr) && Anchored(rows, wr) && wr.phase.Inserting? && PhaseOk(rows, wr)
    requires !VersionTaken(rows, wr.agg.id, wr.phase.newVersion)
    ensures var known := Base(wr.agg) + wr.stored;
      && 0 <= known < |wr.view| && Stream(rows, wr.agg.id) == wr.view[..known]
      && Pending(wr, now).event == wr.view[known]
      && Stream(rows + [Pending(wr, now)], wr.agg.id) == wr.view[..known + 1]
  {
    HeadIsKnown(rows, wr);
    PendingIsNext(wr, now);
    StreamAppend(rows, Pending(wr, now), wr.agg.id);
  }

  /** The row carries the next event of the view. */
  lemma PendingIsNext(wr: Writer, now: nat)
    requires Shape(wr) && wr.phase == Inserting(wr.stored, Base(wr.agg) + wr.stored + 1)
    requires 0 <= Base(wr.agg) && wr.stored < |wr.agg.uncommitted|
    ensures var known := Base(wr.agg) + wr.stored;
      && known < |wr.view| && Pending(wr, now).event == wr.view[known]
      && wr.view[..known] + [wr.view[known]] == wr.view[..known + 1]
  {
    assert wr.agg.uncommitted[wr.stored] == wr.view[Base(wr.agg) + wr.stored];
  }

  lemma HeadIsKnown(rows: seq<StoredRow>, wr: Writer)
    requires Contiguous(rows) && Shape(wr) && Anchored(rows, wr) && wr.phase.Inserting? && PhaseOk(rows, wr)
    requires !VersionTaken(rows, wr.agg.id, wr.phase.newVersion)
    ensures Stream(rows, wr.agg.id) == wr.view[..Base(wr.agg) + wr.stored]
  {
    var s := Stream(rows, wr.agg.id);
    MaxIsLength(rows, wr.agg.id);
    assert s[..|s|] == s;
  }

  lemma OwnAnchor(rows: seq<StoredRow>, wr: Writer, row: StoredRow)
    requires Shape(wr) && Anchored(rows, wr) && wr.stored < |wr.agg.uncommitted|
    requires row.event.eventId == wr.agg.uncommitted[wr.stored].eventId
    requires Stream(rows + [row], wr.agg.id) == wr.view[..Base(wr.agg) + wr.stored + 1]
    ensures Anchored(rows + [row], wr.(stored := wr.stored + 1))
  {
    forall k | wr.stored + 1 <= k < |wr.agg.uncommitted|
      ensures !IdTaken(rows + [row], wr.agg.uncommitted[k].eventId)
    {
      IdsDiffer(wr.agg.uncommitted, wr.stored, k);
      IdTakenAppend(rows, row, wr.agg.uncommitted[k].eventId);
    }
  }

  /** Once the table holds the whole view, the commit mark leaves the object right. */
  lemma CommittedOk(rows: seq<StoredRow>, wr: Writer)
    requires Shape(wr) && Coherent(wr) && Stream(rows, wr.agg.id) == wr.view
    ensures WriterOk(rows, Committed(wr))
  {
    assert wr.view[..|wr.view|] == wr.view;
  }

  /** The inserting writer itself after its row is in. */
  lemma OwnWriterKept(rows: seq<StoredRow>, wr: Writer, now: nat, outcome: Outcome)
    requires Contiguous(rows) && WriterOk(rows, wr) && wr.phase.Inserting?
    requires !VersionTaken(rows, wr.agg.id, wr.phase.newVersion)
    ensures WriterOk(rows + [Pending(wr, now)], AfterInsert(wr, outcome))
  {
    var row := Pending(wr, now);
    InsertLandsNext(rows, wr, now);
    if outcome != FailedAfter && wr.stored + 1 == |wr.agg.uncommitted| {
      assert wr.view[..|wr.view|] == wr.view;
      CommittedOk(rows + [row], wr);
    } else {
      OwnAnchor(rows, wr, row);
    }
  }

  /** The row a writer is about to insert is legal and numbered right ... */
  lemma NextRowIsLegal(rows: seq<StoredRow>, wr: Writer, now: nat)
    requires Contiguous(rows) && Shape(wr) && Anchored(rows, wr) && wr.phase.Inserting? && PhaseOk(rows, wr)
    requires !VersionTaken(rows, wr.agg.id, wr.phase.newVersion)
    ensures var row := Pending(wr, now);
      LegalStream(Stream(rows, wr.agg.id) + [row.event]) && row.event.version == |Stream(rows, wr.agg.id)| + 1
  {
    var known := Base(wr.agg) + wr.stored;
    InsertLandsNext(rows, wr, now);
    LegalPrefix(wr.view, known + 1);
    assert Stream(rows, wr.agg.id) + [Pending(wr, now).event] == wr.view[..known + 1];
  }

  /** ... and stamped late enough. */
  lemma NextRowIsRight(rows: seq<StoredRow>, wr: Writer, now: nat)
    requires RightRows(rows) && NotAhead(rows, now)
    requires Shape(wr) && Anchored(rows, wr) && wr.phase.Inserting? && PhaseOk(rows, wr)
    requires !VersionTaken(rows, wr.agg.id, wr.phase.newVersion)
    ensures RightRow(rows, Pending(wr, now))
  {
    RightRowsContiguous(rows);
    NextRowIsLegal(rows, wr, now);
    StampsAreRows(rows, wr.agg.id, now);
  }

  lemma RowIsRight(rows: seq<StoredRow>, wr: Writer, now: nat)
    requires RightRows(rows) && NotAhead(rows, now)
    requires Shape(wr) && Anchored(rows, wr) && wr.phase.Inserting? && PhaseOk(rows, wr)
    requires !VersionTaken(rows, wr.agg.id, wr.phase.newVersion)
    ensures RightRows(rows + [Pending(wr, now)]) && NotAhead(rows + [Pending(wr, now)], now)
  {
    NextRowIsRight(rows, wr, now);
    AddRightRow(rows, Pending(wr, now), now);
  }

  lemma AddRightRow(rows: seq<StoredRow>, row: StoredRow, now: nat)
    requires RightRows(rows) && RightRow(rows, row) && NotAhead(rows, now) && row.timestamp <= now
    ensures RightRows(rows + [row]) && NotAhead(rows + [row], now)
  {
    assert (rows + [row])[..|rows|] == rows;
  }

  lemma {:induction false} StampsAreRows(rows: seq<StoredRow>, id: AggregateId, now: nat)
    requires NotAhead(rows, now)
    ensures forall i | 0 <= i < |Stamps(rows, id)| :: Stamps(rows, id)[i] <= now
  {
    if rows != [] { StampsAreRows(rows[..|rows| - 1], id, now); }
  }

  // ---------------------------------------------------------------- every step keeps the invariant

  lemma ReplaceWriter(rows: seq<StoredRow>, writers: seq<Writer>, minted: map<nat, Handle>, h: Handle, wr: Writer)
    requires WritersOk(rows, writers, minted) && h < |writers|
    requires WriterOk(rows, wr) && OwnIds(wr.agg, h, minted)
    ensures WritersOk(rows, writers[h := wr], minted)
  {
    EachReplace(writers, Fine(rows, minted), h, wr);
  }

  lemma MintMore(rows: seq<StoredRow>, writers: seq<Writer>, minted: map<nat, Handle>, eventId: nat, h: Handle)
    requires WritersOk(rows, writers, minted) && eventId !in minted
    ensures WritersOk(rows, writers, minted[eventId := h])
  {
    forall i | 0 <= i < |writers| ensures Fine(rows, minted[eventId := h])(i, writers[i]) {
      WriterAt(rows, writers, minted, i);
    }
    EachFrom(writers, Fine(rows, minted[eventId := h]));
  }

  lemma PhaseChange(w: World, h: Handle, p: Phase)
    requires Inv(w) && h < |w.writers| && PhaseOk(w.store.rows, w.writers[h].(phase := p))
    ensures Inv(SetPhase(w, h, p))
  {
    WriterAt(w.store.rows, w.writers, w.minted, h);
    PhaseChangeOk(w.store.rows, w.writers[h], p);
    ReplaceWriter(w.store.rows, w.writers, w.minted, h, w.writers[h].(phase := p));
  }

  lemma PhaseChangeOk(rows: seq<StoredRow>, wr: Writer, p: Phase)
    requires WriterOk(rows, wr) && PhaseOk(rows, wr.(phase := p))
    ensures WriterOk(rows, wr.(phase := p))
  {
  }

  /** The row that goes in leaves every writer right, the inserting one moved on. */
  lemma RowKeepsWriters(w: World, h: Handle, outcome: Outcome)
    requires Inv(w) && Enabled(w, InsertEvent(h, outcome))
    requires !VersionTaken(w.store.rows, w.writers[h].agg.id, w.writers[h].phase.newVersion)
    ensures WritersOk(w.store.rows + [Pending(w.writers[h], w.now)],
                      w.writers[h := AfterInsert(w.writers[h], outcome)], w.minted)
  {
    var wr := w.writers[h];
    WriterAt(w.store.rows, w.writers, w.minted, h);
    RightRowsContiguous(w.store.rows);
    OwnWriterKept(w.store.rows, wr, w.now, outcome);
    WritersKept(w.store.rows, Pending(wr, w.now), w.writers, w.minted, h, AfterInsert(wr, outcome));
  }

  lemma RowGoesIn(w: World, h: Handle, outcome: Outcome)
    requires Inv(w) && Enabled(w, InsertEvent(h, outcome))
    requires !VersionTaken(w.store.rows, w.writers[h].agg.id, w.writers[h].phase.newVersion)
    ensures Inv(SetWriter(AddRow(w, Pending(w.writers[h], w.now)), h, AfterInsert(w.writers[h], outcome)))
  {
    var row := Pending(w.writers[h], w.now);
    WriterAt(w.store.rows, w.writers, w.minted, h);
    RowIsRight(w.store.rows, w.writers[h], w.now);
    RowKeepsWriters(w, h, outcome);
    SnapshotsKept(w.store.rows, row, w.store.snapshots);
    LoadingsKept(w.store.rows, row, w.loading);
  }

  /** The writer after event `e` has been raised on its object. */
  function Raised(wr: Writer, e: DomainEvent): Writer {
    wr.(agg := RaiseEvent(wr.agg, e.payload, e.eventId), view := wr.view + [e])
  }

  lemma RaisedShape(wr: Writer, e: DomainEvent)
    requires Shape(wr) && e.version == wr.agg.version + 1
    requires forall i | 0 <= i < |wr.agg.uncommitted| :: wr.agg.uncommitted[i].eventId != e.eventId
    ensures Shape(Raised(wr, e))
  {
    assert (wr.agg.uncommitted + [e])[..|wr.agg.uncommitted|] == wr.agg.uncommitted;
    assert (wr.view + [e])[Base(wr.agg)..] == wr.agg.uncommitted + [e];
  }

  lemma RaisedAnchor(rows: seq<StoredRow>, wr: Writer, e: DomainEvent)
    requires Anchored(rows, wr) && !IdTaken(rows, e.eventId) && e.version == wr.agg.version + 1
    ensures Anchored(rows, Raised(wr, e))
  {
    var known := Base(wr.agg) + wr.stored;
    assert (wr.view + [e])[..known] == wr.view[..known];
  }

  lemma RaisedOk(rows: seq<StoredRow>, wr: Writer, e: DomainEvent)
    requires WriterOk(rows, wr) && !IdTaken(rows, e.eventId) && e.version == wr.agg.version + 1
    requires forall i | 0 <= i < |wr.agg.uncommitted| :: wr.agg.uncommitted[i].eventId != e.eventId
    requires Legal(wr.agg.state, e.payload)
    ensures WriterOk(rows, Raised(wr, e))
  {
    RaisedShape(wr, e);
    RaisedAnchor(rows, wr, e);
    if Coherent(wr) { LegalExtend(wr.view, e); }
  }

  lemma IssuedOk(rows: seq<StoredRow>, wr: Writer, c: Command, eventId: nat)
    requires WriterOk(rows, wr) && !IdTaken(rows, eventId)
    requires forall i | 0 <= i < |wr.agg.uncommitted| :: wr.agg.uncommitted[i].eventId != eventId
    ensures WriterOk(rows, Issued(wr, c, eventId))
  {
    CommandsAreLegal(wr.agg.state, c);
    if Decide(wr.agg.state, c).Raise? {
      var e := DomainEvent(eventId, Decide(wr.agg.state, c).payload, wr.agg.version + 1);
      RaisedOk(rows, wr, e);
      assert Issued(wr, c, eventId) == Raised(wr, e);
    }
  }

  lemma IssuedIds(wr: Writer, c: Command, eventId: nat, h: Handle, minted: map<nat, Handle>)
    requires OwnIds(wr.agg, h, minted) && eventId !in minted
    ensures OwnIds(Issued(wr, c, eventId).agg, h, minted[eventId := h])
  {
  }

  lemma FreshIssueOk(rows: seq<StoredRow>, wr: Writer, c: Command, eventId: nat, h: Handle, minted: map<nat, Handle>)
    requires WriterOk(rows, wr) && RowsMinted(rows, minted) && OwnIds(wr.agg, h, minted) && eventId !in minted
    ensures WriterOk(rows, Issued(wr, c, eventId))
  {
    assert !IdTaken(rows, eventId);
    forall i | 0 <= i < |wr.agg.uncommitted| ensures wr.agg.uncommitted[i].eventId != eventId {
      assert wr.agg.uncommitted[i].eventId in minted;
    }
    IssuedOk(rows, wr, c, eventId);
  }

  lemma StepIssue(w: World, h: Handle, c: Command, eventId: nat)
    requires Inv(w) && Enabled(w, Issue(h, c, eventId))
    ensures Inv(Act(w, Issue(h, c, eventId)))
  {
    WriterAt(w.store.rows, w.writers, w.minted, h);
    FreshIssueOk(w.store.rows, w.writers[h], c, eventId, h, w.minted);
    IssuedIds(w.writers[h], c, eventId, h, w.minted);
    MintMore(w.store.rows, w.writers, w.minted, eventId, h);
    ReplaceWriter(w.store.rows, w.writers, w.minted[eventId := h], h, Issued(w.writers[h], c, eventId));
  }

  lemma OpenedOk(rows: seq<StoredRow>, id: AggregateId, eventId: nat)
    requires !IdTaken(rows, eventId)
    ensures WriterOk(rows, OpenedWriter(id, eventId))
  {
    var wr := OpenedWriter(id, eventId);
    assert wr.view[..0] == [] == Stream(rows, id)[..0];
    LegalExtend([], wr.view[0]);
    assert [] + [wr.view[0]] == wr.view;
  }

  lemma StepOpen(w: World, id: AggregateId, eventId: nat)
    requires Inv(w) && Enabled(w, Open(id, eventId))
    ensures Inv(Act(w, Open(id, eventId)))
  {
    OpenedOk(w.store.rows, id, eventId);
    MintMore(w.store.rows, w.writers, w.minted, eventId, |w.writers|);
    AddWriter(w.store.rows, w.writers, w.minted[eventId := |w.writers|], OpenedWriter(id, eventId));
  }

  /** What `load` returns is the replay of the whole stream as of the tail read; its version is
      the head unless nothing follows the snapshot, and then it is 0. */
  lemma LoadTailReplaysAll(rows: seq<StoredRow>, id: AggregateId, snapshot: Option<Snapshot>)
    requires Contiguous(rows) && LoadingOk(rows, Loading(id, snapshot))
    ensures var r := LoadTail(rows, id, snapshot);
      var head := |Stream(rows, id)|;
      var version := if snapshot.Some? && snapshot.value.version == head then 0 else head;
      && (r.None? <==> head == 0)
      && (r.Some? ==> r.value == Aggregate(id, Replay(INITIAL, Stream(rows, id)), version, []))
  {
    var from := if snapshot.Some? then snapshot.value.version else 0;
    var state := if snapshot.Some? then snapshot.value.state else INITIAL;
    var s := Stream(rows, id);
    LoadFromHistoryReplays(Aggregate(id, state, 0, []), s[from..]);
    ReplayConcat(INITIAL, s[..from], s[from..]);
    assert s[..from] + s[from..] == s;
  }

  /** The writer of an object that has everything stored and nothing uncommitted. */
  function Settled(id: AggregateId, s: seq<DomainEvent>): Writer {
    Writer(Aggregate(id, Replay(INITIAL, s), |s|, []), Idle, 0, s)
  }

  lemma SettledShape(id: AggregateId, s: seq<DomainEvent>)
    requires Numbered(s)
    ensures Shape(Settled(id, s))
  {
    assert s[|s|..] == [];
  }

  lemma SettledAnchor(rows: seq<StoredRow>, id: AggregateId)
    ensures Anchored(rows, Settled(id, Stream(rows, id)))
  {
  }

  /** An object holding the whole stream is right; what is loaded is one, or has lost count. */
  lemma HeadOk(rows: seq<StoredRow>, id: AggregateId)
    requires RightRows(rows) && Stream(rows, id) != []
    ensures WriterOk(rows, Settled(id, Stream(rows, id)))
  {
    RightRowsLegal(rows, id);
    SettledShape(id, Stream(rows, id));
    SettledAnchor(rows, id);
  }

  lemma LoadedOk(rows: seq<StoredRow>, id: AggregateId, snapshot: Option<Snapshot>)
    requires RightRows(rows) && LoadingOk(rows, Loading(id, snapshot))
    requires LoadTail(rows, id, snapshot).Some?
    ensures WriterOk(rows, LoadedWriter(rows, LoadTail(rows, id, snapshot).value))
    ensures LoadTail(rows, id, snapshot).value.uncommitted == []
  {
    RightRowsContiguous(rows);
    LoadTailReplaysAll(rows, id, snapshot);
    HeadOk(rows, id);
    var wr := LoadedWriter(rows, LoadTail(rows, id, snapshot).value);
    if wr.agg.version == 0 {
      assert Stranded(rows, wr) && Shape(wr);
      assert Stream(rows, id)[..0] == wr.view[..0];
    }
  }

  lemma StepReadTail(w: World, l: nat)
    requires Inv(w) && Enabled(w, ReadTail(l))
    ensures Inv(Act(w, ReadTail(l)))
  {
    LoadingAt(w.store.rows, w.loading, l);
    LoadedOk(w.store.rows, w.loading[l].id, w.loading[l].snapshot);
    var a := LoadTail(w.store.rows, w.loading[l].id, w.loading[l].snapshot).value;
    AddWriter(w.store.rows, w.writers, w.minted, LoadedWriter(w.store.rows, a));
  }

  lemma ReadVersionOk(rows: seq<StoredRow>, wr: Writer)
    requires Contiguous(rows) && WriterOk(rows, wr) && wr.phase.Appending?
    requires wr.agg.uncommitted[wr.phase.next].version - 1 == MaxVersion(rows, wr.agg.id)
    ensures PhaseOk(rows, wr.(phase := Inserting(wr.phase.next, MaxVersion(rows, wr.agg.id) + 1)))
  {
    MaxIsLength(rows, wr.agg.id);
    assert wr.agg.uncommitted[wr.phase.next] == wr.view[Base(wr.agg) + wr.phase.next];
  }

  /** A check that passes leads to the insert, any other one back to rest. */
  lemma ReadVersionActs(w: World, h: Handle, outcome: Outcome)
    requires Enabled(w, ReadVersion(h, outcome))
    ensures var wr, current := w.writers[h], MaxVersion(w.store.rows, w.writers[h].agg.id);
      Act(w, ReadVersion(h, outcome))
        == SetPhase(w, h, if outcome == Done && wr.agg.uncommitted[wr.phase.next].version - 1 == current
                          then Inserting(wr.phase.next, current + 1) else Idle)
  {
  }

  lemma CheckPassed(w: World, h: Handle)
    requires Inv(w) && Enabled(w, ReadVersion(h, Done))
    requires var wr := w.writers[h];
      wr.agg.uncommitted[wr.phase.next].version - 1 == MaxVersion(w.store.rows, wr.agg.id)
    ensures var wr := w.writers[h];
      Inv(SetPhase(w, h, Inserting(wr.phase.next, MaxVersion(w.store.rows, wr.agg.id) + 1)))
  {
    ReadVersionAt(w, h);
    PhaseChange(w, h, Inserting(w.writers[h].phase.next, MaxVersion(w.store.rows, w.writers[h].agg.id) + 1));
  }

  lemma StepReadVersion(w: World, h: Handle, outcome: Outcome)
    requires Inv(w) && Enabled(w, ReadVersion(h, outcome))
    ensures Inv(Act(w, ReadVersion(h, outcome)))
  {
    var a, i := w.writers[h].agg, w.writers[h].phase.next;
    ReadVersionActs(w, h, outcome);
    if outcome == Done && a.uncommitted[i].version - 1 == MaxVersion(w.store.rows, a.id) {
      CheckPassed(w, h);
    } else {
      PhaseChange(w, h, Idle);
    }
  }

  lemma ReadVersionAt(w: World, h: Handle)
    requires Inv(w) && Enabled(w, ReadVersion(h, Done))
    requires var wr := w.writers[h];
      wr.agg.uncommitted[wr.phase.next].version - 1 == MaxVersion(w.store.rows, wr.agg.id)
    ensures var wr := w.writers[h];
      PhaseOk(w.store.rows, wr.(phase := Inserting(wr.phase.next, MaxVersion(w.store.rows, wr.agg.id) + 1)))
  {
    WriterAt(w.store.rows, w.writers, w.minted, h);
    RightRowsContiguous(w.store.rows);
    ReadVersionOk(w.store.rows, w.writers[h]);
  }

  lemma StepWriteSnapshot(w: World, h: Handle, outcome: Outcome)
    requires Inv(w) && Enabled(w, WriteSnapshot(h, outcome))
    ensures Inv(Act(w, WriteSnapshot(h, outcome)))
  {
    var wr := w.writers[h];
    var s := Snapshot(wr.agg.id, wr.phase.version, wr.phase.state);
    var snapshots := InsertSnapshot(w.store.snapshots, s, outcome).0;
    WriterAt(w.store.rows, w.writers, w.minted, h);
    assert (w.store.snapshots + [s])[..|w.store.snapshots|] == w.store.snapshots;
    PhaseChange(w.(store := w.store.(snapshots := snapshots)), h, Idle);
  }

  lemma StepReadSnapshot(w: World, id: AggregateId)
    requires Inv(w)
    ensures Inv(Act(w, ReadSnapshot(id)))
  {
    var l := Loading(id, LatestSnapshot(w.store.snapshots, id));
    LatestIsNewest(w.store.snapshots, id);
    if l.snapshot.Some? {
      var k :| 0 <= k < |w.store.snapshots| && w.store.snapshots[k] == l.snapshot.value;
      SnapshotAt(w.store.rows, w.store.snapshots, k);
    }
    assert (w.loading + [l])[..|w.loading|] == w.loading;
  }

  lemma StepInsertEvent(w: World, h: Handle, outcome: Outcome)
    requires Inv(w) && Enabled(w, InsertEvent(h, outcome))
    ensures Inv(Act(w, InsertEvent(h, outcome)))
  {
    var row := Pending(w.writers[h], w.now);
    if outcome == Failed || !CanInsert(w.store.rows, row.aggregate, row.event.version, row.event.eventId) {
      PhaseChange(w, h, Idle);
    } else {
      RowGoesIn(w, h, outcome);
    }
  }

  lemma StepBeginSave(w: World, h: Handle)
    requires Inv(w) && Enabled(w, BeginSave(h))
    ensures Inv(Act(w, BeginSave(h)))
  {
    PhaseChange(w, h, Appending(0));
  }

  lemma StepTick(w: World, ms: nat)
    requires Inv(w)
    ensures Inv(w.(now := w.now + ms))
  {
    NotAheadLater(w.store.rows, w.now, w.now + ms);
  }

  lemma StepKeeps(w: World, s: Step)
    requires Inv(w)
    ensures Inv(Next(w, s))
  {
    if Enabled(w, s) {
      match s
      case Open(id, eventId) => StepOpen(w, id, eventId);
      case ReadSnapshot(id) => StepReadSnapshot(w, id);
      case ReadTail(l) => StepReadTail(w, l);
      case Issue(h, c, eventId) => StepIssue(w, h, c, eventId);
      case BeginSave(h) => StepBeginSave(w, h);
      case ReadVersion(h, outcome) => StepReadVersion(w, h, outcome);
      case InsertEvent(h, outcome) => StepInsertEvent(w, h, outcome);
      case WriteSnapshot(h, outcome) => StepWriteSnapshot(w, h, outcome);
      case Tick(ms) => StepTick(w, ms);
    }
  }

  lemma {:induction false} RunKeeps(w: World, steps: seq<Step>)
    requires Inv(w)
    ensures Inv(Run(w, steps))
  {
    if steps != [] {
      RunKeeps(w, steps[..|steps| - 1]);
      StepKeeps(Run(w, steps[..|steps| - 1]), steps[|steps| - 1]);
    }
  }
}
