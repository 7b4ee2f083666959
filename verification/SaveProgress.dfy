/** What one `load`, some commands and one `save` come to when nobody else is writing; and that
    `save` as one call is a run of the small-step machine. */
module SaveProgress {
  import opened Options
  import opened AccountEvents
  import opened EventStore
  import opened Aggregates
  import opened ConcurrentWriters
  import opened WriterTheorems

  /** Commands issued one after another on one object, each with its own fresh event id. */
  function ExecuteAll(a: Aggregate, commands: seq<Command>, ids: seq<nat>): Aggregate
    requires |commands| == |ids|
  {
    if commands == [] then a
    else
      var n := |commands| - 1;
      Execute(ExecuteAll(a, commands[..n], ids[..n]), commands[n], ids[n])
  }

  predicate FreshIds(rows: seq<StoredRow>, ids: seq<nat>) {
    ids == [] ||
    var n := |ids| - 1;
    FreshIds(rows, ids[..n]) && !IdTaken(rows, ids[n]) && ids[n] !in ids[..n]
  }

  /** A store as the machine leaves it, at time `now`. */
  ghost predicate Healthy(store: Store, now: nat) {
    RightRows(store.rows) && SnapshotsOk(store.rows, store.snapshots) && NotAhead(store.rows, now)
  }

  // ---------------------------------------------------------------- commands keep the writer right

  function IssuedAll(wr: Writer, commands: seq<Command>, ids: seq<nat>): Writer
    requires |commands| == |ids|
  {
    if commands == [] then wr
    else
      var n := |commands| - 1;
      Issued(IssuedAll(wr, commands[..n], ids[..n]), commands[n], ids[n])
  }

  lemma {:induction false} IssuedAllFrame(wr: Writer, commands: seq<Command>, ids: seq<nat>)
    requires |commands| == |ids|
    ensures var r := IssuedAll(wr, commands, ids);
      && r.agg == ExecuteAll(wr.agg, commands, ids)
      && r.agg.id == wr.agg.id && Base(r.agg) == Base(wr.agg) && r.stored == wr.stored && r.phase == wr.phase
  {
    if commands != [] {
      var n := |commands| - 1;
      IssuedAllFrame(wr, commands[..n], ids[..n]);
    }
  }

  /** The ids in an object's uncommitted events are its own earlier ones and those it was given. */
  lemma {:induction false} IssuedAllIds(wr: Writer, commands: seq<Command>, ids: seq<nat>, other: nat)
    requires |commands| == |ids| && other !in ids
    requires forall e | e in wr.agg.uncommitted :: e.eventId != other
    ensures forall e | e in IssuedAll(wr, commands, ids).agg.uncommitted :: e.eventId != other
  {
    if commands != [] {
      var n := |commands| - 1;
      IssuedAllIds(wr, commands[..n], ids[..n], other);
    }
  }

  lemma {:induction false} IssuedAllOk(rows: seq<StoredRow>, wr: Writer, commands: seq<Command>, ids: seq<nat>)
    requires |commands| == |ids| && WriterOk(rows, wr) && FreshIds(rows, ids)
    requires forall e | e in wr.agg.uncommitted :: e.eventId !in ids
    ensures WriterOk(rows, IssuedAll(wr, commands, ids))
    ensures Coherent(wr) ==> Coherent(IssuedAll(wr, commands, ids))
  {
    if commands != [] {
      var n := |commands| - 1;
      var before := IssuedAll(wr, commands[..n], ids[..n]);
      IssuedAllOk(rows, wr, commands[..n], ids[..n]);
      IssuedAllIds(wr, commands[..n], ids[..n], ids[n]);
      IssuedOk(rows, before, commands[n], ids[n]);
      if Coherent(before) { IssuedCoherent(before, commands[n], ids[n]); }
    }
  }

  lemma IssuedCoherent(wr: Writer, c: Command, eventId: nat)
    requires Coherent(wr)
    ensures Coherent(Issued(wr, c, eventId))
  {
    CommandsAreLegal(wr.agg.state, c);
    if Decide(wr.agg.state, c).Raise? {
      LegalExtend(wr.view, DomainEvent(eventId, Decide(wr.agg.state, c).payload, wr.agg.version + 1));
    }
  }

  // ---------------------------------------------------------------- an undisturbed save

  /** A writer whose next uncommitted event is the next event of its stream. */
  ghost predicate AtHead(rows: seq<StoredRow>, wr: Writer) {
    && Shape(wr) && Anchored(rows, wr) && Coherent(wr)
    && Stream(rows, wr.agg.id) == wr.view[..Base(wr.agg) + wr.stored]
  }

  lemma AnchoredAtHead(rows: seq<StoredRow>, wr: Writer)
    requires Shape(wr) && Anchored(rows, wr) && Coherent(wr)
    requires Base(wr.agg) + wr.stored == |Stream(rows, wr.agg.id)|
    ensures AtHead(rows, wr)
  {
    var s := Stream(rows, wr.agg.id);
    assert s[..|s|] == s;
  }

  /** The row such a writer stores next. */
  function NextRow(wr: Writer, now: nat): StoredRow
    requires wr.stored < |wr.agg.uncommitted|
  {
    var e := wr.agg.uncommitted[wr.stored];
    Stored(wr.agg.id, e, e.version, now)
  }

  lemma NextAppend(rows: seq<StoredRow>, wr: Writer, now: nat)
    requires Contiguous(rows) && AtHead(rows, wr) && wr.stored < |wr.agg.uncommitted|
    ensures var e := wr.agg.uncommitted[wr.stored];
      && e.version == Base(wr.agg) + wr.stored + 1 == |Stream(rows, wr.agg.id)| + 1
      && AppendOne(rows, wr.agg.id, e, Some(e.version - 1), now, Done) == (rows + [NextRow(wr, now)], false)
  {
    MaxIsLength(rows, wr.agg.id);
    assert wr.agg.uncommitted[wr.stored] == wr.view[Base(wr.agg) + wr.stored];
  }

  /** The same writer about to insert that row. */
  function Ready(wr: Writer): Writer
    requires Base(wr.agg) >= 0
  {
    wr.(phase := Inserting(wr.stored, Base(wr.agg) + wr.stored + 1))
  }

  lemma NextIsFree(rows: seq<StoredRow>, wr: Writer, now: nat)
    requires Contiguous(rows) && AtHead(rows, wr) && wr.stored < |wr.agg.uncommitted|
    ensures PhaseOk(rows, Ready(wr)) && !VersionTaken(rows, wr.agg.id, Ready(wr).phase.newVersion)
    ensures Pending(Ready(wr), now) == NextRow(wr, now)
  {
    MaxIsLength(rows, wr.agg.id);
    NextAppend(rows, wr, now);
  }

  /** One append of an undisturbed save: the table stays right, ... */
  lemma AppendLands(rows: seq<StoredRow>, wr: Writer, now: nat)
    requires RightRows(rows) && NotAhead(rows, now) && AtHead(rows, wr) && wr.stored < |wr.agg.uncommitted|
    ensures RightRows(rows + [NextRow(wr, now)]) && NotAhead(rows + [NextRow(wr, now)], now)
  {
    RightRowsContiguous(rows);
    NextIsFree(rows, wr, now);
    RowIsRight(rows, Ready(wr), now);
  }

  /** ... and the writer stays at the head. */
  lemma HeadMoves(rows: seq<StoredRow>, wr: Writer, now: nat)
    requires Contiguous(rows) && AtHead(rows, wr) && wr.stored < |wr.agg.uncommitted|
    ensures AtHead(rows + [NextRow(wr, now)], wr.(stored := wr.stored + 1))
  {
    NextIsFree(rows, wr, now);
    InsertLandsNext(rows, Ready(wr), now);
    OwnAnchor(rows, wr, NextRow(wr, now));
  }

  /** Both, and all other streams stay. */
  lemma OneLands(rows: seq<StoredRow>, ss: seq<Snapshot>, wr: Writer, now: nat)
    requires Healthy(Store(rows, ss), now) && AtHead(rows, wr) && wr.stored < |wr.agg.uncommitted|
    ensures var row, e := NextRow(wr, now), wr.agg.uncommitted[wr.stored];
      && AppendOne(rows, wr.agg.id, e, Some(e.version - 1), now, Done) == (rows + [row], false)
      && Healthy(Store(rows + [row], ss), now) && AtHead(rows + [row], wr.(stored := wr.stored + 1))
      && forall other | other != wr.agg.id :: Stream(rows + [row], other) == Stream(rows, other)
  {
    var row := NextRow(wr, now);
    RightRowsContiguous(rows);
    NextAppend(rows, wr, now);
    AppendLands(rows, wr, now);
    HeadMoves(rows, wr, now);
    SnapshotsKept(rows, row, ss);
    forall other | other != wr.agg.id ensures Stream(rows + [row], other) == Stream(rows, other) {
      StreamAppend(rows, row, other);
    }
  }

  /** What the append loop comes to from here: the rest of the view is stored, and nothing else. */
  ghost predicate Landed(rows: seq<StoredRow>, ss: seq<Snapshot>, wr: Writer, now: nat, outcomes: nat -> Outcome,
                         rows': seq<StoredRow>)
  {
    && AppendAll(rows, wr.agg, wr.stored, now, outcomes) == (rows', false)
    && Healthy(Store(rows', ss), now) && Stream(rows', wr.agg.id) == wr.view
    && forall other | other != wr.agg.id :: Stream(rows', other) == Stream(rows, other)
  }

  lemma NothingLeft(rows: seq<StoredRow>, ss: seq<Snapshot>, wr: Writer, now: nat, outcomes: nat -> Outcome)
    requires Healthy(Store(rows, ss), now) && AtHead(rows, wr) && wr.stored == |wr.agg.uncommitted|
    ensures Landed(rows, ss, wr, now, outcomes, rows)
  {
    assert wr.view[..|wr.view|] == wr.view;
  }

  lemma LandedBefore(rows: seq<StoredRow>, ss: seq<Snapshot>, wr: Writer, now: nat, outcomes: nat -> Outcome,
                     rows': seq<StoredRow>)
    requires Healthy(Store(rows, ss), now) && AtHead(rows, wr) && wr.stored < |wr.agg.uncommitted|
    requires outcomes(wr.stored) == Done
    requires Landed(rows + [NextRow(wr, now)], ss, wr.(stored := wr.stored + 1), now, outcomes, rows')
    ensures Landed(rows, ss, wr, now, outcomes, rows')
  {
    OneLands(rows, ss, wr, now);
    AppendAllStep(rows, wr.agg, wr.stored, now, outcomes);
  }

  lemma {:induction false} AppendAllLands(rows: seq<StoredRow>, ss: seq<Snapshot>, wr: Writer, now: nat,
                                          outcomes: nat -> Outcome)
    returns (rows': seq<StoredRow>)
    requires Healthy(Store(rows, ss), now) && AtHead(rows, wr)
    requires forall i :: outcomes(i) == Done
    ensures Landed(rows, ss, wr, now, outcomes, rows')
    decreases |wr.agg.uncommitted| - wr.stored
  {
    if wr.stored == |wr.agg.uncommitted| {
      rows' := rows;
      NothingLeft(rows, ss, wr, now, outcomes);
    } else {
      OneLands(rows, ss, wr, now);
      rows' := AppendAllLands(rows + [NextRow(wr, now)], ss, wr.(stored := wr.stored + 1), now, outcomes);
      LandedBefore(rows, ss, wr, now, outcomes, rows');
    }
  }

  lemma AppendAllStep(rows: seq<StoredRow>, a: Aggregate, i: nat, now: nat, outcomes: nat -> Outcome)
    requires i < |a.uncommitted|
    ensures var e := a.uncommitted[i];
      var (rows', threw) := AppendOne(rows, a.id, e, Some(e.version - 1), now, outcomes(i));
      AppendAll(rows, a, i, now, outcomes) == if threw then (rows', true) else AppendAll(rows', a, i + 1, now, outcomes)
  {
  }

  /** The writer behind an object that was loaded and then given some commands. */
  lemma LoadedAndIssued(store: Store, id: AggregateId, commands: seq<Command>, ids: seq<nat>)
    returns (wr: Writer)
    requires RightRows(store.rows) && SnapshotsOk(store.rows, store.snapshots)
    requires |commands| == |ids| && FreshIds(store.rows, ids) && Load(store, id).Some?
    ensures WriterOk(store.rows, wr) && wr.stored == 0
    ensures wr.agg == ExecuteAll(Load(store, id).value, commands, ids) && wr.agg.id == id
    ensures Base(wr.agg) == Load(store, id).value.version
    ensures Base(wr.agg) == |Stream(store.rows, id)| ==> AtHead(store.rows, wr)
  {
    var a := Load(store, id).value;
    var loaded := LoadedWriter(store.rows, a);
    LoadedRight(store, id);
    IssuedAllFrame(loaded, commands, ids);
    IssuedAllOk(store.rows, loaded, commands, ids);
    wr := IssuedAll(loaded, commands, ids);
    if Base(wr.agg) == |Stream(store.rows, id)| { AnchoredAtHead(store.rows, wr); }
  }

  /** Nothing follows the newest snapshot: the one case where `load` loses the version. */
  predicate SnapshotAtHead(store: Store, id: AggregateId) {
    var snapshot := LatestSnapshot(store.snapshots, id);
    snapshot.Some? && snapshot.value.version == |Stream(store.rows, id)|
  }

  /** What saving `a` into `store` came to. */
  ghost predicate SavesRight(store: Store, a: Aggregate, r: SaveResult, now: nat) {
    && (r.threw <==> SnapshotAtHead(store, a.id))
    && (r.threw ==> r.store == store && r.agg == a)
    && (!r.threw ==>
          && Healthy(r.store, now)
          && Stream(r.store.rows, a.id) == Stream(store.rows, a.id) + a.uncommitted
          && (forall other | other != a.id :: Stream(r.store.rows, other) == Stream(store.rows, other))
          && Load(r.store, a.id)
               == Some(a.(uncommitted := [], version := if a.version % 10 == 0 then 0 else a.version))
          && (SnapshotAtHead(r.store, a.id) <==> a.version % 10 == 0))
  }

  /** With no other writer and no fault, a `save` after `load` and commands succeeds exactly when
      the object came back with the head version, that is, unless the newest snapshot is at the
      head. A failed one stores nothing; a successful one stores exactly the uncommitted events,
      and the account reloads to the same state. It reloads to the same version exactly when no
      snapshot was taken, and that is exactly when the next save can succeed. */
  lemma LoadCommandSave(store: Store, id: AggregateId, commands: seq<Command>, ids: seq<nat>, now: nat,
                        outcomes: nat -> Outcome)
    requires Healthy(store, now) && |commands| == |ids| && FreshIds(store.rows, ids)
    requires Load(store, id).Some? && forall i :: outcomes(i) == Done
    requires ExecuteAll(Load(store, id).value, commands, ids).uncommitted != []
    ensures var a := ExecuteAll(Load(store, id).value, commands, ids);
      SavesRight(store, a, Save(store, a, now, outcomes), now)
  {
    VersionIsHead(store, id);
    var wr := LoadedAndIssued(store, id, commands, ids);
    if Base(wr.agg) == |Stream(store.rows, id)| {
      SavedFromHead(store, wr, now, outcomes);
    } else {
      RightRowsContiguous(store.rows);
      SaveConflicts(store, wr, now, outcomes);
    }
  }

  lemma SavedFromHead(store: Store, wr: Writer, now: nat, outcomes: nat -> Outcome)
    requires Healthy(store, now) && AtHead(store.rows, wr) && wr.stored == 0 && wr.agg.uncommitted != []
    requires !SnapshotAtHead(store, wr.agg.id) && forall i :: outcomes(i) == Done
    ensures SavesRight(store, wr.agg, Save(store, wr.agg, now, outcomes), now)
  {
    SaveLands(store, wr, now, outcomes);
    SaveReloads(store, wr, now, outcomes);
    ViewSplits(store.rows, wr);
    LatestBelowHead(store, wr.agg.id);
    LatestIsNewest(store.snapshots, wr.agg.id);
  }

  /** So it is in every store that any run of concurrent writers can leave. */
  lemma ReachableLoadCommandSave(steps: seq<Step>, id: AggregateId, commands: seq<Command>, ids: seq<nat>,
                                 outcomes: nat -> Outcome)
    requires var store := Run(START, steps).store;
      && |commands| == |ids| && FreshIds(store.rows, ids)
      && Load(store, id).Some? && ExecuteAll(Load(store, id).value, commands, ids).uncommitted != []
    requires forall i :: outcomes(i) == Done
    ensures var w := Run(START, steps);
      var a := ExecuteAll(Load(w.store, id).value, commands, ids);
      SavesRight(w.store, a, Save(w.store, a, w.now, outcomes), w.now)
  {
    Reachable(steps);
    LoadCommandSave(Run(START, steps).store, id, commands, ids, Run(START, steps).now, outcomes);
  }

  lemma VersionIsHead(store: Store, id: AggregateId)
    requires RightRows(store.rows) && SnapshotsOk(store.rows, store.snapshots) && Load(store, id).Some?
    ensures var head := |Stream(store.rows, id)|;
      head > 0 && Load(store, id).value.version == if SnapshotAtHead(store, id) then 0 else head
  {
    LoadIsFullReplay(store, id);
    LatestBelowHead(store, id);
    LatestIsNewest(store.snapshots, id);
  }

  lemma ViewSplits(rows: seq<StoredRow>, wr: Writer)
    requires AtHead(rows, wr) && wr.stored == 0
    ensures wr.view == Stream(rows, wr.agg.id) + wr.agg.uncommitted
  {
    assert wr.view[..Base(wr.agg)] + wr.view[Base(wr.agg)..] == wr.view;
  }

  lemma LoadedRight(store: Store, id: AggregateId)
    requires RightRows(store.rows) && SnapshotsOk(store.rows, store.snapshots) && Load(store, id).Some?
    ensures var a := Load(store, id).value;
      && WriterOk(store.rows, LoadedWriter(store.rows, a)) && a.id == id && a.uncommitted == []
      && (a.version == |Stream(store.rows, id)| ==> Coherent(LoadedWriter(store.rows, a)))
  {
    LatestLoading(store, id);
    LoadedOk(store.rows, id, LatestSnapshot(store.snapshots, id));
    LoadIsFullReplay(store, id);
  }

  lemma LatestLoading(store: Store, id: AggregateId)
    requires SnapshotsOk(store.rows, store.snapshots)
    ensures LoadingOk(store.rows, Loading(id, LatestSnapshot(store.snapshots, id)))
  {
    var snapshot := LatestSnapshot(store.snapshots, id);
    LatestIsNewest(store.snapshots, id);
    if snapshot.Some? {
      var k :| 0 <= k < |store.snapshots| && store.snapshots[k] == snapshot.value;
      SnapshotAt(store.rows, store.snapshots, k);
    }
  }

  lemma LatestBelowHead(store: Store, id: AggregateId)
    requires SnapshotsOk(store.rows, store.snapshots)
    ensures forall s | s in store.snapshots && s.aggregate == id :: s.version <= |Stream(store.rows, id)|
  {
    forall s | s in store.snapshots && s.aggregate == id ensures s.version <= |Stream(store.rows, id)| {
      var k :| 0 <= k < |store.snapshots| && store.snapshots[k] == s;
      SnapshotAt(store.rows, store.snapshots, k);
    }
  }

  /** An object whose stream is not where it believes: whatever the database does, its save throws and
      leaves everything as it was. */
  lemma SaveConflicts(store: Store, wr: Writer, now: nat, outcomes: nat -> Outcome)
    requires Contiguous(store.rows) && Shape(wr) && wr.agg.uncommitted != []
    requires Base(wr.agg) != |Stream(store.rows, wr.agg.id)|
    ensures Save(store, wr.agg, now, outcomes) == SaveResult(store, wr.agg, true)
  {
    AppendOneExtends(store.rows, wr.agg.id, wr.agg.uncommitted[0], Some(wr.agg.uncommitted[0].version - 1), now,
                     outcomes(0));
    assert wr.agg.uncommitted[0] == wr.view[Base(wr.agg)];
  }

  /** An undisturbed save from the head: what it leaves in the store. */
  lemma SaveLands(store: Store, wr: Writer, now: nat, outcomes: nat -> Outcome)
    requires Healthy(store, now) && AtHead(store.rows, wr) && wr.stored == 0 && wr.agg.uncommitted != []
    requires forall i :: outcomes(i) == Done
    ensures var a, r := wr.agg, Save(store, wr.agg, now, outcomes);
      && !r.threw && Healthy(r.store, now) && Stream(r.store.rows, a.id) == wr.view
      && (forall other | other != a.id :: Stream(r.store.rows, other) == Stream(store.rows, other))
      && (if a.version % 10 == 0
          then LatestSnapshot(r.store.snapshots, a.id) == Some(Snapshot(a.id, a.version, a.state))
          else r.store.snapshots == store.snapshots)
  {
    var a := wr.agg;
    var rows' := AppendAllLands(store.rows, store.snapshots, wr, now, outcomes);
    if a.version % 10 == 0 {
      LatestBelowHead(store, a.id);
      CommittedSnapshotOk(rows', wr);
      AddSnapshot(rows', store.snapshots, Snapshot(a.id, a.version, a.state));
    }
  }

  lemma CommittedSnapshotOk(rows: seq<StoredRow>, wr: Writer)
    requires Shape(wr) && Coherent(wr) && Stream(rows, wr.agg.id) == wr.view
    ensures SnapshotOk(rows, Snapshot(wr.agg.id, wr.agg.version, wr.agg.state))
  {
    assert wr.view[..wr.agg.version] == wr.view;
  }

  lemma SaveReloads(store: Store, wr: Writer, now: nat, outcomes: nat -> Outcome)
    requires Healthy(store, now) && AtHead(store.rows, wr) && wr.stored == 0 && wr.agg.uncommitted != []
    requires forall i :: outcomes(i) == Done
    ensures var a, r := wr.agg, Save(store, wr.agg, now, outcomes);
      Load(r.store, a.id) == Some(a.(uncommitted := [], version := if a.version % 10 == 0 then 0 else a.version))
  {
    var a, r := wr.agg, Save(store, wr.agg, now, outcomes);
    SaveLands(store, wr, now, outcomes);
    LatestBelowHead(store, a.id);
    LatestIsNewest(store.snapshots, a.id);
    LoadIsFullReplay(r.store, a.id);
  }

  lemma AddSnapshot(rows: seq<StoredRow>, ss: seq<Snapshot>, s: Snapshot)
    requires SnapshotsOk(rows, ss) && SnapshotOk(rows, s)
    requires forall s0 | s0 in ss && s0.aggregate == s.aggregate :: s0.version < s.version
    ensures SnapshotsOk(rows, ss + [s]) && LatestSnapshot(ss + [s], s.aggregate) == Some(s)
    ensures !SnapshotTaken(ss, s.aggregate, s.version)
  {
    assert (ss + [s])[..|ss|] == ss;
    LatestIsNewest(ss, s.aggregate);
    forall k | 0 <= k < |ss| && ss[k].aggregate == s.aggregate ensures ss[k].version < s.version {
      assert ss[k] in ss;
    }
  }

  // ---------------------------------------------------------------- the excluded case is reached

  lemma NewAccountAtHead(id: AggregateId, eventId: nat, commands: seq<Command>, ids: seq<nat>)
    requires |commands| == |ids| && FreshIds([], ids) && eventId !in ids
    ensures AtHead([], IssuedAll(OpenedWriter(id, eventId), commands, ids))
  {
    var created := OpenedWriter(id, eventId);
    OpenedOk([], id, eventId);
    IssuedAllFrame(created, commands, ids);
    IssuedAllOk([], created, commands, ids);
    AnchoredAtHead([], IssuedAll(created, commands, ids));
  }

  /** An account that is opened, given any commands that bring it to a version divisible by 10 and
      saved has its snapshot at the head; by LoadCommandSave nobody who loads it can save it again. */
  lemma TenEventsStrand(id: AggregateId, eventId: nat, commands: seq<Command>, ids: seq<nat>, now: nat,
                        outcomes: nat -> Outcome)
    requires |commands| == |ids| && FreshIds([], ids) && eventId !in ids && forall i :: outcomes(i) == Done
    requires ExecuteAll(Created(id, eventId), commands, ids).version % 10 == 0
    ensures var a := ExecuteAll(Created(id, eventId), commands, ids);
      var r := Save(EMPTY, a, now, outcomes);
      && !r.threw && Healthy(r.store, now)
      && Load(r.store, id) == Some(Aggregate(id, a.state, 0, []))
      && SnapshotAtHead(r.store, id)
  {
    var wr := IssuedAll(OpenedWriter(id, eventId), commands, ids);
    IssuedAllFrame(OpenedWriter(id, eventId), commands, ids);
    NewAccountAtHead(id, eventId, commands, ids);
    assert Base(wr.agg) == 0;
    TenthVersionSaved(wr, now, outcomes);
  }

  function Deposits(n: nat): seq<Command> { if n == 0 then [] else Deposits(n - 1) + [Deposit(1)] }

  lemma {:induction false} DepositsCount(n: nat)
    ensures |Deposits(n)| == n
  {
    if n > 0 { DepositsCount(n - 1); }
  }

  lemma {:induction false} DepositsRaise(id: AggregateId, eventId: nat, n: nat, ids: seq<nat>)
    requires |ids| == n == |Deposits(n)|
    ensures var a := ExecuteAll(Created(id, eventId), Deposits(n), ids);
      a.version == n + 1 && a.state == AccountState(n, Active)
  {
    if n > 0 {
      DepositsCount(n - 1);
      DepositsRaise(id, eventId, n - 1, ids[..n - 1]);
      DepositRaises(ExecuteAll(Created(id, eventId), Deposits(n - 1), ids[..n - 1]), ids[n - 1]);
      assert Deposits(n)[..n - 1] == Deposits(n - 1);
    }
  }

  lemma DepositRaises(a: Aggregate, eventId: nat)
    requires a.state.status == Active
    ensures var r := Execute(a, Deposit(1), eventId);
      r.version == a.version + 1 && r.state == a.state.(balance := a.state.balance + 1)
  {
  }

  /** Nine deposits bring an account there, or nineteen: the money is there and can be read, and no
      later save of the account can succeed. */
  lemma DepositsStrand(id: AggregateId, eventId: nat, n: nat, ids: seq<nat>, now: nat, outcomes: nat -> Outcome)
    requires |ids| == n && (n + 1) % 10 == 0 && FreshIds([], ids) && eventId !in ids
    requires forall i :: outcomes(i) == Done
    ensures |Deposits(n)| == n
    ensures var r := Save(EMPTY, ExecuteAll(Created(id, eventId), Deposits(n), ids), now, outcomes);
      && !r.threw && SnapshotAtHead(r.store, id)
      && Load(r.store, id) == Some(Aggregate(id, AccountState(n, Active), 0, []))
  {
    DepositsCount(n);
    DepositsRaise(id, eventId, n, ids);
    TenEventsStrand(id, eventId, Deposits(n), ids, now, outcomes);
  }

  lemma TenthVersionSaved(wr: Writer, now: nat, outcomes: nat -> Outcome)
    requires AtHead([], wr) && wr.stored == 0 && wr.agg.uncommitted != [] && wr.agg.version % 10 == 0
    requires forall i :: outcomes(i) == Done
    ensures var a, r := wr.agg, Save(EMPTY, wr.agg, now, outcomes);
      && !r.threw && Healthy(r.store, now)
      && Load(r.store, a.id) == Some(a.(uncommitted := [], version := 0)) && SnapshotAtHead(r.store, a.id)
  {
    SaveLands(EMPTY, wr, now, outcomes);
    SaveReloads(EMPTY, wr, now, outcomes);
  }

  // ---------------------------------------------------------------- one call is a run

  /** The two reads of a `load`, nothing in between: one more object, holding what `load` returns. */
  lemma LoadIsARun(w: World, id: AggregateId)
    ensures var w', r := Run(w, [ReadSnapshot(id), ReadTail(|w.loading|)]), Load(w.store, id);
      && w'.store == w.store && w'.now == w.now
      && w'.writers == w.writers + if r.Some? then [LoadedWriter(w.store.rows, r.value)] else []
  {
    RunTwo(w, [], ReadSnapshot(id), ReadTail(|w.loading|));
    assert [] + [ReadSnapshot(id), ReadTail(|w.loading|)] == [ReadSnapshot(id), ReadTail(|w.loading|)];
    assert w.writers + [] == w.writers;
  }

  /** The database calls of a `save` with `n` uncommitted events, up to its commit mark. */
  function AppendSteps(h: Handle, n: nat, outcomes: nat -> Outcome): seq<Step> {
    if n == 0 then [BeginSave(h)]
    else AppendSteps(h, n - 1, outcomes) + [ReadVersion(h, Done), InsertEvent(h, outcomes(n - 1))]
  }

  /** Where an uninterrupted save of `a` stands after `i` of its events have been tried. */
  ghost predicate Midway(rows: seq<StoredRow>, a: Aggregate, i: nat, now: nat, outcomes: nat -> Outcome,
                         rows': seq<StoredRow>, wr: Writer)
    requires i <= |a.uncommitted|
  {
    var whole := AppendAll(rows, a, 0, now, outcomes);
    || (wr.phase == Idle && wr.agg == a && whole == (rows', true))
    || (i < |a.uncommitted| && wr.phase == Appending(i) && wr.agg == a
        && whole == AppendAll(rows', a, i, now, outcomes))
    || (i == |a.uncommitted| && wr.agg == a.(uncommitted := []) && whole == (rows', false)
        && wr.phase == if a.version % 10 == 0 then Snapshotting(a.version, a.state) else Idle)
  }

  /** One more event: reading the highest version and inserting is one whole `append`. */
  lemma OneMore(w: World, a: Aggregate, h: Handle, i: nat, rows: seq<StoredRow>, outcomes: nat -> Outcome)
    requires h < |w.writers| && i < |a.uncommitted|
    requires Midway(rows, a, i, w.now, outcomes, w.store.rows, w.writers[h])
    ensures var w' := Next(Next(w, ReadVersion(h, Done)), InsertEvent(h, outcomes(i)));
      && |w'.writers| == |w.writers| && w'.now == w.now && w'.store.snapshots == w.store.snapshots
      && Midway(rows, a, i + 1, w.now, outcomes, w'.store.rows, w'.writers[h])
  {
    if w.writers[h].phase == Appending(i) {
      OneAppend(w, h, i, outcomes(i));
      var e := a.uncommitted[i];
      var (rows', threw) := AppendOne(w.store.rows, a.id, e, Some(e.version - 1), w.now, outcomes(i));
      assert AppendAll(rows, a, 0, w.now, outcomes)
          == if threw then (rows', true) else AppendAll(rows', a, i + 1, w.now, outcomes);
    } else {
      assert w.writers[h].phase == Idle && w.writers[h].agg == a;
    }
  }

  lemma OneAppend(w: World, h: Handle, i: nat, outcome: Outcome)
    requires h < |w.writers| && w.writers[h].phase == Appending(i) && i < |w.writers[h].agg.uncommitted|
    ensures var wr := w.writers[h];
      var a, e := wr.agg, wr.agg.uncommitted[i];
      var (rows, threw) := AppendOne(w.store.rows, a.id, e, Some(e.version - 1), w.now, outcome);
      var w' := Next(Next(w, ReadVersion(h, Done)), InsertEvent(h, outcome));
      && |w'.writers| == |w.writers| && w'.now == w.now && w'.store == w.store.(rows := rows)
      && w'.writers[h].phase == (if threw then Idle else if i + 1 < |a.uncommitted| then Appending(i + 1)
                                 else if a.version % 10 == 0 then Snapshotting(a.version, a.state) else Idle)
      && w'.writers[h].agg == if threw || i + 1 < |a.uncommitted| then a else a.(uncommitted := [])
  {
    var w1 := Next(w, ReadVersion(h, Done));
    assert w1.store == w.store && w1.now == w.now && w1.writers[h].agg == w.writers[h].agg;
  }

  /** An uninterrupted save of writer `h` has come from `w` to `w'` after `i` events. */
  ghost predicate Reached(w: World, h: Handle, i: nat, outcomes: nat -> Outcome, w': World)
    requires h < |w.writers| && i <= |w.writers[h].agg.uncommitted|
  {
    && |w'.writers| == |w.writers| && w'.now == w.now && w'.store.snapshots == w.store.snapshots
    && Midway(w.store.rows, w.writers[h].agg, i, w.now, outcomes, w'.store.rows, w'.writers[h])
  }

  lemma Begun(w: World, h: Handle, outcomes: nat -> Outcome)
    requires h < |w.writers| && w.writers[h].phase.Idle? && w.writers[h].agg.uncommitted != []
    ensures Reached(w, h, 0, outcomes, Next(w, BeginSave(h)))
  {
  }

  lemma {:induction false} AppendStepsRun(w: World, h: Handle, i: nat, outcomes: nat -> Outcome)
    requires h < |w.writers| && w.writers[h].phase.Idle? && w.writers[h].agg.uncommitted != []
    requires i <= |w.writers[h].agg.uncommitted|
    ensures Reached(w, h, i, outcomes, Run(w, AppendSteps(h, i, outcomes)))
  {
    if i == 0 {
      Begun(w, h, outcomes);
      RunOne(w, [], BeginSave(h));
    } else {
      AppendStepsRun(w, h, i - 1, outcomes);
      RunTwo(w, AppendSteps(h, i - 1, outcomes), ReadVersion(h, Done), InsertEvent(h, outcomes(i - 1)));
      ReachedMore(w, h, i - 1, outcomes, Run(w, AppendSteps(h, i - 1, outcomes)), Run(w, AppendSteps(h, i, outcomes)));
    }
  }

  lemma ReachedMore(w: World, h: Handle, i: nat, outcomes: nat -> Outcome, w1: World, w2: World)
    requires h < |w.writers| && i < |w.writers[h].agg.uncommitted| && Reached(w, h, i, outcomes, w1)
    requires w2 == Next(Next(w1, ReadVersion(h, Done)), InsertEvent(h, outcomes(i)))
    ensures Reached(w, h, i + 1, outcomes, w2)
  {
    OneMore(w1, w.writers[h].agg, h, i, w.store.rows, outcomes);
  }

  lemma RunOne(w: World, steps: seq<Step>, s: Step)
    ensures Run(w, steps + [s]) == Next(Run(w, steps), s)
  {
    assert (steps + [s])[..|steps|] == steps;
  }

  lemma RunTwo(w: World, steps: seq<Step>, a: Step, b: Step)
    ensures Run(w, steps + [a, b]) == Next(Next(Run(w, steps), a), b)
  {
    RunOne(w, steps, a);
    RunOne(w, steps + [a], b);
    assert steps + [a] + [b] == steps + [a, b];
  }

  /** `save` as one call does to the tables and to the object what the machine does when nobody
      else takes a step in between. */
  lemma SaveIsARun(w: World, h: Handle, outcomes: nat -> Outcome)
    requires h < |w.writers| && w.writers[h].phase.Idle? && w.writers[h].agg.uncommitted != []
    ensures var n := |w.writers[h].agg.uncommitted|;
      var r := Save(w.store, w.writers[h].agg, w.now, outcomes);
      var w' := Run(w, AppendSteps(h, n, outcomes) + [WriteSnapshot(h, outcomes(n))]);
      && |w'.writers| == |w.writers| && w'.store == r.store
      && w'.writers[h].agg == r.agg && w'.writers[h].phase == Idle
  {
    var n := |w.writers[h].agg.uncommitted|;
    var steps := AppendSteps(h, n, outcomes);
    AppendStepsRun(w, h, n, outcomes);
    RunOne(w, steps, WriteSnapshot(h, outcomes(n)));
  }
}
