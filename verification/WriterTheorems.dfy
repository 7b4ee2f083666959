/** What holds in every store that any run of concurrent writers can reach. */
module WriterTheorems {
  import opened Options
  import opened AccountEvents
  import opened EventStore
  import opened Aggregates
  import opened ConcurrentWriters

  lemma Reachable(steps: seq<Step>)
    ensures Inv(Run(START, steps))
  {
    RunKeeps(START, steps);
  }

  /** Each aggregate's stored versions are exactly 1..n. */
  lemma StreamsAreContiguous(steps: seq<Step>, id: AggregateId)
    ensures var rows := Run(START, steps).store.rows;
      forall v: nat :: VersionTaken(rows, id, v) <==> 1 <= v <= |Stream(rows, id)|
  {
    var rows := Run(START, steps).store.rows;
    Reachable(steps);
    RightRowsContiguous(rows);
    MaxIsLength(rows, id);
  }

  /** The two balance computations agree after every stored event of every account, each money
      event's previousBalance is what the events before it left, and no balance is negative. */
  lemma BalancesAgree(steps: seq<Step>, id: AggregateId, k: nat)
    requires k <= |Stream(Run(START, steps).store.rows, id)|
    ensures var s := Stream(Run(START, steps).store.rows, id);
      && DeltaTotal(s[..k]) == Replay(INITIAL, s[..k]).balance >= 0
      && forall i | 0 <= i < k && IsMoney(s[i].payload) ::
           s[i].payload.previousBalance == DeltaTotal(s[..i]) && s[i].payload.newBalance == DeltaTotal(s[..i + 1])
  {
    var rows := Run(START, steps).store.rows;
    var s := Stream(rows, id);
    Reachable(steps);
    RightRowsLegal(rows, id);
    LegalPrefix(s, k);
    TotalsAgree(s[..k]);
    TotalsAgree(s);
  }

  /** So `getHistory` on any reachable store shows the recorded balances. */
  lemma HistoryIsRight(steps: seq<Step>, id: AggregateId, k: nat)
    requires k < |MoneyEvents(Stream(Run(START, steps).store.rows, id))|
    ensures var rows := Run(START, steps).store.rows;
      var h, p := History(Stream(rows, id), Stamps(rows, id)), MoneyEvents(Stream(rows, id))[k].payload;
      IsMoney(p) && k < |h| && h[k].balance == p.newBalance >= 0 && h[k].change == p.newBalance - p.previousBalance
  {
    var rows := Run(START, steps).store.rows;
    Reachable(steps);
    RightRowsLegal(rows, id);
    HistoryShowsBalances(Stream(rows, id), Stamps(rows, id));
    MoneyEventsRecord(Stream(rows, id), k);
  }

  lemma {:induction false} MoneyEventsRecord(es: seq<DomainEvent>, k: nat)
    requires LegalStream(es) && k < |MoneyEvents(es)|
    ensures IsMoney(MoneyEvents(es)[k].payload) && MoneyEvents(es)[k].payload.newBalance >= 0
  {
    var n := |es| - 1;
    if k < |MoneyEvents(es[..n])| {
      MoneyEventsRecord(es[..n], k);
    } else {
      TotalsAgree(es);
      assert es[..n + 1] == es;
    }
  }

  lemma FreezesAreBracketed(steps: seq<Step>, id: AggregateId)
    ensures WellBracketed(Stream(Run(START, steps).store.rows, id))
  {
    var rows := Run(START, steps).store.rows;
    Reachable(steps);
    RightRowsLegal(rows, id);
    FreezesBracket(Stream(rows, id));
  }

  /** Every stored snapshot is the replay of the events it counts. */
  lemma SnapshotsAreReplays(steps: seq<Step>, k: nat)
    requires k < |Run(START, steps).store.snapshots|
    ensures var w := Run(START, steps);
      var snapshot := w.store.snapshots[k];
      var s := Stream(w.store.rows, snapshot.aggregate);
      1 <= snapshot.version <= |s| && snapshot.state == Replay(INITIAL, s[..snapshot.version])
  {
    var w := Run(START, steps);
    Reachable(steps);
    SnapshotAt(w.store.rows, w.store.snapshots, k);
  }

  /** Loading from the newest snapshot and the tail gives what replaying everything gives. */
  lemma LoadIsFullReplay(store: Store, id: AggregateId)
    requires RightRows(store.rows) && SnapshotsOk(store.rows, store.snapshots)
    ensures var r := Load(store, id);
      var s := Stream(store.rows, id);
      var snapshot := LatestSnapshot(store.snapshots, id);
      && (r.None? <==> s == [])
      && (r.Some? ==> r.value.state == Replay(INITIAL, s) && r.value.id == id && r.value.uncommitted == [])
      && (r.Some? ==> (r.value.version == |s| <==> snapshot.None? || snapshot.value.version < |s|))
      && (r.Some? && r.value.version != |s| ==> r.value.version == 0)
  {
    RightRowsContiguous(store.rows);
    LatestIsNewest(store.snapshots, id);
    var snapshot := LatestSnapshot(store.snapshots, id);
    if snapshot.Some? {
      var k :| 0 <= k < |store.snapshots| && store.snapshots[k] == snapshot.value;
      SnapshotAt(store.rows, store.snapshots, k);
    }
    LoadTailReplaysAll(store.rows, id, snapshot);
  }

  lemma ReachableLoad(steps: seq<Step>, id: AggregateId)
    ensures var w := Run(START, steps);
      var r := Load(w.store, id);
      && (r.None? <==> Stream(w.store.rows, id) == [])
      && (r.Some? ==> r.value.state == Replay(INITIAL, Stream(w.store.rows, id)))
  {
    Reachable(steps);
    LoadIsFullReplay(Run(START, steps).store, id);
  }

  /** The same when others append or take snapshots between the two reads of one `load`. */
  lemma InterleavedLoad(steps: seq<Step>, l: nat)
    requires l < |Run(START, steps).loading|
    ensures var w := Run(START, steps);
      var id := w.loading[l].id;
      var r := LoadTail(w.store.rows, id, w.loading[l].snapshot);
      && (r.None? <==> Stream(w.store.rows, id) == [])
      && (r.Some? ==> r.value.state == Replay(INITIAL, Stream(w.store.rows, id)))
  {
    var w := Run(START, steps);
    Reachable(steps);
    LoadingAt(w.store.rows, w.loading, l);
    RightRowsContiguous(w.store.rows);
    LoadTailReplaysAll(w.store.rows, w.loading[l].id, w.loading[l].snapshot);
  }

  /** In a reachable store stamps never decrease along a stream, so what `getBalanceAt` replays is the
      stream as it stood at that time; and its answer is the last `getHistory` entry up to then. */
  lemma PointInTime(steps: seq<Step>, id: AggregateId, t: nat) returns (k: nat)
    ensures var rows := Run(START, steps).store.rows;
      var s, stamps := Stream(rows, id), Stamps(rows, id);
      && k <= |s| && Until(s, stamps, t) == s[..k] && (forall i | 0 <= i < |s| :: stamps[i] <= t <==> i < k)
      && (BalanceAt(s, stamps, t).None? <==> k == 0)
      && (BalanceAt(s, stamps, t).Some? ==>
            BalanceAt(s, stamps, t).value == LastBalance(EntriesUntil(History(s, stamps), t)))
  {
    var rows := Run(START, steps).store.rows;
    Reachable(steps);
    RightRowsLegal(rows, id);
    RightRowsTimely(rows, id);
    BalanceAtMatchesHistory(Stream(rows, id), Stamps(rows, id), t);
    k := UntilIsPrefix(Stream(rows, id), Stamps(rows, id), t);
  }

  // ---------------------------------------------------------------- interrupted saves

  predicate DistinctRowIds(rows: seq<StoredRow>) {
    rows == [] ||
    var n := |rows| - 1;
    DistinctRowIds(rows[..n]) && !IdTaken(rows[..n], rows[n].event.eventId)
  }

  lemma {:induction false} NoEventTwice(steps: seq<Step>)
    ensures DistinctRowIds(Run(START, steps).store.rows)
  {
    if steps != [] {
      var before, s := Run(START, steps[..|steps| - 1]), steps[|steps| - 1];
      NoEventTwice(steps[..|steps| - 1]);
      var rows := Run(START, steps).store.rows;
      if rows != before.store.rows {
        assert rows[..|rows| - 1] == before.store.rows;
      }
    }
  }

  /** Wherever a `save` stopped, and however often it was retried, the uncommitted events of the
      object that are in the table are a prefix of them, each at its own version, and no event
      is in the table twice. */
  lemma InterruptedSave(steps: seq<Step>, h: Handle) returns (k: nat)
    requires h < |Run(START, steps).writers|
    ensures var w := Run(START, steps);
      var a := w.writers[h].agg;
      var s := Stream(w.store.rows, a.id);
      && k <= |a.uncommitted|
      && (forall i | 0 <= i < |a.uncommitted| :: IdTaken(w.store.rows, a.uncommitted[i].eventId) <==> i < k)
      && (forall i | 0 <= i < k ::
            1 <= a.uncommitted[i].version <= |s| && s[a.uncommitted[i].version - 1] == a.uncommitted[i])
      && DistinctRowIds(w.store.rows)
  {
    NoEventTwice(steps);
    WriterIsAnchored(steps, h);
    k := StoredEventsInPlace(Run(START, steps).store.rows, Run(START, steps).writers[h]);
  }

  lemma WriterIsAnchored(steps: seq<Step>, h: Handle)
    requires h < |Run(START, steps).writers|
    ensures var w := Run(START, steps); Shape(w.writers[h]) && Anchored(w.store.rows, w.writers[h])
  {
    var w := Run(START, steps);
    Reachable(steps);
    WriterAt(w.store.rows, w.writers, w.minted, h);
  }

  lemma StoredEventInPlace(rows: seq<StoredRow>, wr: Writer, i: nat)
    requires Shape(wr) && Anchored(rows, wr) && i < wr.stored
    ensures var e, s := wr.agg.uncommitted[i], Stream(rows, wr.agg.id);
      IdTaken(rows, e.eventId) && 1 <= e.version <= |s| && s[e.version - 1] == e
  {
    var s := Stream(rows, wr.agg.id);
    var p, known := Base(wr.agg) + i, Base(wr.agg) + wr.stored;
    assert wr.view[p] == wr.agg.uncommitted[i];
    assert s[p] == s[..known][p] == wr.view[..known][p];
    assert s[p] in s;
    RowsAndStreams(rows, wr.agg.id);
  }

  lemma StoredEventsInPlace(rows: seq<StoredRow>, wr: Writer) returns (k: nat)
    requires Shape(wr) && Anchored(rows, wr)
    ensures var a := wr.agg;
      var s := Stream(rows, a.id);
      && k == wr.stored <= |a.uncommitted|
      && (forall i | 0 <= i < |a.uncommitted| :: IdTaken(rows, a.uncommitted[i].eventId) <==> i < k)
      && (forall i | 0 <= i < k ::
            1 <= a.uncommitted[i].version <= |s| && s[a.uncommitted[i].version - 1] == a.uncommitted[i])
  {
    k := wr.stored;
    forall i | 0 <= i < k
      ensures var e, s := wr.agg.uncommitted[i], Stream(rows, wr.agg.id);
        IdTaken(rows, e.eventId) && 1 <= e.version <= |s| && s[e.version - 1] == e
    {
      StoredEventInPlace(rows, wr, i);
    }
  }

  /** The stream has moved past what the object was loaded from, and its save is not past its
      first version check. */
  ghost predicate Behind(w: World, h: Handle) {
    && h < |w.writers|
    && w.writers[h].agg.uncommitted != []
    && Base(w.writers[h].agg) < |Stream(w.store.rows, w.writers[h].agg.id)|
    && (w.writers[h].phase == Idle || w.writers[h].phase == Appending(0))
  }

  /** A writer whose next expected version is not the head is behind. */
  lemma ConflictMeansBehind(rows: seq<StoredRow>, wr: Writer)
    requires Contiguous(rows) && Shape(wr) && Anchored(rows, wr) && wr.phase.Appending? && PhaseOk(rows, wr)
    requires wr.agg.uncommitted[wr.phase.next].version - 1 != MaxVersion(rows, wr.agg.id)
    ensures wr.agg.uncommitted != [] && Base(wr.agg) < |Stream(rows, wr.agg.id)|
  {
    MaxIsLength(rows, wr.agg.id);
    assert wr.agg.uncommitted[wr.phase.next] == wr.view[Base(wr.agg) + wr.phase.next];
  }

  /** A version conflict leaves the object behind, whether it is noticed when the highest version
      is read ... */
  lemma ReadConflictLeavesBehind(w: World, h: Handle)
    requires Inv(w) && Enabled(w, ReadVersion(h, Done))
    requires var wr := w.writers[h];
      wr.agg.uncommitted[wr.phase.next].version - 1 != MaxVersion(w.store.rows, wr.agg.id)
    ensures Behind(Next(w, ReadVersion(h, Done)), h)
  {
    WriterAt(w.store.rows, w.writers, w.minted, h);
    RightRowsContiguous(w.store.rows);
    ConflictMeansBehind(w.store.rows, w.writers[h]);
    assert Next(w, ReadVersion(h, Done)) == SetPhase(w, h, Idle);
  }

  /** ... or by the unique key. */
  lemma InsertConflictLeavesBehind(w: World, h: Handle, outcome: Outcome)
    requires Inv(w) && Enabled(w, InsertEvent(h, outcome))
    requires VersionTaken(w.store.rows, w.writers[h].agg.id, w.writers[h].phase.newVersion)
    ensures Behind(Next(w, InsertEvent(h, outcome)), h)
  {
    WriterAt(w.store.rows, w.writers, w.minted, h);
    RightRowsContiguous(w.store.rows);
    MaxIsLength(w.store.rows, w.writers[h].agg.id);
  }

  /** A step never shortens a stream. */
  lemma StreamsOnlyGrow(w: World, s: Step, id: AggregateId)
    ensures |Stream(Next(w, s).store.rows, id)| >= |Stream(w.store.rows, id)|
  {
    if Enabled(w, s) && s.InsertEvent? {
      StreamAppend(w.store.rows, Pending(w.writers[s.h], w.now), id);
    }
  }

  /** An object that is behind fails its first version check. */
  lemma BehindConflicts(w: World, h: Handle)
    requires Inv(w) && Behind(w, h)
    ensures var a := w.writers[h].agg; a.uncommitted[0].version - 1 != MaxVersion(w.store.rows, a.id)
  {
    var wr := w.writers[h];
    WriterAt(w.store.rows, w.writers, w.minted, h);
    RightRowsContiguous(w.store.rows);
    MaxIsLength(w.store.rows, wr.agg.id);
    assert wr.agg.uncommitted[0] == wr.view[Base(wr.agg)];
  }

  /** Whose turn it is, if anybody's. */
  predicate IsBy(s: Step, h: Handle) {
    match s
    case Issue(k, _, _) => k == h
    case BeginSave(k) => k == h
    case ReadVersion(k, _) => k == h
    case InsertEvent(k, _) => k == h
    case WriteSnapshot(k, _) => k == h
    case _ => false
  }

  lemma OthersLeaveIt(w: World, h: Handle, s: Step)
    requires h < |w.writers| && !IsBy(s, h)
    ensures h < |Next(w, s).writers| && Next(w, s).writers[h] == w.writers[h]
  {
  }

  /** What an object that is behind comes to by a step of its own: its first check fails again. */
  lemma OwnStepBehind(w: World, h: Handle, s: Step)
    requires Behind(w, h) && Enabled(w, s) && IsBy(s, h)
    requires var a := w.writers[h].agg; a.uncommitted[0].version - 1 != MaxVersion(w.store.rows, a.id)
    ensures Behind(Next(w, s), h)
    ensures w.writers[h].agg.uncommitted <= Next(w, s).writers[h].agg.uncommitted
    ensures Next(w, s).writers[h].stored == w.writers[h].stored
  {
    match s
    case Issue(_, c, eventId) =>
      assert Next(w, s).store == w.store && Next(w, s).writers[h] == Issued(w.writers[h], c, eventId);
    case BeginSave(_) => assert Next(w, s) == SetPhase(w, h, Appending(0));
    case ReadVersion(_, _) => assert Next(w, s) == SetPhase(w, h, Idle);
    case _ =>
  }

  lemma StepBehind(w: World, h: Handle, s: Step)
    requires Inv(w) && Behind(w, h)
    ensures Behind(Next(w, s), h)
    ensures w.writers[h].agg.uncommitted <= Next(w, s).writers[h].agg.uncommitted
    ensures Next(w, s).writers[h].stored == w.writers[h].stored
  {
    if !Enabled(w, s) {
    } else if IsBy(s, h) {
      BehindConflicts(w, h);
      OwnStepBehind(w, h, s);
    } else {
      StreamsOnlyGrow(w, s, w.writers[h].agg.id);
      OthersLeaveIt(w, h, s);
    }
  }

  /** After a version conflict an object never saves anything again: in every later run its
      uncommitted events only pile up, and none joins those already in the table. */
  lemma {:induction false} ConflictIsFinal(w: World, h: Handle, steps: seq<Step>)
    requires Inv(w) && Behind(w, h)
    ensures var w' := Run(w, steps);
      && Inv(w') && Behind(w', h)
      && w.writers[h].agg.uncommitted <= w'.writers[h].agg.uncommitted
      && w'.writers[h].stored == w.writers[h].stored
      && forall i | 0 <= i < |w'.writers[h].agg.uncommitted| ::
           IdTaken(w'.store.rows, w'.writers[h].agg.uncommitted[i].eventId) <==> i < w.writers[h].stored
  {
    if steps != [] {
      var w1 := Run(w, steps[..|steps| - 1]);
      ConflictIsFinal(w, h, steps[..|steps| - 1]);
      StepKeeps(w1, steps[|steps| - 1]);
      StepBehind(w1, h, steps[|steps| - 1]);
    }
    var w' := Run(w, steps);
    WriterAt(w'.store.rows, w'.writers, w'.minted, h);
    var k := StoredEventsInPlace(w'.store.rows, w'.writers[h]);
  }
}
