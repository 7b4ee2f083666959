/** What one `save` comes to for every object any run can leave and every way the database calls can
    end: when it throws, which events it has stored, and what became of the snapshot. */
module SaveOutcomes {
  import opened Options
  import opened AccountEvents
  import opened EventStore
  import opened Aggregates
  import opened ConcurrentWriters
  import opened WriterTheorems
  import opened SaveProgress

  /** From its `k`-th on, the uncommitted events are the next of their stream, under unused ids. */
  predicate Storable(rows: seq<StoredRow>, a: Aggregate, k: nat) {
    && k <= |a.uncommitted| && Base(a) + k == |Stream(rows, a.id)|
    && (forall j | 0 <= j < |a.uncommitted| :: a.uncommitted[j].version == Base(a) + j + 1)
    && (forall j | k <= j < |a.uncommitted| :: !IdTaken(rows, a.uncommitted[j].eventId))
    && (forall i, j | 0 <= i < j < |a.uncommitted| :: a.uncommitted[i].eventId != a.uncommitted[j].eventId)
  }

  /** The first call that does not come back well; `n` if all of the first `n` do. */
  function FirstFault(outcomes: nat -> Outcome, k: nat, n: nat): (r: nat)
    requires k <= n
    ensures k <= r <= n && (forall j | k <= j < r :: outcomes(j) == Done) && (r < n ==> outcomes(r) != Done)
    decreases n - k
  {
    if k == n || outcomes(k) != Done then k else FirstFault(outcomes, k + 1, n)
  }

  /** How many of `n` appends leave their row: one that fails after its effect still does. */
  function Landing(outcomes: nat -> Outcome, k: nat, n: nat): (r: nat)
    requires k <= n
    ensures k <= r <= n
  {
    var f := FirstFault(outcomes, k, n);
    if f < n && outcomes(f) == FailedAfter then f + 1 else f
  }

  /** One append leaves the rest storable. */
  lemma StorableNext(rows: seq<StoredRow>, a: Aggregate, k: nat, now: nat)
    requires Contiguous(rows) && Storable(rows, a, k) && k < |a.uncommitted|
    ensures var rows' := rows + [StoredRow(a.id, a.uncommitted[k], now)];
      && Contiguous(rows') && Storable(rows', a, k + 1)
      && Stream(rows', a.id) == Stream(rows, a.id) + [a.uncommitted[k]]
      && forall other | other != a.id :: Stream(rows', other) == Stream(rows, other)
  {
    var row := StoredRow(a.id, a.uncommitted[k], now);
    ContiguousAppend(rows, row);
    StreamAppend(rows, row, a.id);
    forall other | other != a.id ensures Stream(rows + [row], other) == Stream(rows, other) {
      StreamAppend(rows, row, other);
    }
  }

  lemma Joined(s: seq<DomainEvent>, es: seq<DomainEvent>, k: nat, m: nat)
    requires k < m <= |es|
    ensures s + [es[k]] + es[k + 1..m] == s + es[k..m]
  {
    assert es[k..m] == [es[k]] + es[k + 1..m];
  }

  /** The append loop from event `k` on stores what lands, in order, and throws at the first fault. */
  ghost predicate Appends(rows: seq<StoredRow>, a: Aggregate, k: nat, outcomes: nat -> Outcome,
                          rows': seq<StoredRow>, threw: bool)
    requires k <= |a.uncommitted|
  {
    var n := |a.uncommitted|;
    && Contiguous(rows') && (threw <==> FirstFault(outcomes, k, n) < n)
    && Stream(rows', a.id) == Stream(rows, a.id) + a.uncommitted[k..Landing(outcomes, k, n)]
    && forall other | other != a.id :: Stream(rows', other) == Stream(rows, other)
  }

  lemma AppendsMore(rows: seq<StoredRow>, a: Aggregate, k: nat, now: nat, outcomes: nat -> Outcome,
                    rows': seq<StoredRow>, threw: bool)
    requires Contiguous(rows) && Storable(rows, a, k) && k < |a.uncommitted| && outcomes(k) == Done
    requires Appends(rows + [StoredRow(a.id, a.uncommitted[k], now)], a, k + 1, outcomes, rows', threw)
    ensures Appends(rows, a, k, outcomes, rows', threw)
  {
    StorableNext(rows, a, k, now);
    Joined(Stream(rows, a.id), a.uncommitted, k, Landing(outcomes, k + 1, |a.uncommitted|));
  }

  /** The first append decides by its outcome alone. */
  lemma AppendDecides(rows: seq<StoredRow>, a: Aggregate, k: nat, now: nat, outcomes: nat -> Outcome)
    requires Contiguous(rows) && Storable(rows, a, k) && k < |a.uncommitted|
    ensures var rows' := rows + [StoredRow(a.id, a.uncommitted[k], now)];
      AppendAll(rows, a, k, now, outcomes)
        == match outcomes(k)
           case Done => AppendAll(rows', a, k + 1, now, outcomes)
           case Failed => (rows, true)
           case FailedAfter => (rows', true)
  {
    var e := a.uncommitted[k];
    AppendOneExtends(rows, a.id, e, Some(e.version - 1), now, outcomes(k));
    AppendAllStep(rows, a, k, now, outcomes);
  }

  /** What the append loop from event `k` on comes to, whatever fails. */
  ghost predicate Settles(rows: seq<StoredRow>, a: Aggregate, k: nat, now: nat, outcomes: nat -> Outcome)
    requires k <= |a.uncommitted|
  {
    var (rows', threw) := AppendAll(rows, a, k, now, outcomes); Appends(rows, a, k, outcomes, rows', threw)
  }

  lemma SettlesAtFault(rows: seq<StoredRow>, a: Aggregate, k: nat, now: nat, outcomes: nat -> Outcome)
    requires Contiguous(rows) && Storable(rows, a, k) && k < |a.uncommitted| && outcomes(k) != Done
    ensures Settles(rows, a, k, now, outcomes)
  {
    AppendDecides(rows, a, k, now, outcomes);
    StorableNext(rows, a, k, now);
    assert a.uncommitted[k..k] == [] && a.uncommitted[k..k + 1] == [a.uncommitted[k]];
  }

  lemma SettlesFurther(rows: seq<StoredRow>, a: Aggregate, k: nat, now: nat, outcomes: nat -> Outcome)
    requires Contiguous(rows) && Storable(rows, a, k) && k < |a.uncommitted| && outcomes(k) == Done
    requires Settles(rows + [StoredRow(a.id, a.uncommitted[k], now)], a, k + 1, now, outcomes)
    ensures Settles(rows, a, k, now, outcomes)
  {
    var (rows', threw) := AppendAll(rows + [StoredRow(a.id, a.uncommitted[k], now)], a, k + 1, now, outcomes);
    AppendDecides(rows, a, k, now, outcomes);
    AppendsMore(rows, a, k, now, outcomes, rows', threw);
  }

  lemma {:induction false} AppendAllMeans(rows: seq<StoredRow>, a: Aggregate, k: nat, now: nat,
                                          outcomes: nat -> Outcome)
    requires Contiguous(rows) && Storable(rows, a, k)
    ensures Settles(rows, a, k, now, outcomes)
    decreases |a.uncommitted| - k
  {
    if k < |a.uncommitted| {
      if outcomes(k) == Done {
        StorableNext(rows, a, k, now);
        AppendAllMeans(rows + [StoredRow(a.id, a.uncommitted[k], now)], a, k + 1, now, outcomes);
        SettlesFurther(rows, a, k, now, outcomes);
      } else {
        SettlesAtFault(rows, a, k, now, outcomes);
      }
    }
  }

  /** What saving an object at the head of its stream comes to. Up to the first append that fails the
      events are stored; if one fails the save throws, and the object keeps all of them as
      uncommitted, stored or not. Otherwise the object is committed; at a version divisible by 10 a
      snapshot is tried, and if that fails the save throws although every event is stored. */
  ghost predicate SavedAtHead(store: Store, a: Aggregate, outcomes: nat -> Outcome, r: SaveResult) {
    var n := |a.uncommitted|;
    var f, landed := FirstFault(outcomes, 0, n), Landing(outcomes, 0, n);
    var tries := f == n && a.version % 10 == 0;
    && Stream(r.store.rows, a.id) == Stream(store.rows, a.id) + a.uncommitted[..landed]
    && (forall other | other != a.id :: Stream(r.store.rows, other) == Stream(store.rows, other))
    && (r.threw <==> f < n || (tries && outcomes(n) != Done))
    && r.agg == (if f < n then a else a.(uncommitted := []))
    && r.store.snapshots == store.snapshots
         + (if tries && outcomes(n) != Failed then [Snapshot(a.id, a.version, a.state)] else [])
  }

  lemma SaveAtHeadMeans(store: Store, a: Aggregate, now: nat, outcomes: nat -> Outcome)
    requires Contiguous(store.rows) && Storable(store.rows, a, 0) && a.uncommitted != []
    requires !SnapshotTaken(store.snapshots, a.id, a.version)
    ensures SavedAtHead(store, a, outcomes, Save(store, a, now, outcomes))
  {
    AppendAllMeans(store.rows, a, 0, now, outcomes);
  }

  lemma WriterIsStorable(rows: seq<StoredRow>, wr: Writer)
    requires Shape(wr) && Anchored(rows, wr) && Base(wr.agg) == |Stream(rows, wr.agg.id)|
    ensures Storable(rows, wr.agg, 0)
  {
    var es := wr.agg.uncommitted;
    forall j | 0 <= j < |es| ensures es[j].version == Base(wr.agg) + j + 1 {
      assert es[j] == wr.view[Base(wr.agg) + j];
    }
    forall i, j | 0 <= i < j < |es| ensures es[i].eventId != es[j].eventId { IdsDiffer(es, i, j); }
  }

  /** No snapshot counts more events than are stored. */
  lemma NoSnapshotYet(store: Store, a: Aggregate)
    requires SnapshotsOk(store.rows, store.snapshots) && a.version > |Stream(store.rows, a.id)|
    ensures !SnapshotTaken(store.snapshots, a.id, a.version)
  {
    LatestBelowHead(store, a.id);
    forall k | 0 <= k < |store.snapshots| && store.snapshots[k].aggregate == a.id
      ensures store.snapshots[k].version != a.version
    {
      assert store.snapshots[k] in store.snapshots;
    }
  }

  /** In every reachable world, whatever happens during the save: an object with nothing to save saves
      nothing; one that is not at the head of its stream throws and changes nothing; one that is at the
      head does as `SavedAtHead` says. */
  lemma SaveMeans(steps: seq<Step>, h: Handle, outcomes: nat -> Outcome)
    requires h < |Run(START, steps).writers|
    ensures var w := Run(START, steps);
      var a := w.writers[h].agg;
      var r := Save(w.store, a, w.now, outcomes);
      if a.uncommitted == [] then r == SaveResult(w.store, a, false)
      else if Base(a) != |Stream(w.store.rows, a.id)| then r == SaveResult(w.store, a, true)
      else SavedAtHead(w.store, a, outcomes, r)
  {
    var w := Run(START, steps);
    var wr := w.writers[h];
    Reachable(steps);
    RightRowsContiguous(w.store.rows);
    WriterIsAnchored(steps, h);
    if wr.agg.uncommitted != [] {
      if Base(wr.agg) != |Stream(w.store.rows, wr.agg.id)| {
        SaveConflicts(w.store, wr, w.now, outcomes);
      } else {
        WriterIsStorable(w.store.rows, wr);
        NoSnapshotYet(w.store, wr.agg);
        SaveAtHeadMeans(w.store, wr.agg, w.now, outcomes);
      }
    }
  }
}
