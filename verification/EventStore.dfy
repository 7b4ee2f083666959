/** The event store tables: an append-only log of rows guarded by UNIQUE(aggregate_id, version)
    and PRIMARY KEY(event_id), and a table of snapshots. */
module EventStore {
  import opened Options
  import opened AccountEvents

  type AggregateId = nat

  datatype StoredRow = StoredRow(aggregate: AggregateId, event: DomainEvent, timestamp: nat)
  datatype Snapshot = Snapshot(aggregate: AggregateId, version: nat, state: AccountState)
  datatype Store = Store(rows: seq<StoredRow>, snapshots: seq<Snapshot>)

  const EMPTY := Store([], [])

  /** `COALESCE(MAX(version), 0)` over the rows of one aggregate. */
  function MaxVersion(rows: seq<StoredRow>, id: AggregateId): nat {
    if rows == [] then 0
    else
      var n := |rows| - 1;
      var before := MaxVersion(rows[..n], id);
      if rows[n].aggregate == id && rows[n].event.version > before then rows[n].event.version else before
  }

  /** The events of one aggregate in the order they were stored. */
  function Stream(rows: seq<StoredRow>, id: AggregateId): seq<DomainEvent> {
    if rows == [] then []
    else
      var n := |rows| - 1;
      Stream(rows[..n], id) + if rows[n].aggregate == id then [rows[n].event] else []
  }

  /** The stamps of the same rows. */
  function Stamps(rows: seq<StoredRow>, id: AggregateId): (r: seq<nat>)
    ensures |r| == |Stream(rows, id)|
  {
    if rows == [] then []
    else
      var n := |rows| - 1;
      Stamps(rows[..n], id) + if rows[n].aggregate == id then [rows[n].timestamp] else []
  }

  predicate VersionTaken(rows: seq<StoredRow>, id: AggregateId, version: nat) {
    exists k :: 0 <= k < |rows| && rows[k].aggregate == id && rows[k].event.version == version
  }

  predicate IdTaken(rows: seq<StoredRow>, eventId: nat) {
    exists k :: 0 <= k < |rows| && rows[k].event.eventId == eventId
  }

  /** What the table's two unique constraints let in. */
  predicate CanInsert(rows: seq<StoredRow>, id: AggregateId, version: nat, eventId: nat) {
    !VersionTaken(rows, id, version) && !IdTaken(rows, eventId)
  }

  /** Each aggregate's stored versions are exactly 1..n, in storage order. */
  ghost predicate Contiguous(rows: seq<StoredRow>) {
    forall id: AggregateId, i | 0 <= i < |Stream(rows, id)| :: Stream(rows, id)[i].version == i + 1
  }

  lemma StreamAppend(rows: seq<StoredRow>, row: StoredRow, id: AggregateId)
    ensures Stream(rows + [row], id)
         == if row.aggregate == id then Stream(rows, id) + [row.event] else Stream(rows, id)
    ensures Stamps(rows + [row], id)
         == if row.aggregate == id then Stamps(rows, id) + [row.timestamp] else Stamps(rows, id)
    ensures MaxVersion(rows + [row], id)
         == if row.aggregate == id && row.event.version > MaxVersion(rows, id) then row.event.version
            else MaxVersion(rows, id)
  {
    assert (rows + [row])[..|rows|] == rows;
  }

  lemma ContiguousAppend(rows: seq<StoredRow>, row: StoredRow)
    requires Contiguous(rows)
    requires row.event.version == |Stream(rows, row.aggregate)| + 1
    ensures Contiguous(rows + [row])
  {
    forall id: AggregateId, i | 0 <= i < |Stream(rows + [row], id)|
      ensures Stream(rows + [row], id)[i].version == i + 1
    {
      StreamAppend(rows, row, id);
    }
  }

  /** Every row sits in the stream of its aggregate, and the other way round. */
  lemma {:induction false} RowsAndStreams(rows: seq<StoredRow>, id: AggregateId)
    ensures forall k | 0 <= k < |rows| && rows[k].aggregate == id :: rows[k].event in Stream(rows, id)
    ensures forall e | e in Stream(rows, id) ::
      exists k :: 0 <= k < |rows| && rows[k].aggregate == id && rows[k].event == e
  {
    if rows != [] {
      var n := |rows| - 1;
      RowsAndStreams(rows[..n], id);
      assert forall k | 0 <= k < n :: rows[..n][k] == rows[k];
    }
  }

  /** The event and the stamp at one place of a stream are those of one row of the aggregate. */
  lemma {:induction false} StampsAreOfTheRows(rows: seq<StoredRow>, id: AggregateId, i: nat) returns (k: nat)
    requires i < |Stream(rows, id)|
    ensures k < |rows| && rows[k] == StoredRow(id, Stream(rows, id)[i], Stamps(rows, id)[i])
  {
    var n := |rows| - 1;
    if i < |Stream(rows[..n], id)| {
      k := StampsAreOfTheRows(rows[..n], id, i);
    } else {
      k := n;
    }
  }

  lemma {:induction false} MaxBounds(rows: seq<StoredRow>, id: AggregateId)
    ensures forall e | e in Stream(rows, id) :: e.version <= MaxVersion(rows, id)
    ensures MaxVersion(rows, id) > 0 ==> exists e :: e in Stream(rows, id) && e.version == MaxVersion(rows, id)
  {
    if rows != [] {
      var n := |rows| - 1;
      MaxBounds(rows[..n], id);
      if rows[n].aggregate == id { assert rows[n].event in Stream(rows, id); }
    }
  }

  /** The events carry the versions 1, 2, 3, ... */
  predicate Numbered(s: seq<DomainEvent>) { forall i | 0 <= i < |s| :: s[i].version == i + 1 }

  /** Then the maximum is the length, and a version is taken iff it is in 1..n. */
  lemma MaxIsLengthOf(rows: seq<StoredRow>, id: AggregateId)
    requires Numbered(Stream(rows, id))
    ensures MaxVersion(rows, id) == |Stream(rows, id)|
    ensures forall v: nat :: VersionTaken(rows, id, v) <==> 1 <= v <= |Stream(rows, id)|
  {
    var s := Stream(rows, id);
    MaxBounds(rows, id);
    RowsAndStreams(rows, id);
    if |s| > 0 { assert s[|s| - 1] in s; }
    forall v: nat ensures VersionTaken(rows, id, v) <==> 1 <= v <= |s| {
      if VersionTaken(rows, id, v) {
        var k :| 0 <= k < |rows| && rows[k].aggregate == id && rows[k].event.version == v;
        assert rows[k].event in s;
      }
      if 1 <= v <= |s| { assert s[v - 1] in s; }
    }
  }

  lemma MaxIsLength(rows: seq<StoredRow>, id: AggregateId)
    requires Contiguous(rows)
    ensures MaxVersion(rows, id) == |Stream(rows, id)|
    ensures forall v: nat :: VersionTaken(rows, id, v) <==> 1 <= v <= |Stream(rows, id)|
  {
    MaxIsLengthOf(rows, id);
  }

  /** `version > from ORDER BY version ASC` in a contiguous table is a plain suffix. */
  function EventsAfter(rows: seq<StoredRow>, id: AggregateId, from: nat): seq<DomainEvent> {
    var s := Stream(rows, id);
    if from >= |s| then [] else s[from..]
  }

  /** The stamps of the same rows. */
  function StampsAfter(rows: seq<StoredRow>, id: AggregateId, from: nat): seq<nat> {
    var s := Stamps(rows, id);
    if from >= |s| then [] else s[from..]
  }

  /** That suffix is what the query asks for: exactly the aggregate's rows above `from`,
      in strictly ascending version order. */
  lemma EventsAfterIsTheQuery(rows: seq<StoredRow>, id: AggregateId, from: nat)
    requires Contiguous(rows)
    ensures var r := EventsAfter(rows, id, from);
      && (forall i, j | 0 <= i < j < |r| :: r[i].version < r[j].version)
      && (forall e :: e in r <==>
            e.version > from && exists k :: 0 <= k < |rows| && rows[k].aggregate == id && rows[k].event == e)
  {
    var s := Stream(rows, id);
    var r := EventsAfter(rows, id, from);
    RowsAndStreams(rows, id);
    forall e
      ensures e in r <==>
        e.version > from && exists k :: 0 <= k < |rows| && rows[k].aggregate == id && rows[k].event == e
    {
      if e in r {
        var j :| 0 <= j < |r| && r[j] == e;
        assert s[from + j] == e && e in s;
      }
      if e.version > from && exists k :: 0 <= k < |rows| && rows[k].aggregate == id && rows[k].event == e {
        assert e in s;
        var j :| 0 <= j < |s| && s[j] == e;
        assert r[j - from] == e;
      }
    }
  }

  /** Each comes with the stamp of its own row. */
  lemma StampsAfterAreTheirs(rows: seq<StoredRow>, id: AggregateId, from: nat, j: nat) returns (k: nat)
    requires j < |EventsAfter(rows, id, from)|
    ensures |StampsAfter(rows, id, from)| == |EventsAfter(rows, id, from)|
    ensures k < |rows| && rows[k] == StoredRow(id, EventsAfter(rows, id, from)[j], StampsAfter(rows, id, from)[j])
  {
    k := StampsAreOfTheRows(rows, id, from + j);
  }

  /** `ORDER BY version DESC LIMIT 1` over one aggregate's snapshots. */
  function LatestSnapshot(snapshots: seq<Snapshot>, id: AggregateId): Option<Snapshot> {
    if snapshots == [] then None
    else
      var n := |snapshots| - 1;
      var before := LatestSnapshot(snapshots[..n], id);
      if snapshots[n].aggregate == id && (before.None? || snapshots[n].version > before.value.version)
      then Some(snapshots[n]) else before
  }

  lemma {:induction false} LatestIsNewest(snapshots: seq<Snapshot>, id: AggregateId)
    ensures var r := LatestSnapshot(snapshots, id);
      && (r.None? <==> forall s | s in snapshots :: s.aggregate != id)
      && (r.Some? ==> r.value in snapshots && r.value.aggregate == id)
      && (r.Some? ==> forall s | s in snapshots && s.aggregate == id :: s.version <= r.value.version)
  {
    if snapshots != [] {
      var n := |snapshots| - 1;
      LatestIsNewest(snapshots[..n], id);
      assert snapshots == snapshots[..n] + [snapshots[n]];
    }
  }

  predicate SnapshotTaken(snapshots: seq<Snapshot>, id: AggregateId, version: nat) {
    exists k :: 0 <= k < |snapshots| && snapshots[k].aggregate == id && snapshots[k].version == version
  }

  /** The row `append` writes: its own version number and the database's clock. */
  function Stored(id: AggregateId, e: DomainEvent, version: nat, now: nat): StoredRow {
    StoredRow(id, DomainEvent(e.eventId, e.payload, version), now)
  }

  /** One whole `append`, nothing in between: the new table and whether it threw. */
  function AppendOne(rows: seq<StoredRow>, id: AggregateId, e: DomainEvent, expected: Option<int>,
                     now: nat, outcome: Outcome): (seq<StoredRow>, bool)
  {
    var current := MaxVersion(rows, id);
    if outcome == Failed || (expected.Some? && expected.value != current)
       || !CanInsert(rows, id, current + 1, e.eventId) then (rows, true)
    else (rows + [Stored(id, e, current + 1, now)], outcome == FailedAfter)
  }

  /** When an append throws, and what it leaves: nothing if it failed before its insert, if the caller
      expected another version or if the event id is stored already; otherwise the next event of its
      stream, stamped with the database's clock, even if the caller is then told it failed. */
  lemma AppendOneExtends(rows: seq<StoredRow>, id: AggregateId, e: DomainEvent, expected: Option<int>,
                         now: nat, outcome: Outcome)
    requires Contiguous(rows)
    ensures var (rows', threw) := AppendOne(rows, id, e, expected, now, outcome);
      var head := |Stream(rows, id)|;
      var refused := (expected.Some? && expected.value != head) || IdTaken(rows, e.eventId);
      && Contiguous(rows')
      && rows' == (if outcome == Failed || refused then rows
                   else rows + [StoredRow(id, DomainEvent(e.eventId, e.payload, head + 1), now)])
      && (threw <==> refused || outcome != Done)
  {
    MaxIsLength(rows, id);
    ContiguousAppend(rows, Stored(id, e, |Stream(rows, id)| + 1, now));
  }

  /** What a caller hands to `append`; the version inside `event` is not used. */
  datatype AppendInput = AppendInput(aggregate: AggregateId, event: DomainEvent, expected: Option<int>)

  /** The first `n` appends of a batch, one after another up to the first that throws. */
  function AppendRows(rows: seq<StoredRow>, inputs: seq<AppendInput>, n: nat, now: nat, outcomes: nat -> Outcome)
    : (seq<StoredRow>, bool)
    requires n <= |inputs|
  {
    if n == 0 then (rows, false)
    else
      var (before, threw) := AppendRows(rows, inputs, n - 1, now, outcomes);
      var input := inputs[n - 1];
      if threw then (before, true)
      else AppendOne(before, input.aggregate, input.event, input.expected, now, outcomes(n - 1))
  }

  /** `appendBatch`: if an append throws or the commit fails, the table is what it was. */
  function Batch(rows: seq<StoredRow>, inputs: seq<AppendInput>, now: nat, outcomes: nat -> Outcome)
    : (seq<StoredRow>, bool)
  {
    var (rows', threw) := AppendRows(rows, inputs, |inputs|, now, outcomes);
    if threw || outcomes(|inputs|) != Done then (rows, true) else (rows', false)
  }

  /** A batch only adds rows, all stamped with the one time it ran at. */
  lemma {:induction false} BatchStamps(rows: seq<StoredRow>, inputs: seq<AppendInput>, n: nat, now: nat,
                                       outcomes: nat -> Outcome)
    requires n <= |inputs|
    ensures var rows' := AppendRows(rows, inputs, n, now, outcomes).0;
      rows <= rows' && forall k | |rows| <= k < |rows'| :: rows'[k].timestamp == now
  {
    if n > 0 { BatchStamps(rows, inputs, n - 1, now, outcomes); }
  }

  /** An append that throws ends the batch. */
  lemma {:induction false} AppendRowsThrew(rows: seq<StoredRow>, inputs: seq<AppendInput>, i: nat, n: nat, now: nat,
                                           outcomes: nat -> Outcome)
    requires i <= n <= |inputs| && AppendRows(rows, inputs, i, now, outcomes).1
    ensures AppendRows(rows, inputs, n, now, outcomes).1
  {
    if i < n { AppendRowsThrew(rows, inputs, i, n - 1, now, outcomes); }
  }

  /** The events of a batch for one aggregate, in order. */
  function EventsFor(inputs: seq<AppendInput>, id: AggregateId): seq<DomainEvent> {
    if inputs == [] then []
    else
      var n := |inputs| - 1;
      EventsFor(inputs[..n], id) + if inputs[n].aggregate == id then [inputs[n].event] else []
  }

  /** The same events with the versions that follow `n`. */
  function Renumbered(es: seq<DomainEvent>, n: nat): seq<DomainEvent> {
    if es == [] then []
    else
      var k := |es| - 1;
      Renumbered(es[..k], n) + [DomainEvent(es[k].eventId, es[k].payload, n + k + 1)]
  }

  lemma {:induction false} RenumberedAt(es: seq<DomainEvent>, n: nat)
    ensures |Renumbered(es, n)| == |es|
    ensures forall i | 0 <= i < |es| :: Renumbered(es, n)[i] == DomainEvent(es[i].eventId, es[i].payload, n + i + 1)
  {
    if es != [] { RenumberedAt(es[..|es| - 1], n); }
  }

  lemma RenumberedAppend(es: seq<DomainEvent>, e: DomainEvent, n: nat)
    ensures Renumbered(es + [e], n) == Renumbered(es, n) + [DomainEvent(e.eventId, e.payload, n + |es| + 1)]
  {
    assert (es + [e])[..|es|] == es;
  }

  /** Input `i` expects the version its aggregate has after the inputs before it, if it expects one,
      and its event id is neither stored nor used by one of those. */
  predicate Fits(rows: seq<StoredRow>, inputs: seq<AppendInput>, i: nat)
    requires i < |inputs|
  {
    var input := inputs[i];
    && (input.expected.Some? ==>
          input.expected.value == |Stream(rows, input.aggregate)| + |EventsFor(inputs[..i], input.aggregate)|)
    && !IdTaken(rows, input.event.eventId)
    && forall j | 0 <= j < i :: inputs[j].event.eventId != input.event.eventId
  }

  predicate UsesId(inputs: seq<AppendInput>, eventId: nat) {
    exists j :: 0 <= j < |inputs| && inputs[j].event.eventId == eventId
  }

  /** What the appends that went through have added: each aggregate's events with its next versions. */
  ghost predicate Added(rows: seq<StoredRow>, inputs: seq<AppendInput>, rows': seq<StoredRow>) {
    && Contiguous(rows') && rows <= rows' && |rows'| == |rows| + |inputs|
    && (forall id: AggregateId ::
          Stream(rows', id) == Stream(rows, id) + Renumbered(EventsFor(inputs, id), |Stream(rows, id)|))
    && (forall eventId: nat :: IdTaken(rows', eventId) <==> IdTaken(rows, eventId) || UsesId(inputs, eventId))
  }

  lemma AddedIds(rows: seq<StoredRow>, inputs: seq<AppendInput>, n: nat, before: seq<StoredRow>, row: StoredRow,
                 eventId: nat)
    requires n < |inputs| && row.event.eventId == inputs[n].event.eventId
    requires IdTaken(before, eventId) <==> IdTaken(rows, eventId) || UsesId(inputs[..n], eventId)
    ensures IdTaken(before + [row], eventId) <==> IdTaken(rows, eventId) || UsesId(inputs[..n + 1], eventId)
  {
    var rows' := before + [row];
    assert forall k | 0 <= k < |before| :: rows'[k] == before[k];
    assert forall k | 0 <= k < n :: inputs[..n][k] == inputs[..n + 1][k];
    assert rows'[|before|] == row && inputs[..n + 1][n] == inputs[n];
  }

  /** One more input continues its aggregate's numbering. */
  lemma RenumberedNext(inputs: seq<AppendInput>, n: nat, id: AggregateId, head: nat)
    requires n < |inputs|
    ensures var before, e := Renumbered(EventsFor(inputs[..n], id), head), inputs[n].event;
      Renumbered(EventsFor(inputs[..n + 1], id), head)
        == before + if inputs[n].aggregate == id then [DomainEvent(e.eventId, e.payload, head + |before| + 1)] else []
  {
    EventsForNext(inputs, n, id);
    RenumberedAt(EventsFor(inputs[..n], id), head);
    RenumberedAppend(EventsFor(inputs[..n], id), inputs[n].event, head);
  }

  /** The row of that input carries just that number. */
  lemma NextIsRow(rows: seq<StoredRow>, inputs: seq<AppendInput>, n: nat, before: seq<StoredRow>, row: StoredRow,
                  id: AggregateId)
    requires n < |inputs| && row.aggregate == inputs[n].aggregate
    requires row.event.version == |Stream(before, row.aggregate)| + 1
    requires row.event.eventId == inputs[n].event.eventId && row.event.payload == inputs[n].event.payload
    requires Stream(before, id) == Stream(rows, id) + Renumbered(EventsFor(inputs[..n], id), |Stream(rows, id)|)
    ensures Renumbered(EventsFor(inputs[..n + 1], id), |Stream(rows, id)|)
         == Renumbered(EventsFor(inputs[..n], id), |Stream(rows, id)|)
            + if row.aggregate == id then [row.event] else []
  {
    RenumberedNext(inputs, n, id, |Stream(rows, id)|);
  }

  lemma StreamContinues(stream: seq<DomainEvent>, added: seq<DomainEvent>, before: seq<StoredRow>, row: StoredRow,
                        id: AggregateId)
    requires Stream(before, id) == stream + added
    ensures Stream(before + [row], id) == stream + (added + if row.aggregate == id then [row.event] else [])
  {
    StreamAppend(before, row, id);
  }

  lemma AddedStream(rows: seq<StoredRow>, inputs: seq<AppendInput>, n: nat, before: seq<StoredRow>, row: StoredRow,
                    id: AggregateId)
    requires n < |inputs| && row.aggregate == inputs[n].aggregate
    requires row.event.version == |Stream(before, row.aggregate)| + 1
    requires row.event.eventId == inputs[n].event.eventId && row.event.payload == inputs[n].event.payload
    requires Stream(before, id) == Stream(rows, id) + Renumbered(EventsFor(inputs[..n], id), |Stream(rows, id)|)
    ensures Stream(before + [row], id)
         == Stream(rows, id) + Renumbered(EventsFor(inputs[..n + 1], id), |Stream(rows, id)|)
  {
    NextIsRow(rows, inputs, n, before, row, id);
    StreamContinues(Stream(rows, id), Renumbered(EventsFor(inputs[..n], id), |Stream(rows, id)|), before, row, id);
  }

  lemma AddedMore(rows: seq<StoredRow>, inputs: seq<AppendInput>, n: nat, before: seq<StoredRow>, row: StoredRow)
    requires n < |inputs| && Added(rows, inputs[..n], before)
    requires row.aggregate == inputs[n].aggregate && row.event.version == |Stream(before, row.aggregate)| + 1
    requires row.event.eventId == inputs[n].event.eventId && row.event.payload == inputs[n].event.payload
    ensures Added(rows, inputs[..n + 1], before + [row])
  {
    ContiguousAppend(before, row);
    forall id: AggregateId
      ensures Stream(before + [row], id)
           == Stream(rows, id) + Renumbered(EventsFor(inputs[..n + 1], id), |Stream(rows, id)|)
    {
      AddedStream(rows, inputs, n, before, row, id);
    }
    forall eventId: nat
      ensures IdTaken(before + [row], eventId) <==> IdTaken(rows, eventId) || UsesId(inputs[..n + 1], eventId)
    {
      AddedIds(rows, inputs, n, before, row, eventId);
    }
  }

  lemma EventsForNext(inputs: seq<AppendInput>, n: nat, id: AggregateId)
    requires n < |inputs|
    ensures EventsFor(inputs[..n + 1], id)
         == if inputs[n].aggregate == id then EventsFor(inputs[..n], id) + [inputs[n].event]
            else EventsFor(inputs[..n], id)
  {
    assert inputs[..n + 1][..n] == inputs[..n];
    assert EventsFor(inputs[..n], id) + [] == EventsFor(inputs[..n], id);
  }

  /** With no fault a batch goes through exactly if every input fits; then it has added each
      aggregate's events with consecutive next versions, and nothing else. */
  lemma BatchMeans(rows: seq<StoredRow>, inputs: seq<AppendInput>, now: nat, outcomes: nat -> Outcome)
    requires Contiguous(rows) && forall i :: outcomes(i) == Done
    ensures var (rows', threw) := Batch(rows, inputs, now, outcomes);
      && (threw <==> exists i :: 0 <= i < |inputs| && !Fits(rows, inputs, i))
      && (if threw then rows' == rows else Added(rows, inputs, rows'))
  {
    AppendRowsMeans(rows, inputs, |inputs|, now, outcomes);
    AllFitMeans(rows, inputs, |inputs|);
    assert inputs[..|inputs|] == inputs;
  }

  predicate AllFit(rows: seq<StoredRow>, inputs: seq<AppendInput>, n: nat)
    requires n <= |inputs|
  {
    n == 0 || (AllFit(rows, inputs, n - 1) && Fits(rows, inputs, n - 1))
  }

  lemma {:induction false} AllFitMeans(rows: seq<StoredRow>, inputs: seq<AppendInput>, n: nat)
    requires n <= |inputs|
    ensures AllFit(rows, inputs, n) <==> forall i | 0 <= i < n :: Fits(rows, inputs, i)
  {
    if n > 0 { AllFitMeans(rows, inputs, n - 1); }
  }

  lemma NoneAdded(rows: seq<StoredRow>, inputs: seq<AppendInput>)
    requires Contiguous(rows)
    ensures Added(rows, inputs[..0], rows)
  {
    forall id: AggregateId
      ensures Stream(rows, id) == Stream(rows, id) + Renumbered(EventsFor(inputs[..0], id), |Stream(rows, id)|)
    {
      assert Stream(rows, id) + [] == Stream(rows, id);
    }
  }

  lemma AppendRowsNext(rows: seq<StoredRow>, inputs: seq<AppendInput>, n: nat, now: nat, outcomes: nat -> Outcome)
    requires n < |inputs| && outcomes(n) == Done
    ensures var (before, threw) := AppendRows(rows, inputs, n, now, outcomes);
      AppendRows(rows, inputs, n + 1, now, outcomes)
        == if threw then (before, true)
           else AppendOne(before, inputs[n].aggregate, inputs[n].event, inputs[n].expected, now, Done)
  {
  }

  lemma {:induction false} AppendRowsMeans(rows: seq<StoredRow>, inputs: seq<AppendInput>, n: nat, now: nat,
                                           outcomes: nat -> Outcome)
    requires Contiguous(rows) && n <= |inputs| && forall i :: outcomes(i) == Done
    ensures var (rows', threw) := AppendRows(rows, inputs, n, now, outcomes);
      && (threw <==> !AllFit(rows, inputs, n))
      && (!threw ==> Added(rows, inputs[..n], rows'))
  {
    if n == 0 {
      NoneAdded(rows, inputs);
    } else {
      AppendRowsMeans(rows, inputs, n - 1, now, outcomes);
      AppendRowsNext(rows, inputs, n - 1, now, outcomes);
      var (before, threw) := AppendRows(rows, inputs, n - 1, now, outcomes);
      if !threw { OneOfBatch(rows, inputs, n - 1, before, now); }
    }
  }

  lemma OneOfBatch(rows: seq<StoredRow>, inputs: seq<AppendInput>, n: nat, before: seq<StoredRow>, now: nat)
    requires n < |inputs| && Added(rows, inputs[..n], before)
    ensures var (rows', threw) :=
        AppendOne(before, inputs[n].aggregate, inputs[n].event, inputs[n].expected, now, Done);
      (threw <==> !Fits(rows, inputs, n)) && (!threw ==> Added(rows, inputs[..n + 1], rows'))
  {
    FitsMeans(rows, inputs, n, before);
    LandsWhen(before, inputs[n], now);
    if Fits(rows, inputs, n) {
      var id := inputs[n].aggregate;
      AddedMore(rows, inputs, n, before, Stored(id, inputs[n].event, |Stream(before, id)| + 1, now));
    }
  }

  /** When one fault-free append goes through. */
  lemma LandsWhen(rows: seq<StoredRow>, input: AppendInput, now: nat)
    requires Contiguous(rows)
    ensures var head := |Stream(rows, input.aggregate)|;
      AppendOne(rows, input.aggregate, input.event, input.expected, now, Done)
        == if (input.expected.Some? ==> input.expected.value == head) && !IdTaken(rows, input.event.eventId)
           then (rows + [Stored(input.aggregate, input.event, head + 1, now)], false) else (rows, true)
  {
    MaxIsLength(rows, input.aggregate);
  }

  lemma FitsMeans(rows: seq<StoredRow>, inputs: seq<AppendInput>, n: nat, before: seq<StoredRow>)
    requires n < |inputs| && Added(rows, inputs[..n], before)
    ensures Fits(rows, inputs, n) <==>
      && (inputs[n].expected.Some? ==> inputs[n].expected.value == |Stream(before, inputs[n].aggregate)|)
      && !IdTaken(before, inputs[n].event.eventId)
  {
    RenumberedAt(EventsFor(inputs[..n], inputs[n].aggregate), |Stream(rows, inputs[n].aggregate)|);
    UsedBefore(inputs, n);
  }

  lemma UsedBefore(inputs: seq<AppendInput>, n: nat)
    requires n < |inputs|
    ensures UsesId(inputs[..n], inputs[n].event.eventId)
       <==> exists j :: 0 <= j < n && inputs[j].event.eventId == inputs[n].event.eventId
  {
    assert forall j | 0 <= j < n :: inputs[..n][j] == inputs[j];
  }

  class EventStoreRepository {
    var rows: seq<StoredRow>
    var snapshots: seq<Snapshot>

    ghost predicate Valid() reads this { Contiguous(rows) }

    constructor ()
      ensures Valid() && rows == [] && snapshots == []
    {
      rows, snapshots := [], [];
    }

    method CurrentVersion(id: AggregateId) returns (version: nat)
      ensures version == MaxVersion(rows, id)
    {
      version := 0;
      for i := 0 to |rows|
        invariant version == MaxVersion(rows[..i], id)
      {
        assert rows[..i + 1][..i] == rows[..i];
        if rows[i].aggregate == id && rows[i].event.version > version {
          version := rows[i].event.version;
        }
      }
      assert rows[..|rows|] == rows;
    }

    method Append(id: AggregateId, e: DomainEvent, expected: Option<int>, now: nat, outcome: Outcome)
      returns (threw: bool)
      requires Valid()
      modifies this`rows
      ensures Valid()
      ensures (rows, threw) == AppendOne(old(rows), id, e, expected, now, outcome)
    {
      AppendOneExtends(rows, id, e, expected, now, outcome);
      var current := CurrentVersion(id);
      var newVersion := current + 1;
      if outcome == Failed || (expected.Some? && expected.value != current) {
        return true;
      }
      if !CanInsert(rows, id, newVersion, e.eventId) {
        return true;
      }
      rows := rows + [Stored(id, e, newVersion, now)];
      threw := outcome == FailedAfter;
    }

    /** All or nothing: on any failure the table is what it was. */
    method AppendBatch(inputs: seq<AppendInput>, now: nat, outcomes: nat -> Outcome)
      returns (threw: bool)
      requires Valid()
      modifies this`rows
      ensures Valid()
      ensures (rows, threw) == Batch(old(rows), inputs, now, outcomes)
    {
      var saved := rows;
      for i := 0 to |inputs|
        invariant Valid() && saved == old(rows)
        invariant (rows, false) == AppendRows(saved, inputs, i, now, outcomes)
      {
        threw := Append(inputs[i].aggregate, inputs[i].event, inputs[i].expected, now, outcomes(i));
        if threw {
          AppendRowsThrew(saved, inputs, i + 1, |inputs|, now, outcomes);
          rows := saved;
          return;
        }
      }
      threw := outcomes(|inputs|) != Done;
      if threw {
        rows := saved;
      }
    }

    /** Both columns a caller reads: the events, and their stamps. */
    method GetEvents(id: AggregateId, from: nat) returns (r: seq<DomainEvent>, stamps: seq<nat>)
      requires Valid()
      ensures r == EventsAfter(rows, id, from)
      ensures stamps == StampsAfter(rows, id, from) && |stamps| == |r|
    {
      r, stamps := [], [];
      for i := 0 to |rows|
        invariant r == EventsAfter(rows[..i], id, from)
        invariant stamps == StampsAfter(rows[..i], id, from)
      {
        assert rows[..i + 1][..i] == rows[..i];
        if rows[i].aggregate == id {
          StreamPosition(rows, i);
          if rows[i].event.version > from {
            r := r + [rows[i].event];
            stamps := stamps + [rows[i].timestamp];
          }
        }
      }
      assert rows[..|rows|] == rows;
    }

    method GetLatestSnapshot(id: AggregateId) returns (r: Option<Snapshot>)
      ensures r == LatestSnapshot(snapshots, id)
    {
      r := None;
      for i := 0 to |snapshots|
        invariant r == LatestSnapshot(snapshots[..i], id)
      {
        assert snapshots[..i + 1][..i] == snapshots[..i];
        if snapshots[i].aggregate == id && (r.None? || snapshots[i].version > r.value.version) {
          r := Some(snapshots[i]);
        }
      }
      assert snapshots[..|snapshots|] == snapshots;
    }

    method SaveSnapshot(id: AggregateId, version: nat, state: AccountState, outcome: Outcome)
      returns (threw: bool)
      modifies this`snapshots
      ensures (snapshots, threw) == InsertSnapshot(old(snapshots), Snapshot(id, version, state), outcome)
    {
      if outcome == Failed || SnapshotTaken(snapshots, id, version) {
        return true;
      }
      snapshots := snapshots + [Snapshot(id, version, state)];
      threw := outcome == FailedAfter;
    }
  }

  /** The snapshot table after one insert under UNIQUE(aggregate_id, version). */
  function InsertSnapshot(snapshots: seq<Snapshot>, s: Snapshot, outcome: Outcome): (seq<Snapshot>, bool) {
    if outcome == Failed || SnapshotTaken(snapshots, s.aggregate, s.version) then (snapshots, true)
    else (snapshots + [s], outcome == FailedAfter)
  }

  /** A stream only grows at its end as the table does. */
  lemma {:induction false} StreamPrefix(rows: seq<StoredRow>, i: nat, id: AggregateId)
    requires i <= |rows|
    ensures Stream(rows[..i], id) <= Stream(rows, id)
  {
    if i < |rows| {
      var n := |rows| - 1;
      StreamPrefix(rows[..n], i, id);
      assert rows[..n][..i] == rows[..i];
    } else {
      assert rows[..i] == rows;
    }
  }

  /** Row `i` of a contiguous table carries the next version of its stream. */
  lemma StreamPosition(rows: seq<StoredRow>, i: nat)
    requires Contiguous(rows) && i < |rows|
    ensures rows[i].event.version == |Stream(rows[..i], rows[i].aggregate)| + 1
  {
    var id := rows[i].aggregate;
    StreamPrefix(rows, i + 1, id);
    assert rows[..i + 1][..i] == rows[..i];
    assert Stream(rows[..i + 1], id)[|Stream(rows[..i], id)|] == rows[i].event;
  }
}
