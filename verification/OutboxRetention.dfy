/** How long a published row stays in the outbox. */
module OutboxRetention {
  import opened Options
  import opened Outbox
  import opened OutboxRuns

  /** No row was published in the future. */
  ghost predicate PastStamps(rows: seq<Row>, now: nat) {
    forall r | r in rows && r.published.Some? :: r.published.value <= now
  }

  /** Marking a row and recording a failure, row by row. */
  lemma UpdatesEach(rows: seq<Row>, id: RowId, now: nat)
    requires DistinctIds(rows)
    ensures |MarkPublished(rows, id, now)| == |rows| == |RecordFailure(rows, id)|
    ensures forall k | 0 <= k < |rows| ::
      && MarkPublished(rows, id, now)[k] == (if rows[k].id == id then rows[k].(published := Some(now)) else rows[k])
      && RecordFailure(rows, id)[k]
           == (if rows[k].id == id then rows[k].(attempts := rows[k].attempts + 1) else rows[k])
  {
    LengthsKept(rows, id, now);
    forall k | 0 <= k < |rows|
      ensures MarkPublished(rows, id, now)[k] == if rows[k].id == id then rows[k].(published := Some(now)) else rows[k]
      ensures RecordFailure(rows, id)[k]
           == if rows[k].id == id then rows[k].(attempts := rows[k].attempts + 1) else rows[k]
    {
      UpdatesOneRow(rows, id, now, k);
    }
  }

  lemma CallStampsPast(rows: seq<Row>, ph: Phase, now: nat, outcome: Outcome)
    requires DistinctIds(rows) && PastStamps(rows, now)
    ensures PastStamps(MakeCall(rows, ph, now, outcome).rows, now)
  {
    match ph
    case Marking(batch, i) => if i < |batch| { UpdatesEach(rows, batch[i].id, now); }
    case Recording(batch, i) => if i < |batch| { UpdatesEach(rows, batch[i].id, now); }
    case Cleaning => DeleteMeans(rows, now);
    case _ =>
  }

  lemma StepStampsPast(w: World, s: Step)
    requires OutboxRuns.RowsOk(w.rows, w.arrived) && PastStamps(w.rows, w.now)
    ensures PastStamps(Next(w, s).rows, Next(w, s).now)
  {
    if Enabled(w, s) && s.Work? { CallStampsPast(w.rows, w.polls[s.p], w.now, s.outcome); }
    if Enabled(w, s) && s.Arrive? { InsertSorted(w.rows, Row(w.arrived, s.created, None, 0)); }
  }

  lemma {:induction false} StampsArePast(steps: seq<Step>)
    ensures PastStamps(Run(START, steps).rows, Run(START, steps).now)
  {
    if steps != [] {
      StampsArePast(steps[..|steps| - 1]);
      TableStaysInOrder(steps[..|steps| - 1]);
      StepStampsPast(Run(START, steps[..|steps| - 1]), steps[|steps| - 1]);
    }
  }

  /** The row with this id is there, published no earlier than `since`. */
  ghost predicate PublishedSince(rows: seq<Row>, id: RowId, created: nat, since: nat) {
    exists k :: 0 <= k < |rows| && Since(rows[k], id, created, since)
  }

  predicate Since(r: Row, id: RowId, created: nat, since: nat) {
    r.id == id && r.created == created && r.published.Some? && r.published.value >= since
  }

  lemma CallKeeps(rows: seq<Row>, ph: Phase, now: nat, outcome: Outcome, id: RowId, created: nat, since: nat)
    requires DistinctIds(rows) && PublishedSince(rows, id, created, since) && since <= now <= since + 86400000
    ensures PublishedSince(MakeCall(rows, ph, now, outcome).rows, id, created, since)
  {
    var k :| 0 <= k < |rows| && Since(rows[k], id, created, since);
    match ph
    case Marking(batch, i) =>
      if i < |batch| {
        UpdatesEach(rows, batch[i].id, now);
        assert Since(MarkPublished(rows, batch[i].id, now)[k], id, created, since);
      }
    case Recording(batch, i) =>
      if i < |batch| {
        UpdatesEach(rows, batch[i].id, now);
        assert Since(RecordFailure(rows, batch[i].id)[k], id, created, since);
      }
    case Cleaning =>
      DeleteMeans(rows, now);
      assert rows[k] in DeletePublished(rows, now);
    case _ =>
  }

  lemma StepKeepsPublished(steps: seq<Step>, s: Step, id: RowId, created: nat, since: nat)
    requires PublishedSince(Run(START, steps).rows, id, created, since)
    requires since <= Run(START, steps).now <= since + 86400000
    ensures PublishedSince(Next(Run(START, steps), s).rows, id, created, since)
  {
    var w := Run(START, steps);
    TableStaysInOrder(steps);
    if Enabled(w, s) && s.Work? { CallKeeps(w.rows, w.polls[s.p], w.now, s.outcome, id, created, since); }
    if Enabled(w, s) && s.Arrive? {
      var k :| 0 <= k < |w.rows| && Since(w.rows[k], id, created, since);
      InsertSorted(w.rows, Row(w.arrived, s.created, None, 0));
      assert w.rows[k] in Next(w, s).rows;
    }
  }

  lemma ClockRuns(w: World, s: Step)
    ensures Next(w, s).now >= w.now
  {
  }

  /** Whatever happens: a published row is still in the table, marked no earlier than it was, as long as
      no more than 24 hours have passed since. */
  lemma {:induction false} KeptForADay(steps: seq<Step>, more: seq<Step>, r: Row)
    requires r in Run(START, steps).rows && r.published.Some?
    requires Run(Run(START, steps), more).now <= r.published.value + 86400000
    ensures PublishedSince(Run(Run(START, steps), more).rows, r.id, r.created, r.published.value)
    ensures Run(Run(START, steps), more).now >= r.published.value
  {
    if more == [] {
      StampsArePast(steps);
      var k :| 0 <= k < |Run(START, steps).rows| && Run(START, steps).rows[k] == r;
    } else {
      var n := |more| - 1;
      var w := Run(Run(START, steps), more[..n]);
      ClockRuns(w, more[n]);
      KeptForADay(steps, more[..n], r);
      RunSplit(START, steps, more[..n]);
      assert w == Run(START, steps + more[..n]);
      StepKeepsPublished(steps + more[..n], more[n], r.id, r.created, r.published.value);
    }
  }
}
