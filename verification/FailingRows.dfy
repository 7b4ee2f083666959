/** What it costs that a message which cannot be published is only logged: it stays pending and keeps
    its place in the batch. Fifty of them stop the outbox; fewer slow it down. */
module FailingRows {
  import opened Options
  import opened Outbox
  import opened OutboxRuns

  // ---------------------------------------------------------------- a full batch of them

  /** A pending row that cannot be published, created no later than `bound`. */
  predicate IsBad(r: Row, bad: set<RowId>, bound: nat) { IsPending(r) && r.id in bad && r.created <= bound }

  function BadCount(rows: seq<Row>, bad: set<RowId>, bound: nat): nat {
    if rows == [] then 0 else (if IsBad(rows[0], bad, bound) then 1 else 0) + BadCount(rows[1..], bad, bound)
  }

  /** How many of them stand in front of row `id`. */
  function BadBefore(rows: seq<Row>, id: RowId, bad: set<RowId>, bound: nat): nat {
    if rows == [] || rows[0].id == id then 0
    else (if IsBad(rows[0], bad, bound) then 1 else 0) + BadBefore(rows[1..], id, bad, bound)
  }

  /** A row behind that many is in no batch. */
  lemma {:induction false} BehindIsNotRead(rows: seq<Row>, id: RowId, bad: set<RowId>, bound: nat, limit: nat)
    requires limit <= BadBefore(rows, id, bad, bound)
    ensures forall r | r in FirstPending(rows, limit) :: r.id != id
  {
    if rows != [] && rows[0].id != id {
      var less := if limit > 0 && IsPending(rows[0]) then limit - 1 else limit;
      if IsPending(rows[0]) && limit > 0 {
        BehindIsNotRead(rows[1..], id, bad, bound, limit - 1);
        assert FirstPending(rows, limit) == [rows[0]] + FirstPending(rows[1..], limit - 1);
      } else if !IsPending(rows[0]) {
        BehindIsNotRead(rows[1..], id, bad, bound, limit);
      }
    }
  }

  // ---------------------------------------------------------------- the statements

  /** The row itself is there, pending, and at least `n` of them stand in front of it. */
  ghost predicate Blocked(rows: seq<Row>, id: RowId, bad: set<RowId>, bound: nat, n: nat) {
    HasId(Pending(rows), id) && BadBefore(rows, id, bad, bound) >= n
  }

  lemma {:induction false} InsertBehind(rows: seq<Row>, r: Row, id: RowId, bad: set<RowId>, bound: nat)
    requires r.id != id
    ensures BadBefore(Insert(rows, r), id, bad, bound) >= BadBefore(rows, id, bad, bound)
    ensures BadCount(Insert(rows, r), bad, bound) >= BadCount(rows, bad, bound)
  {
    if rows == [] || r.created < rows[0].created {
      assert ([r] + rows)[1..] == rows;
    } else {
      InsertBehind(rows[1..], r, id, bad, bound);
      assert Insert(rows, r)[1..] == Insert(rows[1..], r);
    }
  }

  /** A row that arrives no earlier than all of them were created goes behind all of them. */
  lemma {:induction false} ArrivesBehind(rows: seq<Row>, r: Row, bad: set<RowId>, bound: nat)
    requires Sorted(rows) && bound <= r.created && !HasId(rows, r.id)
    ensures BadBefore(Insert(rows, r), r.id, bad, bound) == BadCount(rows, bad, bound)
  {
    if rows != [] {
      if r.created < rows[0].created {
        NoneLeft(rows, bad, bound);
      } else {
        ArrivesBehind(rows[1..], r, bad, bound);
        assert Insert(rows, r)[1..] == Insert(rows[1..], r);
      }
    }
  }

  lemma {:induction false} NoneLeft(rows: seq<Row>, bad: set<RowId>, bound: nat)
    requires Sorted(rows) && (rows != [] ==> bound < rows[0].created)
    ensures BadCount(rows, bad, bound) == 0
  {
    if rows != [] {
      if rows[1..] != [] { assert rows[1..][0] == rows[1]; }
      NoneLeft(rows[1..], bad, bound);
    }
  }

  /** Marking another row, counting a failure and the clean-up leave all of them where they are. */
  lemma {:induction false} UpdatesBehind(rows: seq<Row>, other: RowId, now: nat, id: RowId, bad: set<RowId>, bound: nat)
    requires other !in bad
    ensures BadBefore(MarkPublished(rows, other, now), id, bad, bound) == BadBefore(rows, id, bad, bound)
    ensures BadCount(MarkPublished(rows, other, now), bad, bound) == BadCount(rows, bad, bound)
  {
    if rows != [] {
      UpdatesBehind(rows[1..], other, now, id, bad, bound);
      assert MarkPublished(rows, other, now)[1..] == MarkPublished(rows[1..], other, now);
    }
  }

  lemma {:induction false} RecordBehind(rows: seq<Row>, other: RowId, id: RowId, bad: set<RowId>, bound: nat)
    ensures BadBefore(RecordFailure(rows, other), id, bad, bound) == BadBefore(rows, id, bad, bound)
    ensures BadCount(RecordFailure(rows, other), bad, bound) == BadCount(rows, bad, bound)
  {
    if rows != [] {
      RecordBehind(rows[1..], other, id, bad, bound);
      assert RecordFailure(rows, other)[1..] == RecordFailure(rows[1..], other);
    }
  }

  lemma {:induction false} DeleteBehind(rows: seq<Row>, now: nat, id: RowId, bad: set<RowId>, bound: nat)
    ensures BadBefore(DeletePublished(rows, now), id, bad, bound) >= BadBefore(rows, id, bad, bound)
    ensures BadCount(DeletePublished(rows, now), bad, bound) == BadCount(rows, bad, bound)
  {
    if rows != [] {
      DeleteBehind(rows[1..], now, id, bad, bound);
      if !Expired(rows[0], now) { assert DeletePublished(rows, now)[1..] == DeletePublished(rows[1..], now); }
    }
  }

  // ---------------------------------------------------------------- every run

  /** A cycle that will not send row `id`, and is not about to mark one of the bad rows. */
  predicate Clear(ph: Phase, id: RowId, bad: set<RowId>) {
    match ph
    case Publishing(batch, i) => forall j | i <= j < |batch| :: batch[j].id != id
    case Marking(batch, i) =>
      (forall j | i <= j < |batch| :: batch[j].id != id) && (i < |batch| ==> batch[i].id !in bad)
    case Recording(batch, i) => forall j | i <= j < |batch| :: batch[j].id != id
    case _ => true
  }

  predicate AllClear(polls: seq<Phase>, id: RowId, bad: set<RowId>) {
    forall p | 0 <= p < |polls| :: Clear(polls[p], id, bad)
  }

  /** In this step no bad row is published; and if row `id` arrives, it was created no earlier. */
  predicate KeepsFailing(w: World, s: Step, id: RowId, bad: set<RowId>, bound: nat) {
    match s
    case Arrive(created) => w.arrived == id ==> bound <= created
    case Work(p, outcome) => p < |w.polls| && AtBadRow(w.polls[p], bad) ==> outcome != Done
    case _ => true
  }

  predicate AtBadRow(ph: Phase, bad: set<RowId>) { ph.Publishing? && ph.i < |ph.batch| && ph.batch[ph.i].id in bad }

  predicate AllKeepFailing(w: World, steps: seq<Step>, id: RowId, bad: set<RowId>, bound: nat) {
    steps == [] ||
    var n := |steps| - 1;
    AllKeepFailing(w, steps[..n], id, bad, bound) && KeepsFailing(Run(w, steps[..n]), steps[n], id, bad, bound)
  }

  /** Row `id` is blocked, or has not arrived yet while a whole batch of bad rows is there. */
  ghost predicate Starved(w: World, id: RowId, bad: set<RowId>, bound: nat) {
    && AllClear(w.polls, id, bad)
    && if id < w.arrived then Blocked(w.rows, id, bad, bound, BATCH)
       else !HasId(w.rows, id) && BadCount(w.rows, bad, bound) >= BATCH
  }

  /** One call of a cycle sends another row, and leaves everybody in place. */
  lemma CallBlocked(rows: seq<Row>, ph: Phase, now: nat, outcome: Outcome, id: RowId, bad: set<RowId>, bound: nat)
    requires Blocked(rows, id, bad, bound, BATCH) && Clear(ph, id, bad)
    requires AtBadRow(ph, bad) ==> outcome != Done
    ensures var e := MakeCall(rows, ph, now, outcome);
      Blocked(e.rows, id, bad, bound, BATCH) && Clear(e.next, id, bad) && id !in e.sent
  {
    match ph
    case Reading => BehindIsNotRead(rows, id, bad, bound, BATCH);
    case Marking(batch, i) =>
      if i < |batch| {
        UpdatesBehind(rows, batch[i].id, now, id, bad, bound);
        MarkHas(rows, batch[i].id, now, id);
      }
    case Recording(batch, i) =>
      if i < |batch| {
        RecordBehind(rows, batch[i].id, id, bad, bound);
        RecordHas(rows, batch[i].id, id);
      }
    case Cleaning =>
      DeleteBehind(rows, now, id, bad, bound);
      DeleteKeepsPending(rows, now);
    case _ =>
  }

  /** The same while the row is still to come. */
  lemma CallBefore(rows: seq<Row>, ph: Phase, now: nat, outcome: Outcome, id: RowId, bad: set<RowId>, bound: nat)
    requires !HasId(rows, id) && BadCount(rows, bad, bound) >= BATCH && Clear(ph, id, bad)
    requires AtBadRow(ph, bad) ==> outcome != Done
    ensures var e := MakeCall(rows, ph, now, outcome);
      !HasId(e.rows, id) && BadCount(e.rows, bad, bound) >= BATCH && Clear(e.next, id, bad) && id !in e.sent
  {
    match ph
    case Reading => NotThereNotRead(rows, id);
    case Marking(batch, i) =>
      if i < |batch| {
        UpdatesBehind(rows, batch[i].id, now, id, bad, bound);
        MarkHas(rows, batch[i].id, now, id);
      }
    case Recording(batch, i) =>
      if i < |batch| {
        RecordBehind(rows, batch[i].id, id, bad, bound);
        RecordHas(rows, batch[i].id, id);
      }
    case Cleaning =>
      DeleteBehind(rows, now, id, bad, bound);
      DeleteKeepsPending(rows, now);
    case _ =>
  }

  lemma NotThereNotRead(rows: seq<Row>, id: RowId)
    requires !HasId(rows, id)
    ensures forall r | r in FirstPending(rows, BATCH) :: r.id != id
  {
    PendingHasId(rows, id);
    HasAll(Pending(rows), id);
  }

  lemma ArriveStarved(w: World, created: nat, id: RowId, bad: set<RowId>, bound: nat)
    requires Starved(w, id, bad, bound) && RowsOk(w.rows, w.arrived) && (w.arrived == id ==> bound <= created)
    ensures Starved(Act(w, Arrive(created)), id, bad, bound)
  {
    var r := Row(w.arrived, created, None, 0);
    InsertHas(w.rows, r, id);
    if id == w.arrived {
      ArrivesBehind(w.rows, r, bad, bound);
    } else {
      InsertBehind(w.rows, r, id, bad, bound);
    }
  }

  lemma WorkStarved(w: World, p: nat, outcome: Outcome, id: RowId, bad: set<RowId>, bound: nat)
    requires Starved(w, id, bad, bound) && Enabled(w, Work(p, outcome))
    requires KeepsFailing(w, Work(p, outcome), id, bad, bound)
    ensures Starved(Act(w, Work(p, outcome)), id, bad, bound)
    ensures id !in MakeCall(w.rows, w.polls[p], w.now, outcome).sent
  {
    if id < w.arrived {
      CallBlocked(w.rows, w.polls[p], w.now, outcome, id, bad, bound);
    } else {
      CallBefore(w.rows, w.polls[p], w.now, outcome, id, bad, bound);
    }
  }

  lemma StepStarved(w: World, s: Step, id: RowId, bad: set<RowId>, bound: nat) returns (sent: seq<RowId>)
    requires Starved(w, id, bad, bound) && KeepsFailing(w, s, id, bad, bound) && RowsOk(w.rows, w.arrived)
    ensures Starved(Next(w, s), id, bad, bound) && Next(w, s).log == w.log + sent && id !in sent
  {
    sent := [];
    if Enabled(w, s) {
      match s
      case Arrive(created) => ArriveStarved(w, created, id, bad, bound);
      case Work(p, outcome) =>
        WorkStarved(w, p, outcome, id, bad, bound);
        sent := MakeCall(w.rows, w.polls[p], w.now, outcome).sent;
      case _ =>
    }
  }

  lemma {:induction false} StaysStarved(before: seq<Step>, steps: seq<Step>, id: RowId, bad: set<RowId>, bound: nat)
    returns (sent: seq<RowId>)
    requires var w := Run(START, before); Starved(w, id, bad, bound) && AllKeepFailing(w, steps, id, bad, bound)
    ensures var w, w' := Run(START, before), Run(Run(START, before), steps);
      Starved(w', id, bad, bound) && w'.log == w.log + sent && id !in sent
  {
    if steps == [] {
      sent := [];
    } else {
      var n := |steps| - 1;
      var first := StaysStarved(before, steps[..n], id, bad, bound);
      RunSplit(START, before, steps[..n]);
      TableStaysInOrder(before + steps[..n]);
      var last := StepStarved(Run(Run(START, before), steps[..n]), steps[n], id, bad, bound);
      sent := first + last;
    }
  }

  /** From any reachable table, no cycle being under way: while 50 pending rows keep failing, a row behind
      them, or one that arrives after them, is not sent in any later run, whatever else happens. */
  lemma FiftyStopTheOutbox(before: seq<Step>, steps: seq<Step>, id: RowId, bad: set<RowId>, bound: nat)
    returns (sent: seq<RowId>)
    requires var w := Run(START, before);
      && !w.isPollRunning && AllKeepFailing(w, steps, id, bad, bound)
      && if id < w.arrived then HasId(Pending(w.rows), id) && BadBefore(w.rows, id, bad, bound) >= 50
         else BadCount(w.rows, bad, bound) >= 50
    ensures var w, w' := Run(START, before), Run(START, before + steps);
      && w'.log == w.log + sent && id !in sent
      && (id < w'.arrived ==> HasId(Pending(w'.rows), id))
  {
    var w := Run(START, before);
    RunKeeps(START, before);
    TableStaysInOrder(before);
    assert forall p | 0 <= p < |w.polls| :: w.polls[p].Ended?;
    sent := StaysStarved(before, steps, id, bad, bound);
    RunSplit(START, before, steps);
  }

  // ---------------------------------------------------------------- fewer than a batch

  /** Of a batch exactly the bad rows cannot be published; all other calls go through. */
  ghost predicate FailsBad(plan: Call -> Outcome, batch: seq<Row>, bad: set<RowId>) {
    forall c :: plan(c) != Done <==> c.Publish? && c.i < |batch| && batch[c.i].id in bad
  }

  /** Is this one of the rows of the batch, from `i` on, that go out? */
  predicate GoesOut(batch: seq<Row>, i: nat, bad: set<RowId>, id: RowId) {
    id !in bad && exists j :: i <= j < |batch| && batch[j].id == id
  }

  lemma GoesOutNext(batch: seq<Row>, i: nat, bad: set<RowId>, id: RowId)
    requires i < |batch|
    ensures GoesOut(batch, i, bad, id) <==> GoesOut(batch, i + 1, bad, id) || (id !in bad && batch[i].id == id)
  {
  }

  /** The rest of the cycle from message `i` on sends the good rows and leaves the bad ones pending. */
  lemma {:induction false} BatchPasses(rows: seq<Row>, sent: seq<RowId>, batch: seq<Row>, i: nat, now: nat,
                                       plan: Call -> Outcome, bad: set<RowId>, id: RowId)
    requires i <= |batch| && FailsBad(plan, batch, bad)
    ensures var (rows', sent') := Finish(rows, sent, From(batch, i), now, plan);
      && (HasId(Pending(rows'), id) <==> HasId(Pending(rows), id) && !GoesOut(batch, i, bad, id))
      && (id in sent || GoesOut(batch, i, bad, id) ==> id in sent')
    decreases |batch| - i
  {
    if i == |batch| {
      DeleteKeepsPending(rows, now);
      FinishCall(rows, sent, Cleaning, now, plan);
    } else {
      GoesOutNext(batch, i, bad, id);
      FinishCall(rows, sent, Publishing(batch, i), now, plan);
      if batch[i].id in bad {
        BadPasses(rows, sent, batch, i, now, plan, bad, id);
      } else {
        GoodPasses(rows, sent, batch, i, now, plan, bad, id);
      }
    }
  }

  /** A good row is sent and marked. */
  lemma {:induction false} GoodPasses(rows: seq<Row>, sent: seq<RowId>, batch: seq<Row>, i: nat, now: nat,
                                      plan: Call -> Outcome, bad: set<RowId>, id: RowId)
    requires i < |batch| && FailsBad(plan, batch, bad) && batch[i].id !in bad
    ensures var (rows', sent') := Finish(rows, sent + [batch[i].id], Marking(batch, i), now, plan);
      && (HasId(Pending(rows'), id) <==>
            HasId(Pending(rows), id) && id != batch[i].id && !GoesOut(batch, i + 1, bad, id))
      && (id in sent || id == batch[i].id || GoesOut(batch, i + 1, bad, id) ==> id in sent')
    decreases |batch| - i, 0
  {
    MarkHas(rows, batch[i].id, now, id);
    FinishCall(rows, sent + [batch[i].id], Marking(batch, i), now, plan);
    BatchPasses(MarkPublished(rows, batch[i].id, now), sent + [batch[i].id], batch, i + 1, now, plan, bad, id);
  }

  /** A bad row is counted and stays; whether it reached the bus before the error makes no difference. */
  lemma {:induction false} BadPasses(rows: seq<Row>, sent: seq<RowId>, batch: seq<Row>, i: nat, now: nat,
                                     plan: Call -> Outcome, bad: set<RowId>, id: RowId)
    requires i < |batch| && FailsBad(plan, batch, bad) && batch[i].id in bad
    ensures var sent1 := if plan(Publish(i)) == Failed then sent else sent + [batch[i].id];
      var (rows', sent') := Finish(rows, sent1, Recording(batch, i), now, plan);
      && (HasId(Pending(rows'), id) <==> HasId(Pending(rows), id) && !GoesOut(batch, i + 1, bad, id))
      && (id in sent || GoesOut(batch, i + 1, bad, id) ==> id in sent')
    decreases |batch| - i, 0
  {
    var sent1 := if plan(Publish(i)) == Failed then sent else sent + [batch[i].id];
    RecordHas(rows, batch[i].id, id);
    FinishCall(rows, sent1, Recording(batch, i), now, plan);
    BatchPasses(RecordFailure(rows, batch[i].id), sent1, batch, i + 1, now, plan, bad, id);
  }

  /** One cycle: exactly the good rows of the batch stop being pending, and they have been sent. */
  lemma PollPasses(rows: seq<Row>, now: nat, plan: Call -> Outcome, bad: set<RowId>, id: RowId)
    requires FailsBad(plan, FirstPending(rows, BATCH), bad)
    ensures var (rows', sent) := Poll(rows, now, plan);
      var batch := FirstPending(rows, BATCH);
      && (HasId(Pending(rows'), id) <==> HasId(Pending(rows), id) && !GoesOut(batch, 0, bad, id))
      && (GoesOut(batch, 0, bad, id) ==> id in sent)
  {
    var batch := FirstPending(rows, BATCH);
    if batch != [] { BatchPasses(rows, [], batch, 0, now, plan, bad, id); }
    FinishCall(rows, [], Reading, now, plan);
  }

  /** The good rows that are pending. */
  function Good(rows: seq<Row>, bad: set<RowId>): set<RowId> {
    (set r | r in Pending(rows) :: r.id) - bad
  }

  lemma GoodHas(rows: seq<Row>, bad: set<RowId>, id: RowId)
    ensures id in Good(rows, bad) <==> HasId(Pending(rows), id) && id !in bad
  {
    HasAll(Pending(rows), id);
  }

  /** The ids of a batch, as many as it has rows. */
  lemma {:induction false} DistinctIdCount(rows: seq<Row>)
    requires DistinctIds(rows)
    ensures |set r | r in rows :: r.id| == |rows|
  {
    if rows != [] {
      DistinctIdCount(rows[1..]);
      var rest := set r | r in rows[1..] :: r.id;
      assert rows == [rows[0]] + rows[1..];
      HasAll(rows[1..], rows[0].id);
      assert (set r | r in rows :: r.id) == rest + {rows[0].id};
    }
  }

  /** A full batch holds at least 50 less the bad ones; a batch that is not full holds all that is pending. */
  lemma BatchIsBig(rows: seq<Row>, bad: set<RowId>, out: set<RowId>)
    requires DistinctIds(rows) && |bad| < BATCH
    requires forall id :: id in out <==> GoesOut(FirstPending(rows, BATCH), 0, bad, id)
    ensures out <= Good(rows, bad) && (out == Good(rows, bad) || |out| >= BATCH - |bad|)
  {
    var batch := FirstPending(rows, BATCH);
    var ids := set r | r in batch :: r.id;
    assert batch <= Pending(rows);
    forall id | id in out ensures id in Good(rows, bad) {
      var j :| 0 <= j < |batch| && batch[j].id == id;
      assert Pending(rows)[j] == batch[j];
    }
    if batch == Pending(rows) {
      forall id | id in Good(rows, bad) ensures id in out {
        var r :| r in batch && r.id == id;
      }
    } else {
      PendingDistinct(rows);
      TakeDistinct(Pending(rows), BATCH);
      DistinctIdCount(batch);
      forall id | id in ids && id !in bad ensures id in out { var r :| r in batch && r.id == id; }
      assert ids <= out + bad;
      SizeOfUnion(ids, out, bad);
    }
  }

  lemma SizeOfUnion(a: set<RowId>, b: set<RowId>, c: set<RowId>)
    requires a <= b + c
    ensures |a| <= |b| + |c|
  {
    assert b + c == b + (c - b) && a + (b + c - a) == b + c;
    assert |c - b| <= |c| by { assert c == (c - b) + (c * b); }
  }

  /** One cycle leaves no more than the good rows less 50, plus the bad ones. */
  lemma PollShrinks(rows: seq<Row>, now: nat, plan: Call -> Outcome, bad: set<RowId>)
    requires DistinctIds(rows) && |bad| < BATCH && FailsBad(plan, FirstPending(rows, BATCH), bad)
    ensures var (rows', sent) := Poll(rows, now, plan);
      && Good(rows', bad) <= Good(rows, bad)
      && (forall id | id in Good(rows, bad) && id !in Good(rows', bad) :: id in sent)
      && (Good(rows', bad) == {} || |Good(rows', bad)| + BATCH - |bad| <= |Good(rows, bad)|)
  {
    var (rows', sent) := Poll(rows, now, plan);
    var out := set id | id in Good(rows, bad) && GoesOut(FirstPending(rows, BATCH), 0, bad, id);
    forall id: RowId
      ensures id in Good(rows', bad) <==> id in Good(rows, bad) && id !in out
      ensures id in out ==> id in sent
      ensures id in out <==> GoesOut(FirstPending(rows, BATCH), 0, bad, id)
    {
      PollPasses(rows, now, plan, bad, id);
      GoodHas(rows, bad, id);
      GoodHas(rows', bad, id);
      if GoesOut(FirstPending(rows, BATCH), 0, bad, id) { BatchIsPending(rows, id); }
    }
    BatchIsBig(rows, bad, out);
    assert Good(rows, bad) == Good(rows', bad) + out;
  }

  lemma BatchIsPending(rows: seq<Row>, id: RowId)
    requires exists j :: 0 <= j < |FirstPending(rows, BATCH)| && FirstPending(rows, BATCH)[j].id == id
    ensures HasId(Pending(rows), id)
  {
    var j :| 0 <= j < |FirstPending(rows, BATCH)| && FirstPending(rows, BATCH)[j].id == id;
    assert Pending(rows)[j] == FirstPending(rows, BATCH)[j];
    HasAll(Pending(rows), id);
  }

  lemma {:induction false} FinishKeepsRows(rows: seq<Row>, sent: seq<RowId>, ph: Phase, now: nat, plan: Call -> Outcome,
                                           arrived: nat)
    requires OutboxRuns.RowsOk(rows, arrived)
    ensures OutboxRuns.RowsOk(Finish(rows, sent, ph, now, plan).0, arrived)
    decreases ph.Reading?, Rank(ph)
  {
    if !ph.Ended? {
      var e := MakeCall(rows, ph, now, plan(CallOf(ph)));
      CallKeepsRows(rows, ph, now, plan(CallOf(ph)), arrived);
      FinishKeepsRows(e.rows, sent + e.sent, e.next, now, plan, arrived);
    }
  }

  /** Cycles one after another, each with its own plan and no other traffic: the table, and all sent. */
  function PollsWith(rows: seq<Row>, plans: seq<Call -> Outcome>, now: nat): (seq<Row>, seq<RowId>)
    decreases |plans|
  {
    if plans == [] then (rows, [])
    else
      var (rows1, sent) := Poll(rows, now, plans[0]);
      var (rows', more) := PollsWith(rows1, plans[1..], now);
      (rows', sent + more)
  }

  ghost predicate AllFailBad(rows: seq<Row>, plans: seq<Call -> Outcome>, now: nat, bad: set<RowId>)
    decreases |plans|
  {
    plans == [] ||
    (&& FailsBad(plans[0], FirstPending(rows, BATCH), bad)
     && AllFailBad(Poll(rows, now, plans[0]).0, plans[1..], now, bad))
  }

  lemma {:induction false} AllGoOut(rows: seq<Row>, plans: seq<Call -> Outcome>, now: nat, bad: set<RowId>,
                                    arrived: nat)
    requires OutboxRuns.RowsOk(rows, arrived) && |bad| < BATCH && AllFailBad(rows, plans, now, bad)
    requires |plans| * (BATCH - |bad|) >= |Good(rows, bad)|
    ensures var (rows', sent) := PollsWith(rows, plans, now);
      Good(rows', bad) == {} && forall id | id in Good(rows, bad) :: id in sent
    decreases |plans|
  {
    if plans != [] {
      var (rows1, sent) := Poll(rows, now, plans[0]);
      PollShrinks(rows, now, plans[0], bad);
      FinishKeepsRows(rows, [], Reading, now, plans[0], arrived);
      OneLess(|plans|, BATCH - |bad|);
      AllGoOut(rows1, plans[1..], now, bad, arrived);
    }
  }

  lemma OneLess(n: nat, d: nat)
    requires n > 0
    ensures (n - 1) * d == n * d - d && (n - 1) * d >= 0
  {
  }

  /** From any reachable table: if fewer than 50 rows cannot be published, all other pending rows have
      gone out after ceil(n / (50 - f)) cycles, where f rows cannot be and n can. */
  lemma FewerOnlySlowItDown(before: seq<Step>, plans: seq<Call -> Outcome>, bad: set<RowId>)
    requires var w := Run(START, before);
      && |bad| < 50 && AllFailBad(w.rows, plans, w.now, bad)
      && |plans| * (50 - |bad|) >= |Good(w.rows, bad)|
    ensures var w := Run(START, before);
      var (rows', sent) := PollsWith(w.rows, plans, w.now);
      Good(rows', bad) == {} && forall id | id in Good(w.rows, bad) :: id in sent
  {
    TableStaysInOrder(before);
    AllGoOut(Run(START, before).rows, plans, Run(START, before).now, bad, Run(START, before).arrived);
  }
}
