/** The outbox table and the poller that publishes it. One poll cycle is given one database or bus
    call at a time. */
module Outbox {
  import opened Options

  type RowId = nat

  /** `created` and `published` are clock readings in milliseconds. */
  datatype Row = Row(id: RowId, created: nat, published: Option<nat>, attempts: nat)

  const BATCH := 50
  const KEEP_MS := 24 * 60 * 60 * 1000

  predicate IsPending(r: Row) { r.published.None? }

  // ---------------------------------------------------------------- the table, kept in created_at order

  predicate Sorted(rows: seq<Row>) {
    rows == [] || (Sorted(rows[1..]) && forall k | 0 < k < |rows| :: rows[0].created <= rows[k].created)
  }

  predicate DistinctIds(rows: seq<Row>) {
    rows == [] || (DistinctIds(rows[1..]) && !HasId(rows[1..], rows[0].id))
  }

  predicate HasId(rows: seq<Row>, id: RowId) { rows != [] && (rows[0].id == id || HasId(rows[1..], id)) }

  /** A new row goes after the rows created no later. */
  function Insert(rows: seq<Row>, r: Row): seq<Row> {
    if rows == [] || r.created < rows[0].created then [r] + rows else [rows[0]] + Insert(rows[1..], r)
  }

  function Pending(rows: seq<Row>): seq<Row> {
    if rows == [] then []
    else if IsPending(rows[0]) then [rows[0]] + Pending(rows[1..])
    else Pending(rows[1..])
  }

  /** `published_at IS NULL ORDER BY created_at ASC LIMIT n`. */
  function FirstPending(rows: seq<Row>, limit: nat): seq<Row> {
    if |Pending(rows)| <= limit then Pending(rows) else Pending(rows)[..limit]
  }

  function MarkPublished(rows: seq<Row>, id: RowId, now: nat): seq<Row> {
    if rows == [] then []
    else [if rows[0].id == id then rows[0].(published := Some(now)) else rows[0]] + MarkPublished(rows[1..], id, now)
  }

  function RecordFailure(rows: seq<Row>, id: RowId): seq<Row> {
    if rows == [] then []
    else
      [if rows[0].id == id then rows[0].(attempts := rows[0].attempts + 1) else rows[0]] + RecordFailure(rows[1..], id)
  }

  predicate Expired(r: Row, now: nat) { r.published.Some? && r.published.value + KEEP_MS < now }

  function DeletePublished(rows: seq<Row>, now: nat): seq<Row> {
    if rows == [] then []
    else if Expired(rows[0], now) then DeletePublished(rows[1..], now)
    else [rows[0]] + DeletePublished(rows[1..], now)
  }

  function Ids(rows: seq<Row>): seq<RowId> {
    if rows == [] then [] else [rows[0].id] + Ids(rows[1..])
  }

  // ---------------------------------------------------------------- what one statement does to the pending rows

  lemma {:induction false} PendingIn(rows: seq<Row>)
    ensures forall r :: r in Pending(rows) <==> r in rows && IsPending(r)
    ensures Sorted(rows) ==> Sorted(Pending(rows))
  {
    if rows != [] {
      PendingIn(rows[1..]);
      assert rows == [rows[0]] + rows[1..];
      if Sorted(rows) && IsPending(rows[0]) {
        var p := Pending(rows);
        assert p[1..] == Pending(rows[1..]);
        forall k | 0 < k < |p| ensures p[0].created <= p[k].created {
          assert p[k] == p[1..][k - 1] && p[1..][k - 1] in rows[1..];
          var j :| 0 <= j < |rows[1..]| && rows[1..][j] == p[k];
          assert rows[j + 1] == p[k];
        }
      }
    }
  }

  lemma {:induction false} SortedAt(rows: seq<Row>, i: nat, j: nat)
    requires Sorted(rows) && i <= j < |rows|
    ensures rows[i].created <= rows[j].created
  {
    if 0 < i { SortedAt(rows[1..], i - 1, j - 1); }
  }

  /** The query takes the oldest pending rows, in order, and as many as it may. */
  lemma FirstPendingIsTheQuery(rows: seq<Row>, limit: nat)
    requires Sorted(rows)
    ensures var r := FirstPending(rows, limit);
      && |r| == (if |Pending(rows)| < limit then |Pending(rows)| else limit)
      && (forall i, j | 0 <= i < j < |r| :: r[i].created <= r[j].created)
      && (forall k | 0 <= k < |r| :: r[k] in rows && IsPending(r[k]))
      && (forall other | other in rows && IsPending(other) ::
            other in r || forall k | 0 <= k < |r| :: r[k].created <= other.created)
  {
    var p, r := Pending(rows), FirstPending(rows, limit);
    PendingIn(rows);
    forall i, j | 0 <= i < j < |r| ensures r[i].created <= r[j].created { SortedAt(p, i, j); }
    forall k | 0 <= k < |r| ensures r[k] in rows && IsPending(r[k]) { assert r[k] == p[k] && p[k] in p; }
    forall other | other in rows && IsPending(other)
      ensures other in r || forall k | 0 <= k < |r| :: r[k].created <= other.created
    {
      var i :| 0 <= i < |p| && p[i] == other;
      if i < |r| {
        assert r[i] == other;
      } else {
        forall k | 0 <= k < |r| ensures r[k].created <= other.created { SortedAt(p, k, i); }
      }
    }
  }

  lemma {:induction false} PendingHasId(rows: seq<Row>, id: RowId)
    requires !HasId(rows, id)
    ensures !HasId(Pending(rows), id)
  {
    if rows != [] {
      PendingHasId(rows[1..], id);
      if IsPending(rows[0]) { assert Pending(rows)[1..] == Pending(rows[1..]); }
    }
  }

  lemma {:induction false} MarkMissing(rows: seq<Row>, id: RowId, now: nat)
    requires !HasId(rows, id)
    ensures MarkPublished(rows, id, now) == rows
  {
    if rows != [] { MarkMissing(rows[1..], id, now); }
  }

  /** Marking the oldest pending row takes exactly it out of the pending rows. */
  lemma {:induction false} MarkHead(rows: seq<Row>, id: RowId, now: nat)
    requires DistinctIds(rows) && Pending(rows) != [] && Pending(rows)[0].id == id
    ensures Pending(MarkPublished(rows, id, now)) == Pending(rows)[1..]
    ensures DistinctIds(MarkPublished(rows, id, now))
  {
    MarkKeepsIds(rows, id, now);
    if IsPending(rows[0]) {
      MarkMissing(rows[1..], id, now);
      assert MarkPublished(rows, id, now)[1..] == rows[1..];
    } else {
      MarkHead(rows[1..], id, now);
      assert MarkPublished(rows, id, now)[1..] == MarkPublished(rows[1..], id, now);
    }
  }

  lemma {:induction false} MarkKeepsIds(rows: seq<Row>, id: RowId, now: nat)
    ensures Ids(MarkPublished(rows, id, now)) == Ids(rows)
    ensures DistinctIds(rows) ==> DistinctIds(MarkPublished(rows, id, now))
  {
    if rows != [] {
      MarkKeepsIds(rows[1..], id, now);
      assert MarkPublished(rows, id, now)[1..] == MarkPublished(rows[1..], id, now);
      HasSameIds(rows[1..], MarkPublished(rows[1..], id, now), rows[0].id);
    }
  }

  lemma {:induction false} HasSameIds(a: seq<Row>, b: seq<Row>, id: RowId)
    requires Ids(a) == Ids(b)
    ensures HasId(a, id) <==> HasId(b, id)
  {
    IdsOf(a, id);
    IdsOf(b, id);
  }

  lemma {:induction false} IdsOf(rows: seq<Row>, id: RowId)
    ensures |Ids(rows)| == |rows|
    ensures forall k | 0 <= k < |rows| :: Ids(rows)[k] == rows[k].id
    ensures HasId(rows, id) <==> id in Ids(rows)
  {
    if rows != [] { IdsOf(rows[1..], id); }
  }

  /** Both updates change the one row with the id, and nothing else about the table. */
  lemma {:induction false} UpdatesOneRow(rows: seq<Row>, id: RowId, now: nat, k: nat)
    requires DistinctIds(rows) && k < |rows|
    ensures |MarkPublished(rows, id, now)| == |rows| == |RecordFailure(rows, id)|
    ensures MarkPublished(rows, id, now)[k] == if rows[k].id == id then rows[k].(published := Some(now)) else rows[k]
    ensures RecordFailure(rows, id)[k]
         == if rows[k].id == id then rows[k].(attempts := rows[k].attempts + 1) else rows[k]
    ensures forall j | 0 <= j < |rows| && rows[j].id == id && rows[k].id == id :: j == k
  {
    IdsOf(rows[1..], rows[0].id);
    if k > 0 {
      UpdatesOneRow(rows[1..], id, now, k - 1);
      assert forall j | 1 <= j < |rows| :: rows[j] == rows[1..][j - 1];
    } else {
      LengthsKept(rows[1..], id, now);
      assert forall j | 1 <= j < |rows| :: rows[j] == rows[1..][j - 1];
    }
  }

  lemma {:induction false} LengthsKept(rows: seq<Row>, id: RowId, now: nat)
    ensures |MarkPublished(rows, id, now)| == |rows| == |RecordFailure(rows, id)|
  {
    if rows != [] { LengthsKept(rows[1..], id, now); }
  }

  /** The clean-up never touches a pending row. */
  lemma {:induction false} DeleteKeepsPending(rows: seq<Row>, now: nat)
    ensures Pending(DeletePublished(rows, now)) == Pending(rows)
    ensures DistinctIds(rows) ==> DistinctIds(DeletePublished(rows, now))
    ensures forall id :: HasId(DeletePublished(rows, now), id) ==> HasId(rows, id)
  {
    if rows != [] {
      DeleteKeepsPending(rows[1..], now);
      if !Expired(rows[0], now) {
        assert DeletePublished(rows, now)[1..] == DeletePublished(rows[1..], now);
      }
    }
  }

  /** It deletes exactly the rows whose publication is more than 24 hours, 86400000 ms, back. */
  lemma {:induction false} DeleteMeans(rows: seq<Row>, now: nat)
    ensures forall r :: r in DeletePublished(rows, now) <==>
      r in rows && !(r.published.Some? && r.published.value + 86400000 < now)
    ensures Sorted(rows) ==> Sorted(DeletePublished(rows, now))
  {
    if rows != [] {
      DeleteMeans(rows[1..], now);
      var rows' := DeletePublished(rows, now);
      assert rows == [rows[0]] + rows[1..];
      if !Expired(rows[0], now) {
        assert rows'[1..] == DeletePublished(rows[1..], now);
        if Sorted(rows) {
          forall k | 0 < k < |rows'| ensures rows'[0].created <= rows'[k].created {
            assert rows'[1..][k - 1] in rows[1..];
            var j :| 0 <= j < |rows[1..]| && rows[1..][j] == rows'[k];
            assert rows[j + 1] == rows'[k];
          }
        }
      }
    }
  }

  // ---------------------------------------------------------------- one poll cycle, call by call

  datatype Phase =
    | Reading
    | Publishing(batch: seq<Row>, i: nat)
    | Marking(batch: seq<Row>, i: nat)
    | Recording(batch: seq<Row>, i: nat)
    | Cleaning
    | Ended

  /** The call a phase makes, as the outside world sees it. */
  datatype Call = Read | Publish(i: nat) | Mark(i: nat) | Record(i: nat) | Clean | Nothing

  function CallOf(ph: Phase): Call {
    match ph
    case Reading => Read
    case Publishing(_, i) => Publish(i)
    case Marking(_, i) => Mark(i)
    case Recording(_, i) => Record(i)
    case Cleaning => Clean
    case Ended => Nothing
  }

  /** A call's effect: the table, what went out on the bus, and the next phase. */
  datatype Effect = Effect(rows: seq<Row>, sent: seq<RowId>, next: Phase)

  /** On to message `i`, or to the clean-up. */
  function From(batch: seq<Row>, i: nat): Phase { if i < |batch| then Publishing(batch, i) else Cleaning }

  function MakeCall(rows: seq<Row>, ph: Phase, now: nat, outcome: Outcome): Effect {
    match ph
    case Reading =>
      if outcome != Done || FirstPending(rows, BATCH) == [] then Effect(rows, [], Ended)
      else Effect(rows, [], Publishing(FirstPending(rows, BATCH), 0))
    case Publishing(batch, i) =>
      if i >= |batch| then Effect(rows, [], Cleaning)
      else Effect(rows, if outcome == Failed then [] else [batch[i].id],
                  if outcome == Done then Marking(batch, i) else Recording(batch, i))
    case Marking(batch, i) =>
      if i >= |batch| then Effect(rows, [], Cleaning)
      else Effect(if outcome == Failed then rows else MarkPublished(rows, batch[i].id, now), [],
                  if outcome == Done then From(batch, i + 1) else Recording(batch, i))
    case Recording(batch, i) =>
      if i >= |batch| then Effect(rows, [], Cleaning)
      else Effect(if outcome == Failed then rows else RecordFailure(rows, batch[i].id), [],
                  if outcome == Done then From(batch, i + 1) else Ended)
    case Cleaning => Effect(if outcome == Failed then rows else DeletePublished(rows, now), [], Ended)
    case Ended => Effect(rows, [], Ended)
  }

  /** Calls left, at most; a cycle that has not read yet comes before all others. */
  function Rank(ph: Phase): nat {
    match ph
    case Reading => 0
    case Publishing(batch, i) => if i < |batch| then 3 * (|batch| - i) + 4 else 3
    case Marking(batch, i) => if i < |batch| then 3 * (|batch| - i) + 3 else 3
    case Recording(batch, i) => if i < |batch| then 3 * (|batch| - i) + 2 else 3
    case Cleaning => 1
    case Ended => 0
  }

  /** The rest of a cycle that has sent `sent`, nothing in between: the table it leaves, and all it
      has sent. */
  function Finish(rows: seq<Row>, sent: seq<RowId>, ph: Phase, now: nat, plan: Call -> Outcome): (seq<Row>, seq<RowId>)
    decreases ph.Reading?, Rank(ph)
  {
    if ph.Ended? then (rows, sent)
    else
      var e := MakeCall(rows, ph, now, plan(CallOf(ph)));
      Finish(e.rows, sent + e.sent, e.next, now, plan)
  }

  function Poll(rows: seq<Row>, now: nat, plan: Call -> Outcome): (seq<Row>, seq<RowId>) {
    Finish(rows, [], Reading, now, plan)
  }

  lemma FinishCall(rows: seq<Row>, sent: seq<RowId>, ph: Phase, now: nat, plan: Call -> Outcome)
    requires !ph.Ended?
    ensures var e := MakeCall(rows, ph, now, plan(CallOf(ph)));
      var sent' := if e.sent == [] then sent else sent + e.sent;
      Finish(rows, sent, ph, now, plan)
        == if e.next.Ended? then (e.rows, sent') else Finish(e.rows, sent', e.next, now, plan)
  {
    assert sent + [] == sent;
  }

  /** What the calls for message `i` come to: the table, what has been sent, and whether the cycle ends. */
  lemma MessageCalls(rows: seq<Row>, sent: seq<RowId>, batch: seq<Row>, i: nat, now: nat, plan: Call -> Outcome)
    requires i < |batch|
    ensures var sent1 := if plan(Publish(i)) != Failed then sent + [batch[i].id] else sent;
      var rows1 := if plan(Publish(i)) == Done && plan(Mark(i)) != Failed
                   then MarkPublished(rows, batch[i].id, now) else rows;
      var rows2 := if plan(Record(i)) != Failed then RecordFailure(rows1, batch[i].id) else rows1;
      Finish(rows, sent, From(batch, i), now, plan)
        == if plan(Publish(i)) == Done && plan(Mark(i)) == Done then Finish(rows1, sent1, From(batch, i + 1), now, plan)
           else if plan(Record(i)) == Done then Finish(rows2, sent1, From(batch, i + 1), now, plan)
           else (rows2, sent1)
  {
    var sent1 := if plan(Publish(i)) != Failed then sent + [batch[i].id] else sent;
    var rows1 := if plan(Publish(i)) == Done && plan(Mark(i)) != Failed
                 then MarkPublished(rows, batch[i].id, now) else rows;
    FinishCall(rows, sent, Publishing(batch, i), now, plan);
    FinishCall(rows, sent1, Marking(batch, i), now, plan);
    FinishCall(rows1, sent1, Recording(batch, i), now, plan);
  }

  // ---------------------------------------------------------------- fault-free polling drains the table

  /** Message `i` of a fault-free cycle is sent and marked. */
  lemma MessagePasses(rows: seq<Row>, sent: seq<RowId>, batch: seq<Row>, i: nat, now: nat, plan: Call -> Outcome)
    requires i < |batch| && plan(Publish(i)) == Done && plan(Mark(i)) == Done
    ensures Finish(rows, sent, From(batch, i), now, plan)
         == Finish(MarkPublished(rows, batch[i].id, now), sent + [batch[i].id], From(batch, i + 1), now, plan)
  {
    FinishCall(rows, sent, Publishing(batch, i), now, plan);
    FinishCall(rows, sent + [batch[i].id], Marking(batch, i), now, plan);
  }

  lemma CleaningPasses(rows: seq<Row>, sent: seq<RowId>, now: nat, plan: Call -> Outcome)
    requires DistinctIds(rows) && plan(Clean) == Done
    ensures var (rows', sent') := Finish(rows, sent, Cleaning, now, plan);
      sent' == sent && Pending(rows') == Pending(rows) && DistinctIds(rows')
  {
    DeleteKeepsPending(rows, now);
    FinishCall(rows, sent, Cleaning, now, plan);
  }

  /** What marking the first of a batch leaves: the rest of it is the first of what is pending. */
  lemma RestOfBatch(rows: seq<Row>, batch: seq<Row>, i: nat, now: nat)
    requires DistinctIds(rows) && i < |batch| && batch[i..] <= Pending(rows)
    ensures var rows1 := MarkPublished(rows, batch[i].id, now);
      && DistinctIds(rows1) && batch[i + 1..] <= Pending(rows1)
      && Pending(rows1)[|batch| - i - 1..] == Pending(rows)[|batch| - i..]
    ensures Ids(batch[i..]) == [batch[i].id] + Ids(batch[i + 1..])
  {
    assert batch[i..][0] == batch[i] && Pending(rows)[0] == batch[i];
    MarkHead(rows, batch[i].id, now);
    assert batch[i..][1..] == batch[i + 1..];
  }

  lemma {:induction false} FinishBatch(rows: seq<Row>, sent: seq<RowId>, batch: seq<Row>, i: nat, now: nat,
                                       plan: Call -> Outcome)
    requires DistinctIds(rows) && i <= |batch| && forall c :: plan(c) == Done
    requires batch[i..] <= Pending(rows)
    ensures var (rows', sent') := Finish(rows, sent, From(batch, i), now, plan);
      && sent' == sent + Ids(batch[i..]) && Pending(rows') == Pending(rows)[|batch| - i..] && DistinctIds(rows')
    decreases |batch| - i
  {
    if i == |batch| {
      CleaningPasses(rows, sent, now, plan);
    } else {
      MessagePasses(rows, sent, batch, i, now, plan);
      RestOfBatch(rows, batch, i, now);
      FinishBatch(MarkPublished(rows, batch[i].id, now), sent + [batch[i].id], batch, i + 1, now, plan);
    }
  }

  /** A fault-free cycle publishes the oldest 50 pending rows (or all, if fewer) in order, and
      exactly those stop being pending. */
  lemma PollTakesTheOldest(rows: seq<Row>, now: nat, plan: Call -> Outcome)
    requires DistinctIds(rows) && forall c :: plan(c) == Done
    ensures var n := if |Pending(rows)| < 50 then |Pending(rows)| else 50;
      var (rows', sent) := Poll(rows, now, plan);
      sent == Ids(Pending(rows)[..n]) && Pending(rows') == Pending(rows)[n..] && DistinctIds(rows')
  {
    var batch := FirstPending(rows, BATCH);
    if batch != [] {
      assert batch[0..] == batch;
      FinishBatch(rows, [], batch, 0, now, plan);
      assert Pending(rows)[..|batch|] == batch;
    }
    FinishCall(rows, [], Reading, now, plan);
  }

  /** How a cycle begins and ends: if it finds nothing pending, or cannot tell, it does nothing, and so
      does not clean up either; after its last message it cleans up, unless that fails. */
  lemma CycleCalls(rows: seq<Row>, sent: seq<RowId>, batch: seq<Row>, now: nat, plan: Call -> Outcome)
    ensures Poll(rows, now, plan)
         == if plan(Read) != Done || Pending(rows) == [] then (rows, [])
            else Finish(rows, [], From(FirstPending(rows, 50), 0), now, plan)
    ensures Finish(rows, sent, From(batch, |batch|), now, plan)
         == (if plan(Clean) == Failed then rows else DeletePublished(rows, now), sent)
  {
    FinishCall(rows, [], Reading, now, plan);
    FinishCall(rows, sent, Cleaning, now, plan);
  }

  lemma {:induction false} FinishCleans(rows: seq<Row>, sent: seq<RowId>, batch: seq<Row>, i: nat, now: nat,
                                        plan: Call -> Outcome)
    requires i <= |batch| && plan(Clean) == Done && forall j :: plan(Record(j)) == Done
    ensures forall r | r in Finish(rows, sent, From(batch, i), now, plan).0 && r.published.Some? ::
      r.published.value + 86400000 >= now
    decreases |batch| - i
  {
    if i == |batch| {
      DeleteMeans(rows, now);
      CycleCalls(rows, sent, batch, now, plan);
    } else {
      var sent1 := if plan(Publish(i)) != Failed then sent + [batch[i].id] else sent;
      var rows1 := if plan(Publish(i)) == Done && plan(Mark(i)) != Failed
                   then MarkPublished(rows, batch[i].id, now) else rows;
      MessageCalls(rows, sent, batch, i, now, plan);
      FinishCleans(rows1, sent1, batch, i + 1, now, plan);
      FinishCleans(RecordFailure(rows1, batch[i].id), sent1, batch, i + 1, now, plan);
    }
  }

  /** One that finds something leaves no row published more than 24 hours ago, whatever became of its
      messages, as long as failures could be recorded and the clean-up itself went through. */
  lemma PollCleans(rows: seq<Row>, now: nat, plan: Call -> Outcome)
    requires Pending(rows) != [] && plan(Read) == plan(Clean) == Done && forall j :: plan(Record(j)) == Done
    ensures forall r | r in Poll(rows, now, plan).0 && r.published.Some? :: r.published.value + 86400000 >= now
  {
    CycleCalls(rows, [], [], now, plan);
    FinishCleans(rows, [], FirstPending(rows, BATCH), 0, now, plan);
  }

  /** `k` cycles one after another, with no other traffic. */
  function Polls(rows: seq<Row>, k: nat, now: nat, plan: Call -> Outcome): (seq<Row>, seq<RowId>)
    decreases k
  {
    if k == 0 then (rows, [])
    else
      var (rows1, sent) := Poll(rows, now, plan);
      var (rows', more) := Polls(rows1, k - 1, now, plan);
      (rows', sent + more)
  }

  function Min(a: nat, b: nat): nat { if a < b then a else b }

  lemma {:induction false} PollsTake(rows: seq<Row>, k: nat, now: nat, plan: Call -> Outcome)
    requires DistinctIds(rows) && forall c :: plan(c) == Done
    ensures var n := Min(BATCH * k, |Pending(rows)|);
      var (rows', sent) := Polls(rows, k, now, plan);
      sent == Ids(Pending(rows)[..n]) && Pending(rows') == Pending(rows)[n..]
    decreases k
  {
    if k == 0 {
      assert Pending(rows)[..0] == [] && Pending(rows)[0..] == Pending(rows);
    } else {
      var p, m := Pending(rows), Min(BATCH, |Pending(rows)|);
      var l := Min(BATCH * (k - 1), |p| - m);
      var (rows1, sent) := Poll(rows, now, plan);
      PollTakesTheOldest(rows, now, plan);
      assert sent == Ids(p[..m]) && Pending(rows1) == p[m..] && DistinctIds(rows1);
      PollsTake(rows1, k - 1, now, plan);
      var (rows2, more) := Polls(rows1, k - 1, now, plan);
      assert more == Ids(p[m..][..l]) && Pending(rows2) == p[m..][l..];
      assert Polls(rows, k, now, plan) == (rows2, sent + more);
      OneMorePoll(p, k);
    }
  }

  /** The oldest 50, and then what 50 times one cycle less takes of the others. */
  lemma OneMorePoll(p: seq<Row>, k: nat)
    requires k > 0
    ensures var m, n := Min(BATCH, |p|), Min(BATCH * k, |p|);
      var l := Min(BATCH * (k - 1), |p| - m);
      m + l == n && Ids(p[..m]) + Ids(p[m..][..l]) == Ids(p[..n]) && p[m..][l..] == p[n..]
  {
    var m := Min(BATCH, |p|);
    TakeTwice(p, m, Min(BATCH * (k - 1), |p| - m));
  }

  lemma TakeTwice(p: seq<Row>, m: nat, n: nat)
    requires m + n <= |p|
    ensures Ids(p[..m]) + Ids(p[m..][..n]) == Ids(p[..m + n]) && p[m..][n..] == p[m + n..]
  {
    assert p[..m] + p[m..][..n] == p[..m + n];
    IdsConcat(p[..m], p[m..][..n]);
  }

  lemma {:induction false} IdsConcat(a: seq<Row>, b: seq<Row>)
    ensures Ids(a + b) == Ids(a) + Ids(b)
  {
    if a == [] {
      assert a + b == b;
    } else {
      assert (a + b)[1..] == a[1..] + b;
      IdsConcat(a[1..], b);
    }
  }

  /** With no failures and no new rows, all n pending rows are published, each exactly once and in
      created_at order, within ceil(n / 50) cycles. */
  lemma OutboxDrains(rows: seq<Row>, k: nat, now: nat, plan: Call -> Outcome)
    requires DistinctIds(rows) && Sorted(rows) && forall c :: plan(c) == Done
    requires 50 * k >= |Pending(rows)|
    ensures var (rows', sent) := Polls(rows, k, now, plan);
      Pending(rows') == [] && sent == Ids(Pending(rows)) && Sorted(Pending(rows)) && NoRepeat(sent)
  {
    PollsTake(rows, k, now, plan);
    PendingIn(rows);
    PendingDistinct(rows);
    assert Pending(rows)[..|Pending(rows)|] == Pending(rows);
    IdsDistinct(Pending(rows));
  }

  ghost predicate NoRepeat(ids: seq<RowId>) { forall i, j | 0 <= i < j < |ids| :: ids[i] != ids[j] }

  lemma {:induction false} PendingDistinct(rows: seq<Row>)
    requires DistinctIds(rows)
    ensures DistinctIds(Pending(rows))
  {
    if rows != [] {
      PendingDistinct(rows[1..]);
      if IsPending(rows[0]) {
        PendingHasId(rows[1..], rows[0].id);
        assert Pending(rows)[1..] == Pending(rows[1..]);
      }
    }
  }

  lemma {:induction false} IdsDistinct(rows: seq<Row>)
    requires DistinctIds(rows)
    ensures NoRepeat(Ids(rows))
  {
    if rows != [] {
      IdsDistinct(rows[1..]);
      IdsOf(rows[1..], rows[0].id);
    }
  }

  // ---------------------------------------------------------------- the poller

  class OutboxPoller {
    var rows: seq<Row>
    var isRunning: bool
    var isPollRunning: bool

    constructor ()
      ensures rows == [] && !isRunning && !isPollRunning
    {
      rows, isRunning, isPollRunning := [], false, false;
    }

    /** The first poll of a poller that was not running yet. */
    method Start(now: nat, plan: Call -> Outcome) returns (sent: seq<RowId>)
      modifies this
      ensures isRunning && isPollRunning == old(isPollRunning)
      ensures (rows, sent)
           == if old(isRunning) || old(isPollRunning) then (old(rows), []) else Poll(old(rows), now, plan)
    {
      sent := [];
      if isRunning {
        return;
      }
      isRunning := true;
      sent := PollOnce(now, plan);
    }

    method Stop()
      modifies this`isRunning
      ensures !isRunning
    {
      isRunning := false;
    }

    /** One call of `poll`; its calls end as `plan` says. */
    method PollOnce(now: nat, plan: Call -> Outcome) returns (sent: seq<RowId>)
      modifies this`rows, this`isPollRunning
      ensures isPollRunning == old(isPollRunning)
      ensures (rows, sent) == if old(isPollRunning) then (old(rows), []) else Poll(old(rows), now, plan)
    {
      sent := [];
      if isPollRunning {
        return;
      }
      isPollRunning := true;
      sent := Cycle(now, plan);
      isPollRunning := false;
    }

    method Cycle(now: nat, plan: Call -> Outcome) returns (sent: seq<RowId>)
      modifies this`rows
      ensures (rows, sent) == Poll(old(rows), now, plan)
    {
      sent := [];
      FinishCall(rows, [], Reading, now, plan);
      var messages := FirstPending(rows, BATCH);
      if plan(Read) != Done || |messages| == 0 {
        return;
      }
      for i := 0 to |messages|
        invariant Poll(old(rows), now, plan) == Finish(rows, sent, From(messages, i), now, plan)
      {
        MessageCalls(rows, sent, messages, i, now, plan);
        if plan(Publish(i)) != Failed {
          sent := sent + [messages[i].id];
        }
        var failed := plan(Publish(i)) != Done;
        if !failed {
          if plan(Mark(i)) != Failed {
            rows := MarkPublished(rows, messages[i].id, now);
          }
          failed := plan(Mark(i)) != Done;
        }
        if failed {
          if plan(Record(i)) != Failed {
            rows := RecordFailure(rows, messages[i].id);
          }
          if plan(Record(i)) != Done {
            return;
          }
        }
      }
      FinishCall(rows, sent, Cleaning, now, plan);
      if plan(Clean) != Failed {
        rows := DeletePublished(rows, now);
      }
    }
  }
}
