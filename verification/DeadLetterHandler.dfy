/** The wrapper and the retries as they are written, one call at a time, and the batch of retries. */
module DeadLetterHandler {
  import opened Options
  import opened DeadLetters

  // ---------------------------------------------------------------- one call at a time

  /** `moveToDLQ`: its errors go no further. */
  function Moved(c: Config, table: seq<Row>, e: EventId, read: Outcome, write: Outcome): seq<Row> {
    if read != Done || write == Outcome.Failed then table else Bury(c, table, e, Exists(table, e))
  }

  /** One whole delivery through the wrapper: counters, table, and whether it rethrew. */
  function Wrapped(c: Config, attempts: map<EventId, nat>, table: seq<Row>, e: EventId, ok: bool, read: Outcome,
                   write: Outcome): (map<EventId, nat>, seq<Row>, bool)
  {
    if ok then (attempts - {e}, table, false)
    else if Get(attempts, e) + 1 >= c.maxRetries then (attempts - {e}, Moved(c, table, e, read, write), false)
    else (attempts[e := Get(attempts, e) + 1], table, true)
  }

  /** It is what the machine does when the delivery is not interrupted. */
  lemma WrapIsARun(c: Config, w: World, e: EventId, ok: bool, read: Outcome, write: Outcome)
    requires e !in w.flights
    ensures var w' := Run(c, w, [Begin(e), HandlerEnds(e, ok), Check(e, read), Write(e, write)]);
      var (attempts, table, threw) := Wrapped(c, w.attempts, w.table, e, ok, read, write);
      && w'.attempts == attempts && w'.table == table && w'.flights == w.flights && w'.retries == w.retries
      && w'.log != [] && w'.log[|w'.log| - 1] == Delivered(e, ok, threw)
  {
    RunFour(c, w, Begin(e), HandlerEnds(e, ok), Check(e, read), Write(e, write));
    assert Next(c, w, Begin(e)) == w.(flights := w.flights[e := Handling(Get(w.attempts, e))]);
    if !ok && Get(w.attempts, e) + 1 >= c.maxRetries {
      GivesUp(c, w, e, read, write);
    } else {
      EndsAtOnce(c, w, e, ok, read, write);
    }
  }

  /** The last failure of a period: the event is moved to the table. */
  lemma GivesUp(c: Config, w: World, e: EventId, read: Outcome, write: Outcome)
    requires e !in w.flights && Get(w.attempts, e) + 1 >= c.maxRetries
    ensures var w1 := w.(flights := w.flights[e := Handling(Get(w.attempts, e))]);
      var w' := Next(c, Next(c, Next(c, w1, HandlerEnds(e, false)), Check(e, read)), Write(e, write));
      && w'.attempts == w.attempts - {e} && w'.table == Moved(c, w.table, e, read, write)
      && w'.flights == w.flights && w'.retries == w.retries
      && w'.log != [] && w'.log[|w'.log| - 1] == Delivered(e, false, false)
  {
    var w1 := w.(flights := w.flights[e := Handling(Get(w.attempts, e))]);
    var w2 := w.(flights := w.flights[e := Checking]);
    assert Next(c, w1, HandlerEnds(e, false)) == w2;
    MoveIsARun(c, w2, e, read, write);
    assert w2.flights - {e} == w.flights;
  }

  /** A success, or a failure that is rethrown: the table is not asked. */
  lemma EndsAtOnce(c: Config, w: World, e: EventId, ok: bool, read: Outcome, write: Outcome)
    requires e !in w.flights && (ok || Get(w.attempts, e) + 1 < c.maxRetries)
    ensures var w1 := w.(flights := w.flights[e := Handling(Get(w.attempts, e))]);
      Next(c, Next(c, Next(c, w1, HandlerEnds(e, ok)), Check(e, read)), Write(e, write))
        == w.(attempts := if ok then w.attempts - {e} else w.attempts[e := Get(w.attempts, e) + 1],
              log := w.log + [Delivered(e, ok, !ok)])
  {
    var w1 := w.(flights := w.flights[e := Handling(Get(w.attempts, e))]);
    assert w1.flights - {e} == w.flights;
    assert Next(c, w1, HandlerEnds(e, ok)).flights == w.flights;
  }

  lemma MoveIsARun(c: Config, w: World, e: EventId, read: Outcome, write: Outcome)
    requires e in w.flights && w.flights[e] == Checking
    ensures var w' := Next(c, Next(c, w, Check(e, read)), Write(e, write));
      && w'.attempts == w.attempts - {e} && w'.table == Moved(c, w.table, e, read, write)
      && w'.flights == w.flights - {e} && w'.retries == w.retries
      && w'.log != [] && w'.log[|w'.log| - 1] == Delivered(e, false, false)
  {
    var w1 := Next(c, w, Check(e, read));
    if read == Done {
      assert w1 == w.(flights := w.flights[e := Writing(Exists(w.table, e))]);
      assert w1.flights - {e} == w.flights - {e};
    }
  }

  lemma RunOne(c: Config, w: World, steps: seq<Step>, s: Step)
    ensures Run(c, w, steps + [s]) == Next(c, Run(c, w, steps), s)
  {
    assert (steps + [s])[..|steps|] == steps;
  }

  lemma RunTwo(c: Config, w: World, s1: Step, s2: Step)
    ensures Run(c, w, [s1, s2]) == Next(c, Next(c, w, s1), s2)
  {
    RunOne(c, w, [], s1);
    RunOne(c, w, [s1], s2);
    assert [] + [s1] == [s1] && [s1] + [s2] == [s1, s2];
  }

  lemma RunFour(c: Config, w: World, s1: Step, s2: Step, s3: Step, s4: Step)
    ensures Run(c, w, [s1, s2, s3, s4]) == Next(c, Next(c, Next(c, Next(c, w, s1), s2), s3), s4)
  {
    RunTwo(c, w, s1, s2);
    RunOne(c, w, [s1, s2], s3);
    RunOne(c, w, [s1, s2, s3], s4);
    assert [s1, s2] + [s3] == [s1, s2, s3] && [s1, s2, s3] + [s4] == [s1, s2, s3, s4];
  }

  /** How one retry's calls end: the lookup, the handler, the status update, the failure count. */
  datatype Plan = Plan(find: Outcome, ok: bool, update: Outcome, count: Outcome)

  datatype RetryResult = Success | Failure | Threw

  /** The catch block: an error in it is thrown on. */
  function Counted(table: seq<Row>, e: EventId, count: Outcome): (seq<Row>, RetryResult) {
    if count == Outcome.Failed then (table, Threw) else (Increment(table, e), if count == Done then Failure else Threw)
  }

  /** One retry from the table: the table, and what the caller is told. */
  function Retried(table: seq<Row>, e: EventId, plan: Plan): (seq<Row>, RetryResult) {
    if plan.find != Done then Counted(table, e, plan.count)
    else if !Retryable(table, e) then (table, Failure)
    else if !plan.ok || plan.update == Outcome.Failed then Counted(table, e, plan.count)
    else
      var i := Find(table, e).value;
      var resolved := table[i := table[i].(status := Resolved)];
      if plan.update == Done then (resolved, Success) else Counted(resolved, e, plan.count)
  }

  lemma IncrementNone(table: seq<Row>, e: EventId)
    requires !Exists(table, e)
    ensures Increment(table, e) == table
  {
  }

  /** It is what the machine does when nothing comes in between. */
  lemma RetryIsARun(c: Config, w: World, e: EventId, plan: Plan)
    ensures var r := |w.retries|;
      var w' := Run(c, w, [StartRetry(e, plan.find), EndRetry(r, plan.ok, plan.update)] + [CountRetry(r, plan.count)]);
      w'.table == Retried(w.table, e, plan).0 && w'.attempts == w.attempts && w'.flights == w.flights
  {
    var r := |w.retries|;
    var s1, s2, s3 := StartRetry(e, plan.find), EndRetry(r, plan.ok, plan.update), CountRetry(r, plan.count);
    RunTwo(c, w, s1, s2);
    RunOne(c, w, [s1, s2], s3);
    var w1 := Next(c, w, s1);
    var w2 := Next(c, w1, s2);
    CountedIsAStep(c, w2, r, e, plan.count);
  }

  lemma CountedIsAStep(c: Config, w: World, r: nat, e: EventId, count: Outcome)
    requires r < |w.retries| && w.retries[r].Counting? ==> w.retries[r].event == e
    ensures Next(c, w, CountRetry(r, count)).table
         == if r < |w.retries| && w.retries[r].Counting? then Counted(w.table, e, count).0 else w.table
    ensures Next(c, w, CountRetry(r, count)).attempts == w.attempts
    ensures Next(c, w, CountRetry(r, count)).flights == w.flights
  {
    if !Exists(w.table, e) { IncrementNone(w.table, e); }
  }

  /** The events of a service's failed rows, newest first; rows are stored in the order they first
      failed. */
  function Newest(table: seq<Row>, service: string, limit: nat): seq<EventId> {
    if table == [] || limit == 0 then []
    else
      var n := |table| - 1;
      if table[n].service == service && table[n].status == Status.Failed
      then [table[n].event] + Newest(table[..n], service, limit - 1)
      else Newest(table[..n], service, limit)
  }

  /** The first `n` retries of a batch as far as they get, given what one retry does: the table, how
      many succeeded, and whether one threw. */
  function RetriedAll(table: seq<Row>, events: seq<EventId>, n: nat,
                      retry: (seq<Row>, EventId) -> (seq<Row>, RetryResult)): (seq<Row>, nat, bool)
    requires n <= |events|
  {
    if n == 0 then (table, 0, false)
    else
      var (before, succeeded, threw) := RetriedAll(table, events, n - 1, retry);
      if threw then (before, succeeded, true)
      else
        var (after, result) := retry(before, events[n - 1]);
        (after, if result == Success then succeeded + 1 else succeeded, result == Threw)
  }

  function Retrying(plan: EventId -> Plan): (seq<Row>, EventId) -> (seq<Row>, RetryResult) {
    (table: seq<Row>, e: EventId) => Retried(table, e, plan(e))
  }

  predicate DistinctEvents(table: seq<Row>) { forall i, j | 0 <= i < j < |table| :: table[i].event != table[j].event }

  /** What the caller of a retry is told, and what the retry leaves, however its calls end: it succeeds
      exactly if the event has a failed row, its handler returns and its row is set to resolved; anything
      that fails on the way is counted on the row, and it throws exactly if that fails too. */
  lemma RetryTells(table: seq<Row>, e: EventId, plan: Plan)
    requires DistinctEvents(table)
    ensures var (table', result) := Retried(table, e, plan);
      var takenUp := plan.find == Done
                     && exists i :: 0 <= i < |table| && table[i].event == e && table[i].status == Status.Failed;
      var resolves := takenUp && plan.ok && plan.update != Outcome.Failed;
      var fails := plan.find != Done || (takenUp && (!plan.ok || plan.update != Done));
      && (result == Success <==> takenUp && plan.ok && plan.update == Done)
      && (result == Threw <==> fails && plan.count != Done)
      && |table'| == |table|
      && forall i | 0 <= i < |table| ::
           table'[i] == if table[i].event != e then table[i] else table[i].(
             status := if resolves then Resolved else table[i].status,
             failureCount := table[i].failureCount + if fails && plan.count != Outcome.Failed then 1 else 0)
  {
    if Exists(table, e) {
      var k := Find(table, e).value;
      assert forall i | 0 <= i < |table| && table[i].event == e :: i == k;
    }
  }

  /** What a retry makes of a row. */
  function AfterRetry(r: Row, ok: bool): Row {
    if ok then r.(status := Resolved) else r.(failureCount := r.failureCount + 1)
  }

  /** All of a retry's statements go through; what its handler does is open. */
  predicate Works(plan: Plan) { plan.find == plan.update == plan.count == Done }

  /** How many of the first `n` handlers succeed. */
  function Count(events: seq<EventId>, n: nat, ok: EventId -> bool): (r: nat)
    requires n <= |events|
    ensures r <= n
  {
    if n == 0 then 0 else Count(events, n - 1, ok) + if ok(events[n - 1]) then 1 else 0
  }

  /** A retry told its caller how its handler ended, and gave its row that outcome and no other. */
  ghost predicate Settles(table: seq<Row>, e: EventId, ok: bool, table': seq<Row>, result: RetryResult) {
    && result == (if ok then Success else Failure) && |table'| == |table|
    && forall i | 0 <= i < |table| :: table'[i] == if table[i].event == e then AfterRetry(table[i], ok) else table[i]
  }

  lemma RetriedMeans(table: seq<Row>, e: EventId, plan: Plan)
    requires DistinctEvents(table) && Retryable(table, e) && Works(plan)
    ensures var (table', result) := Retried(table, e, plan); Settles(table, e, plan.ok, table', result)
  {
  }

  lemma FoundAt(table: seq<Row>, i: nat)
    requires DistinctEvents(table) && i < |table|
    ensures Find(table, table[i].event) == Some(i)
  {
    assert Exists(table, table[i].event);
  }

  lemma StillRetryable(table: seq<Row>, table': seq<Row>, e: EventId)
    requires DistinctEvents(table) && Retryable(table, e) && |table'| == |table|
    requires forall i | 0 <= i < |table| :: table'[i].event == table[i].event
    requires table'[Find(table, e).value] == table[Find(table, e).value]
    ensures DistinctEvents(table') && Retryable(table', e)
  {
    FoundAt(table', Find(table, e).value);
  }

  ghost predicate AllSettle(ok: EventId -> bool, retry: (seq<Row>, EventId) -> (seq<Row>, RetryResult)) {
    forall t: seq<Row>, e: EventId {:trigger retry(t, e)} | DistinctEvents(t) && Retryable(t, e) ::
      Settles(t, e, ok(e), retry(t, e).0, retry(t, e).1)
  }

  /** The rows of these events have their own outcome, the others are as they were. */
  ghost predicate SettledRows(table: seq<Row>, events: seq<EventId>, ok: EventId -> bool, table': seq<Row>) {
    && |table'| == |table|
    && forall i | 0 <= i < |table| ::
         table'[i] == if table[i].event in events then AfterRetry(table[i], ok(table[i].event)) else table[i]
  }

  lemma SettledMore(table: seq<Row>, events: seq<EventId>, ok: EventId -> bool, table1: seq<Row>, e: EventId,
                    table2: seq<Row>, result: RetryResult)
    requires SettledRows(table, events, ok, table1) && e !in events && Settles(table1, e, ok(e), table2, result)
    ensures SettledRows(table, events + [e], ok, table2)
  {
    forall i | 0 <= i < |table|
      ensures table2[i] == if table[i].event in events + [e] then AfterRetry(table[i], ok(table[i].event)) else table[i]
    {
      assert table1[i].event == table[i].event;
    }
  }

  lemma NextSettles(table: seq<Row>, events: seq<EventId>, ok: EventId -> bool,
                    retry: (seq<Row>, EventId) -> (seq<Row>, RetryResult), table1: seq<Row>, e: EventId)
    requires AllSettle(ok, retry) && SettledRows(table, events, ok, table1)
    requires e !in events && DistinctEvents(table) && Retryable(table, e)
    ensures SettledRows(table, events + [e], ok, retry(table1, e).0)
    ensures retry(table1, e).1 == if ok(e) then Success else Failure
  {
    StillRetryable(table, table1, e);
    SettledMore(table, events, ok, table1, e, retry(table1, e).0, retry(table1, e).1);
  }

  /** The first `n` events are different and can be retried. */
  predicate Pickable(table: seq<Row>, events: seq<EventId>, n: nat)
    requires n <= |events|
  {
    n == 0 ||
    (Pickable(table, events, n - 1) && events[n - 1] !in events[..n - 1] && Retryable(table, events[n - 1]))
  }

  lemma NextCounts(table: seq<Row>, events: seq<EventId>, n: nat, ok: EventId -> bool,
                   retry: (seq<Row>, EventId) -> (seq<Row>, RetryResult), before: seq<Row>, succeeded: nat)
    requires n < |events| && RetriedAll(table, events, n, retry) == (before, succeeded, false)
    requires retry(before, events[n]).1 == if ok(events[n]) then Success else Failure
    ensures RetriedAll(table, events, n + 1, retry)
         == (retry(before, events[n]).0, succeeded + if ok(events[n]) then 1 else 0, false)
  {
  }

  /** Retrying different failed events gives each row its own outcome once: those whose handler
      succeeds are resolved and counted, the others have failed once more, all other rows stay. */
  lemma {:induction false} RetriedAllMeans(table: seq<Row>, events: seq<EventId>, n: nat, ok: EventId -> bool,
                                           retry: (seq<Row>, EventId) -> (seq<Row>, RetryResult))
    requires n <= |events| && DistinctEvents(table) && Pickable(table, events, n) && AllSettle(ok, retry)
    ensures var (table', succeeded, threw) := RetriedAll(table, events, n, retry);
      !threw && succeeded == Count(events, n, ok) && SettledRows(table, events[..n], ok, table')
  {
    if n > 0 {
      RetriedAllMeans(table, events, n - 1, ok, retry);
      var (before, succeeded, _) := RetriedAll(table, events, n - 1, retry);
      assert events[..n] == events[..n - 1] + [events[n - 1]];
      NextSettles(table, events[..n - 1], ok, retry, before, events[n - 1]);
      NextCounts(table, events, n - 1, ok, retry, before, succeeded);
    }
  }

  predicate FailedRow(r: Row, service: string) { r.service == service && r.status == Status.Failed }

  predicate FailedRowAt(table: seq<Row>, service: string, e: EventId, i: int) {
    0 <= i < |table| && table[i].event == e && FailedRow(table[i], service)
  }

  /** Where in the table the rows of a batch stand. */
  function Positions(table: seq<Row>, service: string, limit: nat): seq<nat> {
    if table == [] || limit == 0 then []
    else
      var n := |table| - 1;
      if FailedRow(table[n], service) then [n] + Positions(table[..n], service, limit - 1)
      else Positions(table[..n], service, limit)
  }

  /** Events picked from the failed rows of the service: as many as allowed, newest first, and none
      left out but, when the batch is full, older ones. */
  ghost predicate Picked(table: seq<Row>, service: string, limit: nat, events: seq<EventId>, at: seq<nat>) {
    && |events| == |at| <= limit
    && (forall k | 0 <= k < |at| :: FailedRowAt(table, service, events[k], at[k]))
    && (forall j, k | 0 <= j < k < |at| :: at[j] > at[k])
    && (forall i | 0 <= i < |table| && FailedRow(table[i], service) && i !in at ::
          |at| == limit && forall k | 0 <= k < |at| :: at[k] > i)
  }

  lemma PickedNewest(table: seq<Row>, r: Row, service: string, limit: nat, events: seq<EventId>, at: seq<nat>)
    requires Picked(table, service, limit, events, at) && FailedRow(r, service)
    ensures Picked(table + [r], service, limit + 1, [r.event] + events, [|table|] + at)
  {
    var at' := [|table|] + at;
    assert at'[0] == |table|;
    forall i | 0 <= i < |table| + 1 && FailedRow((table + [r])[i], service) && i !in at'
      ensures |at'| == limit + 1 && forall k | 0 <= k < |at'| :: at'[k] > i
    {
      assert i != |table| && i !in at && FailedRow(table[i], service);
    }
  }

  lemma PickedOther(table: seq<Row>, r: Row, service: string, limit: nat, events: seq<EventId>, at: seq<nat>)
    requires Picked(table, service, limit, events, at) && !FailedRow(r, service)
    ensures Picked(table + [r], service, limit, events, at)
  {
    forall i | 0 <= i < |table| + 1 && FailedRow((table + [r])[i], service)
      ensures i < |table| && FailedRow(table[i], service)
    {
    }
  }

  /** A batch is the newest failed rows of the service. */
  lemma {:induction false} NewestMeans(table: seq<Row>, service: string, limit: nat)
    ensures Picked(table, service, limit, Newest(table, service, limit), Positions(table, service, limit))
  {
    if table != [] && limit > 0 {
      var n := |table| - 1;
      assert table == table[..n] + [table[n]];
      if FailedRow(table[n], service) {
        NewestMeans(table[..n], service, limit - 1);
        PickedNewest(table[..n], table[n], service, limit - 1, Newest(table[..n], service, limit - 1),
                     Positions(table[..n], service, limit - 1));
      } else {
        NewestMeans(table[..n], service, limit);
        PickedOther(table[..n], table[n], service, limit, Newest(table[..n], service, limit),
                    Positions(table[..n], service, limit));
      }
    }
  }

  /** In a table with one row per event they are different events, and can be retried. */
  lemma NewestPickable(table: seq<Row>, service: string, limit: nat, n: nat)
    requires DistinctEvents(table) && n <= |Newest(table, service, limit)|
    ensures Pickable(table, Newest(table, service, limit), n)
  {
    var events, at := Newest(table, service, limit), Positions(table, service, limit);
    NewestMeans(table, service, limit);
    if n > 0 {
      NewestPickable(table, service, limit, n - 1);
      FoundAt(table, at[n - 1]);
      forall k | 0 <= k < n - 1 ensures events[k] != events[n - 1] {
        assert at[k] > at[n - 1] && table[at[k]].event == events[k];
      }
    }
  }

  function Oks(plan: EventId -> Plan): EventId -> bool { (e: EventId) => plan(e).ok }

  lemma RetryingSettles(plan: EventId -> Plan)
    requires forall e :: Works(plan(e))
    ensures AllSettle(Oks(plan), Retrying(plan))
  {
    forall t: seq<Row>, e: EventId | DistinctEvents(t) && Retryable(t, e)
      ensures Settles(t, e, Oks(plan)(e), Retrying(plan)(t, e).0, Retrying(plan)(t, e).1)
    {
      RetriedMeans(t, e, plan(e));
    }
  }

  /** `retryBatch` with no failing statement, on a table with one row per event: every row of the
      batch is retried once, and the number is how many handlers succeeded. */
  lemma BatchMeans(table: seq<Row>, service: string, limit: nat, plan: EventId -> Plan)
    requires DistinctEvents(table) && forall e :: Works(plan(e))
    ensures var events := Newest(table, service, limit);
      var (table', succeeded, threw) := RetriedAll(table, events, |events|, Retrying(plan));
      !threw && succeeded == Count(events, |events|, Oks(plan)) && SettledRows(table, events, Oks(plan), table')
  {
    var events := Newest(table, service, limit);
    NewestPickable(table, service, limit, |events|);
    RetryingSettles(plan);
    RetriedAllMeans(table, events, |events|, Oks(plan), Retrying(plan));
    assert events[..|events|] == events;
  }

  /** A retry that throws ends the batch. */
  lemma {:induction false} ThrewEnds(table: seq<Row>, events: seq<EventId>, i: nat, n: nat,
                                     retry: (seq<Row>, EventId) -> (seq<Row>, RetryResult))
    requires i <= n <= |events| && RetriedAll(table, events, i, retry).2
    ensures RetriedAll(table, events, n, retry) == RetriedAll(table, events, i, retry)
  {
    if i < n { ThrewEnds(table, events, i, n - 1, retry); }
  }

  function Successes(results: seq<RetryResult>): nat {
    if results == [] then 0
    else Successes(results[..|results| - 1]) + if results[|results| - 1] == Success then 1 else 0
  }

  /** Retries one after another: the tables they go through, and what each of them told. */
  ghost predicate Went(tables: seq<seq<Row>>, results: seq<RetryResult>, events: seq<EventId>,
                       retry: (seq<Row>, EventId) -> (seq<Row>, RetryResult))
  {
    && |results| <= |events| && |tables| == |results| + 1
    && forall i | 0 <= i < |results| :: retry(tables[i], events[i]) == (tables[i + 1], results[i])
  }

  lemma WentMore(tables: seq<seq<Row>>, results: seq<RetryResult>, events: seq<EventId>,
                 retry: (seq<Row>, EventId) -> (seq<Row>, RetryResult), after: seq<Row>, result: RetryResult)
    requires Went(tables, results, events, retry) && |results| < |events|
    requires retry(tables[|results|], events[|results|]) == (after, result)
    ensures Went(tables + [after], results + [result], events, retry)
    ensures Successes(results + [result]) == Successes(results) + if result == Success then 1 else 0
  {
    assert (results + [result])[..|results|] == results;
    assert forall i | 0 <= i <= |results| :: (tables + [after])[i] == tables[i];
  }

  /** A batch of `n` goes on exactly as long as none throws. */
  predicate EndedAt(results: seq<RetryResult>, n: nat, threw: bool) {
    && (if threw then 0 < |results| <= n && results[|results| - 1] == Threw else |results| == n)
    && forall i | 0 <= i < |results| - (if threw then 1 else 0) :: results[i] != Threw
  }

  lemma EndedMore(results: seq<RetryResult>, n: nat, result: RetryResult)
    ensures EndedAt(results, n, true) ==> EndedAt(results, n + 1, true)
    ensures EndedAt(results, n, false) ==> EndedAt(results + [result], n + 1, result == Threw)
  {
  }

  /** However retries end: a batch stops at the first that throws, and counts the successes before. */
  lemma {:induction false} BatchStops(table: seq<Row>, events: seq<EventId>, n: nat,
                                      retry: (seq<Row>, EventId) -> (seq<Row>, RetryResult))
    returns (tables: seq<seq<Row>>, results: seq<RetryResult>)
    requires n <= |events|
    ensures var (table', succeeded, threw) := RetriedAll(table, events, n, retry);
      && Went(tables, results, events, retry) && tables[0] == table && tables[|results|] == table'
      && succeeded == Successes(results) && EndedAt(results, n, threw)
  {
    if n == 0 {
      tables, results := [table], [];
    } else {
      tables, results := BatchStops(table, events, n - 1, retry);
      var (before, _, threw) := RetriedAll(table, events, n - 1, retry);
      var (after, result) := retry(before, events[n - 1]);
      EndedMore(results, n - 1, result);
      if !threw {
        WentMore(tables, results, events, retry, after, result);
        tables, results := tables + [after], results + [result];
      }
    }
  }

  /** One more retry of a batch. */
  lemma RetriedNext(table: seq<Row>, events: seq<EventId>, i: nat, plan: EventId -> Plan,
                    before: seq<Row>, succeeded: nat, after: seq<Row>, result: RetryResult)
    requires i < |events| && RetriedAll(table, events, i, Retrying(plan)) == (before, succeeded, false)
    requires (after, result) == Retried(before, events[i], plan(events[i]))
    ensures RetriedAll(table, events, i + 1, Retrying(plan))
         == (after, if result == Success then succeeded + 1 else succeeded, result == Threw)
  {
    assert Retrying(plan)(before, events[i]) == (after, result);
  }

  class DLQHandler {
    const config: Config
    var retryAttempts: map<EventId, nat>
    var table: seq<Row>

    constructor (config: Config)
      ensures this.config == config && retryAttempts == map[] && table == []
    {
      this.config := config;
      retryAttempts, table := map[], [];
    }

    /** One delivery; `ok` says whether the wrapped handler returned. */
    method Deliver(e: EventId, ok: bool, read: Outcome, write: Outcome) returns (threw: bool)
      modifies this`retryAttempts, this`table
      ensures (retryAttempts, table, threw) == Wrapped(config, old(retryAttempts), old(table), e, ok, read, write)
    {
      var currentAttempts := if e in retryAttempts then retryAttempts[e] else 0;
      if ok {
        retryAttempts := retryAttempts - {e};
        return false;
      }
      var newAttempts := currentAttempts + 1;
      if newAttempts >= config.maxRetries {
        MoveToDLQ(e, read, write);
        retryAttempts := retryAttempts - {e};
        return false;
      }
      retryAttempts := retryAttempts[e := newAttempts];
      threw := true;
    }

    method MoveToDLQ(e: EventId, read: Outcome, write: Outcome)
      modifies this`table
      ensures table == Moved(config, old(table), e, read, write)
      ensures read != Done || write == Outcome.Failed ==> table == old(table)
      ensures read == Done && write != Outcome.Failed ==>
        if Exists(old(table), e) then table == Increment(old(table), e)
        else
          var failureCount := if config.maxRetries == 0 then 1 else config.maxRetries;
          table == old(table) + [Row(e, failureCount, Status.Failed, config.service)]
    {
      if read != Done {
        return;
      }
      var found := Find(table, e);
      if write == Outcome.Failed {
        return;
      }
      if found.Some? {
        table := Increment(table, e);
      } else {
        var failureCount := if config.maxRetries == 0 then 1 else config.maxRetries;
        table := table + [Row(e, failureCount, Status.Failed, config.service)];
      }
    }

    method RetryFromDLQ(e: EventId, plan: Plan) returns (result: RetryResult)
      modifies this`table
      ensures (table, result) == Retried(old(table), e, plan)
    {
      if plan.find != Done {
        result := CountFailure(e, plan.count);
        return;
      }
      var found := Find(table, e);
      if found.None? {
        return Failure;
      }
      if table[found.value].status != Status.Failed {
        return Failure;
      }
      if !plan.ok || plan.update == Outcome.Failed {
        result := CountFailure(e, plan.count);
        return;
      }
      table := table[found.value := table[found.value].(status := Resolved)];
      if plan.update == Done {
        return Success;
      }
      result := CountFailure(e, plan.count);
    }

    /** The catch block. */
    method CountFailure(e: EventId, count: Outcome) returns (result: RetryResult)
      modifies this`table
      ensures (table, result) == Counted(old(table), e, count)
    {
      if count == Outcome.Failed {
        return Threw;
      }
      table := Increment(table, e);
      result := if count == Done then Failure else Threw;
    }

    method RetryBatch(plan: EventId -> Plan, limit: nat) returns (succeeded: nat, failed: nat, threw: bool)
      modifies this`table
      ensures var events := Newest(old(table), config.service, limit);
        && (table, succeeded, threw) == RetriedAll(old(table), events, |events|, Retrying(plan))
        && (!threw ==> succeeded + failed == |events|)
    {
      var failedEvents := Newest(table, config.service, limit);
      ghost var retry := Retrying(plan);
      succeeded, failed := 0, 0;
      for i := 0 to |failedEvents|
        invariant (table, succeeded, false) == RetriedAll(old(table), failedEvents, i, retry)
        invariant succeeded + failed == i
      {
        ghost var before := table;
        var result := RetryFromDLQ(failedEvents[i], plan(failedEvents[i]));
        RetriedNext(old(table), failedEvents, i, plan, before, succeeded, table, result);
        match result {
          case Success => succeeded := succeeded + 1;
          case Failure => failed := failed + 1;
          case Threw =>
            ThrewEnds(old(table), failedEvents, i + 1, |failedEvents|, retry);
            return succeeded, failed, true;
        }
      }
      threw := false;
    }
  }
}
