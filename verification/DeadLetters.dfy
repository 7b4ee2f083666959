/** The retry wrapper and the dead letter table. The wrapper keeps one counter per event across
    redeliveries; deliveries of different events interleave call by call, and so do retries from
    the table. */
module DeadLetters {
  import opened Options

  type EventId = nat

  datatype Status = Failed | Investigating | Resolved | Ignored

  datatype Row = Row(event: EventId, failureCount: int, status: Status, service: string)

  // ---------------------------------------------------------------- the table

  predicate Exists(table: seq<Row>, e: EventId) { exists i :: 0 <= i < |table| && table[i].event == e }

  /** The first row of an event. */
  function Find(table: seq<Row>, e: EventId): (r: Option<nat>)
    ensures r.Some? ==> r.value < |table| && table[r.value].event == e
    ensures r.None? <==> !Exists(table, e)
  {
    if table == [] then None
    else
      var n := |table| - 1;
      var before := Find(table[..n], e);
      assert forall i | 0 <= i < n :: table[..n][i] == table[i];
      if before.Some? then before else if table[n].event == e then Some(n) else None
  }

  function Increment(table: seq<Row>, e: EventId): (r: seq<Row>)
    ensures |r| == |table|
    ensures forall i | 0 <= i < |table| ::
      r[i] == if table[i].event == e then table[i].(failureCount := table[i].failureCount + 1) else table[i]
  {
    if table == [] then []
    else
      var n := |table| - 1;
      Increment(table[..n], e)
      + [if table[n].event == e then table[n].(failureCount := table[n].failureCount + 1) else table[n]]
  }

  /** `failureCount || 1`. */
  function InitialCount(maxRetries: int): int { if maxRetries == 0 then 1 else maxRetries }

  /** The failure counts of an event's rows. */
  function Counts(table: seq<Row>, e: EventId): seq<int> {
    if table == [] then []
    else
      var n := |table| - 1;
      Counts(table[..n], e) + if table[n].event == e then [table[n].failureCount] else []
  }

  lemma {:induction false} CountsExist(table: seq<Row>, e: EventId)
    ensures Counts(table, e) != [] <==> Exists(table, e)
  {
    if table != [] {
      var n := |table| - 1;
      CountsExist(table[..n], e);
      assert forall i | 0 <= i < n :: table[..n][i] == table[i];
    }
  }

  lemma {:induction false} CountsIncrement(table: seq<Row>, e: EventId, other: EventId)
    requires |Counts(table, other)| <= 1
    ensures Counts(Increment(table, e), other)
         == if other == e && Counts(table, e) != [] then [Counts(table, e)[0] + 1] else Counts(table, other)
  {
    if table != [] {
      var n := |table| - 1;
      CountsIncrement(table[..n], e, other);
      assert Increment(table, e)[..n] == Increment(table[..n], e);
    }
  }

  lemma {:induction false} CountsStatus(table: seq<Row>, i: nat, status: Status, e: EventId)
    requires i < |table|
    ensures Counts(table[i := table[i].(status := status)], e) == Counts(table, e)
  {
    var n := |table| - 1;
    var table' := table[i := table[i].(status := status)];
    if i < n {
      CountsStatus(table[..n], i, status, e);
      assert table'[..n] == table[..n][i := table[..n][i].(status := status)];
    } else {
      assert table'[..n] == table[..n];
    }
  }

  // ---------------------------------------------------------------- the machine

  /** Where the delivery of an event stands: its handler runs, having read the counter; or it has
      failed for good and the table is being looked up, or written. */
  datatype Flight = Handling(attempts: nat) | Checking | Writing(found: bool)

  /** Where a retry from the table stands: its handler runs on the row that was read; or something
      failed and that is being counted. */
  datatype Retry = Working(row: nat) | Counting(event: EventId) | Over

  /** What happened, in order: how a delivery ended; that a failure was written to the table; that a
      failed retry was counted there; that the process restarted. */
  datatype Happening =
    | Delivered(event: EventId, ok: bool, rethrown: bool)
    | Buried(event: EventId)
    | RetryCounted(event: EventId)
    | Restarted

  datatype Config = Config(maxRetries: int, service: string)

  datatype World = World(
    attempts: map<EventId, nat>,
    table: seq<Row>,
    flights: map<EventId, Flight>,
    retries: seq<Retry>,
    log: seq<Happening>)

  const START := World(map[], [], map[], [], [])

  datatype Step =
    | Begin(e: EventId)
    | HandlerEnds(e: EventId, ok: bool)
    | Check(e: EventId, outcome: Outcome)
    | Write(e: EventId, outcome: Outcome)
    | StartRetry(e: EventId, outcome: Outcome)
    | EndRetry(r: nat, ok: bool, outcome: Outcome)
    | CountRetry(r: nat, outcome: Outcome)
    | Assign(i: nat, status: Status)
    | Crash

  function Get(attempts: map<EventId, nat>, e: EventId): nat { if e in attempts then attempts[e] else 0 }

  /** The row written when an event has failed for good. */
  function Bury(c: Config, table: seq<Row>, e: EventId, found: bool): seq<Row> {
    if found then Increment(table, e) else table + [Row(e, InitialCount(c.maxRetries), Status.Failed, c.service)]
  }

  predicate Retryable(table: seq<Row>, e: EventId) {
    Find(table, e).Some? && table[Find(table, e).value].status == Status.Failed
  }

  predicate Enabled(w: World, s: Step) {
    match s
    case Begin(e) => e !in w.flights
    case HandlerEnds(e, _) => e in w.flights && w.flights[e].Handling?
    case Check(e, _) => e in w.flights && w.flights[e].Checking?
    case Write(e, _) => e in w.flights && w.flights[e].Writing?
    case StartRetry(_, _) => true
    case EndRetry(r, _, _) => r < |w.retries| && w.retries[r].Working? && w.retries[r].row < |w.table|
    case CountRetry(r, _) => r < |w.retries| && w.retries[r].Counting?
    case Assign(i, _) => i < |w.table|
    case Crash => true
  }

  /** The end of a delivery that is not rethrown, whatever the table made of it. */
  function Absorb(w: World, e: EventId): World {
    w.(attempts := w.attempts - {e}, flights := w.flights - {e}, log := w.log + [Delivered(e, false, false)])
  }

  function ActEnd(c: Config, w: World, e: EventId, ok: bool): World
    requires Enabled(w, HandlerEnds(e, ok))
  {
    var failures := w.flights[e].attempts + 1;
    if ok then
      w.(attempts := w.attempts - {e}, flights := w.flights - {e}, log := w.log + [Delivered(e, true, false)])
    else if failures >= c.maxRetries then w.(flights := w.flights[e := Checking])
    else
      w.(attempts := w.attempts[e := failures], flights := w.flights - {e}, log := w.log + [Delivered(e, false, true)])
  }

  /** An error of either statement is swallowed. */
  function ActWrite(c: Config, w: World, e: EventId, outcome: Outcome): World
    requires Enabled(w, Write(e, outcome))
  {
    if outcome == Outcome.Failed then Absorb(w, e)
    else Absorb(w.(table := Bury(c, w.table, e, w.flights[e].found), log := w.log + [Buried(e)]), e)
  }

  /** A failed lookup is itself counted as a failed retry. */
  function ActStartRetry(w: World, e: EventId, outcome: Outcome): World {
    if outcome != Done then w.(retries := w.retries + [Counting(e)])
    else if Retryable(w.table, e) then w.(retries := w.retries + [Working(Find(w.table, e).value)])
    else w
  }

  /** So is a failed status update. */
  function ActEndRetry(w: World, r: nat, ok: bool, outcome: Outcome): World
    requires Enabled(w, EndRetry(r, ok, outcome))
  {
    var i := w.retries[r].row;
    var table := if ok && outcome != Outcome.Failed then w.table[i := w.table[i].(status := Resolved)] else w.table;
    w.(table := table, retries := w.retries[r := if ok && outcome == Done then Over else Counting(w.table[i].event)])
  }

  function ActCountRetry(w: World, r: nat, outcome: Outcome): World
    requires Enabled(w, CountRetry(r, outcome))
  {
    var e := w.retries[r].event;
    var w' := w.(retries := w.retries[r := Over]);
    if outcome == Outcome.Failed || !Exists(w.table, e) then w'
    else w'.(table := Increment(w.table, e), log := w.log + [RetryCounted(e)])
  }

  function Act(c: Config, w: World, s: Step): World
    requires Enabled(w, s)
  {
    match s
    case Begin(e) => w.(flights := w.flights[e := Handling(Get(w.attempts, e))])
    case HandlerEnds(e, ok) => ActEnd(c, w, e, ok)
    case Check(e, outcome) =>
      if outcome != Done then Absorb(w, e) else w.(flights := w.flights[e := Writing(Exists(w.table, e))])
    case Write(e, outcome) => ActWrite(c, w, e, outcome)
    case StartRetry(e, outcome) => ActStartRetry(w, e, outcome)
    case EndRetry(r, ok, outcome) => ActEndRetry(w, r, ok, outcome)
    case CountRetry(r, outcome) => ActCountRetry(w, r, outcome)
    case Assign(i, status) => w.(table := w.table[i := w.table[i].(status := status)])
    case Crash => w.(attempts := map[], flights := map[], retries := [], log := w.log + [Restarted])
  }

  function Next(c: Config, w: World, s: Step): World { if Enabled(w, s) then Act(c, w, s) else w }

  function Run(c: Config, w: World, steps: seq<Step>): World {
    if steps == [] then w else Next(c, Run(c, w, steps[..|steps| - 1]), steps[|steps| - 1])
  }

  // ---------------------------------------------------------------- what was observed

  /** Failed deliveries of an event since its last success, or the last restart. */
  function Streak(log: seq<Happening>, e: EventId): nat {
    if log == [] then 0 else StreakAfter(Streak(log[..|log| - 1], e), log[|log| - 1], e)
  }

  function StreakAfter(streak: nat, h: Happening, e: EventId): nat {
    match h
    case Delivered(event, ok, _) => if event != e then streak else if ok then 0 else streak + 1
    case Restarted => 0
    case _ => streak
  }

  /** How often something of a kind has happened to an event. */
  function Absorbed(log: seq<Happening>, e: EventId): nat { Times(log, Delivered(e, false, false)) }

  function Burials(log: seq<Happening>, e: EventId): nat { Times(log, Buried(e)) }

  function FailedRetries(log: seq<Happening>, e: EventId): nat { Times(log, RetryCounted(e)) }

  function Times(log: seq<Happening>, h: Happening): nat {
    if log == [] then 0 else Times(log[..|log| - 1], h) + if log[|log| - 1] == h then 1 else 0
  }

  lemma LogMore(log: seq<Happening>, h: Happening, e: EventId)
    ensures Streak(log + [h], e) == StreakAfter(Streak(log, e), h, e)
    ensures Absorbed(log + [h], e) == Absorbed(log, e) + if h == Delivered(e, false, false) then 1 else 0
    ensures Burials(log + [h], e) == Burials(log, e) + if h == Buried(e) then 1 else 0
    ensures FailedRetries(log + [h], e) == FailedRetries(log, e) + if h == RetryCounted(e) then 1 else 0
  {
    assert (log + [h])[..|log|] == log;
  }

  /** The wrapper gives up at every `Period`-th failure in a row. */
  function Period(c: Config): nat { if c.maxRetries >= 1 then c.maxRetries else 1 }

  /** A failure after `streak` earlier ones in a row is rethrown exactly if it is not the last of a
      period. */
  predicate Rethrows(c: Config, streak: nat) { (streak + 1) % Period(c) != 0 }

  /** Every failed delivery in the log was rethrown exactly when it should have been. */
  ghost predicate LogOk(c: Config, log: seq<Happening>) {
    log == [] ||
    var h, before := log[|log| - 1], log[..|log| - 1];
    && LogOk(c, before)
    && (h.Delivered? && !h.ok ==> (h.rethrown <==> Residue(Streak(before, h.event) + 1, Period(c)) != 0))
  }

  ghost predicate CounterOk(c: Config, w: World, e: EventId) {
    var attempts := Get(w.attempts, e);
    && attempts == Residue(Streak(w.log, e), Period(c))
    && (e in w.attempts ==> 1 <= w.attempts[e] < Period(c))
    && (e in w.flights ==> match w.flights[e]
          case Handling(read) => read == attempts
          case Checking => attempts == Period(c) - 1
          case Writing(found) => attempts == Period(c) - 1 && (found <==> Exists(w.table, e)))
  }

  predicate CountsFit(c: Config, counts: seq<int>, burials: nat, failed: nat) {
    if burials == 0 then counts == [] && failed == 0
    else counts == [InitialCount(c.maxRetries) + burials - 1 + failed]
  }

  ghost predicate RowsOk(c: Config, w: World, e: EventId) {
    CountsFit(c, Counts(w.table, e), Burials(w.log, e), FailedRetries(w.log, e))
  }

  /** The counter that starts over at every multiple of `period`. */
  function Residue(streak: nat, period: nat): nat {
    if streak == 0 then 0
    else if Residue(streak - 1, period) + 1 >= period then 0 else Residue(streak - 1, period) + 1
  }

  lemma {:induction false} ResidueIsModulo(streak: nat, period: nat)
    requires period >= 1
    ensures Residue(streak, period) == streak % period
  {
    if streak > 0 {
      ResidueIsModulo(streak - 1, period);
      var q, r := (streak - 1) / period, (streak - 1) % period;
      assert streak == q * period + r + 1;
      if r + 1 == period {
        assert streak == (q + 1) * period;
        DivideExactly(q + 1, 0, period);
      } else {
        DivideExactly(q, r + 1, period);
      }
    }
  }

  lemma DivideExactly(q: int, r: int, period: int)
    requires 0 <= r < period
    ensures (q * period + r) % period == r
  {
    var x := q * period + r;
    var d := x / period - q;
    assert x == (x / period) * period + x % period;
    assert d * period == r - x % period;
    assert d >= 1 ==> d * period >= period;
    assert d <= -1 ==> d * period <= -period;
  }

  /** A step about another event, or about no delivery at all. */
  predicate Elsewhere(s: Step, e: EventId) {
    match s
    case Begin(e') => e' != e
    case HandlerEnds(e', _) => e' != e
    case Check(e', _) => e' != e
    case Write(e', _) => e' != e
    case Crash => false
    case _ => true
  }

  lemma ElsewhereCounter(c: Config, w: World, s: Step, e: EventId)
    requires Enabled(w, s) && CounterOk(c, w, e) && Elsewhere(s, e)
    ensures CounterOk(c, Act(c, w, s), e)
  {
    var w' := Act(c, w, s);
    ExistsKept(c, w, s, e);
    ElsewhereStreak(c, w, s, e);
    assert Get(w'.attempts, e) == Get(w.attempts, e);
  }

  lemma ElsewhereStreak(c: Config, w: World, s: Step, e: EventId)
    requires Enabled(w, s) && Elsewhere(s, e)
    ensures Streak(Act(c, w, s).log, e) == Streak(w.log, e)
  {
    match s
    case HandlerEnds(e', ok) => LogMore(w.log, Delivered(e', ok, !ok), e);
    case Check(e', _) => LogMore(w.log, Delivered(e', false, false), e);
    case Write(e', _) =>
      LogMore(w.log, Delivered(e', false, false), e);
      LogMore(w.log, Buried(e'), e);
      LogMore(w.log + [Buried(e')], Delivered(e', false, false), e);
    case CountRetry(r, _) => LogMore(w.log, RetryCounted(w.retries[r].event), e);
    case _ =>
  }

  lemma AbsorbCounter(c: Config, w: World, e: EventId)
    requires Residue(Streak(w.log, e), Period(c)) == Period(c) - 1
    ensures CounterOk(c, Absorb(w, e), e)
  {
    LogMore(w.log, Delivered(e, false, false), e);
  }

  lemma EndCounter(c: Config, w: World, e: EventId, ok: bool)
    requires Enabled(w, HandlerEnds(e, ok)) && CounterOk(c, w, e)
    ensures CounterOk(c, ActEnd(c, w, e, ok), e)
  {
    LogMore(w.log, Delivered(e, ok, !ok), e);
  }

  lemma WriteCounter(c: Config, w: World, e: EventId, outcome: Outcome)
    requires Enabled(w, Write(e, outcome)) && CounterOk(c, w, e)
    ensures CounterOk(c, ActWrite(c, w, e, outcome), e)
  {
    LogMore(w.log, Buried(e), e);
    AbsorbCounter(c, w, e);
    AbsorbCounter(c, w.(table := Bury(c, w.table, e, w.flights[e].found), log := w.log + [Buried(e)]), e);
  }

  lemma StepCounter(c: Config, w: World, s: Step, e: EventId)
    requires Enabled(w, s) && CounterOk(c, w, e)
    ensures CounterOk(c, Act(c, w, s), e)
  {
    if Elsewhere(s, e) {
      ElsewhereCounter(c, w, s, e);
    } else {
      match s
      case Begin(_) =>
      case HandlerEnds(_, ok) => EndCounter(c, w, e, ok);
      case Check(_, outcome) => if outcome != Done { AbsorbCounter(c, w, e); }
      case Write(_, outcome) => WriteCounter(c, w, e, outcome);
      case Crash => LogMore(w.log, Restarted, e);
    }
  }

  lemma ExistsKept(c: Config, w: World, s: Step, e: EventId)
    requires Enabled(w, s) && !(s.Write? && s.e == e)
    ensures Exists(Act(c, w, s).table, e) <==> Exists(w.table, e)
  {
    var table, table' := w.table, Act(c, w, s).table;
    assert forall i | 0 <= i < |table| :: table'[i].event == table[i].event;
    if Exists(table, e) {
      var i :| 0 <= i < |table| && table[i].event == e;
      assert table'[i].event == e;
    }
  }

  lemma CountsBury(c: Config, table: seq<Row>, e': EventId, e: EventId)
    requires |Counts(table, e)| <= 1
    ensures Counts(Bury(c, table, e', Exists(table, e')), e)
         == if e != e' then Counts(table, e)
            else if Counts(table, e) == [] then [InitialCount(c.maxRetries)] else [Counts(table, e)[0] + 1]
  {
    var row := Row(e', InitialCount(c.maxRetries), Status.Failed, c.service);
    CountsExist(table, e);
    CountsIncrement(table, e', e);
    assert (table + [row])[..|table|] == table;
  }

  /** One more happening that is not about the table. */
  lemma LogRows(c: Config, w: World, h: Happening, e: EventId)
    requires RowsOk(c, w, e) && !h.Buried? && !h.RetryCounted?
    ensures RowsOk(c, w.(log := w.log + [h]), e)
  {
    LogMore(w.log, h, e);
  }

  lemma BuryRows(c: Config, w: World, e': EventId, e: EventId)
    requires RowsOk(c, w, e)
    ensures RowsOk(c, w.(table := Bury(c, w.table, e', Exists(w.table, e')), log := w.log + [Buried(e')]), e)
  {
    LogMore(w.log, Buried(e'), e);
    CountsBury(c, w.table, e', e);
  }

  lemma WriteRows(c: Config, w: World, e': EventId, outcome: Outcome, e: EventId)
    requires Enabled(w, Write(e', outcome)) && RowsOk(c, w, e) && (w.flights[e'].found <==> Exists(w.table, e'))
    ensures RowsOk(c, ActWrite(c, w, e', outcome), e)
  {
    if outcome == Outcome.Failed {
      LogRows(c, w, Delivered(e', false, false), e);
    } else {
      BuryRows(c, w, e', e);
      LogRows(c, w.(table := Bury(c, w.table, e', Exists(w.table, e')), log := w.log + [Buried(e')]),
              Delivered(e', false, false), e);
    }
  }

  lemma EndRetryRows(c: Config, w: World, r: nat, ok: bool, outcome: Outcome, e: EventId)
    requires Enabled(w, EndRetry(r, ok, outcome)) && RowsOk(c, w, e)
    ensures RowsOk(c, ActEndRetry(w, r, ok, outcome), e)
  {
    CountsStatus(w.table, w.retries[r].row, Resolved, e);
  }

  lemma CountRetryRows(c: Config, w: World, r: nat, outcome: Outcome, e: EventId)
    requires Enabled(w, CountRetry(r, outcome)) && RowsOk(c, w, e)
    ensures RowsOk(c, ActCountRetry(w, r, outcome), e)
  {
    var e' := w.retries[r].event;
    LogMore(w.log, RetryCounted(e'), e);
    CountsExist(w.table, e');
    CountsIncrement(w.table, e', e);
  }

  lemma StepRows(c: Config, w: World, s: Step, e: EventId)
    requires Enabled(w, s) && RowsOk(c, w, e) && (s.Write? ==> (w.flights[s.e].found <==> Exists(w.table, s.e)))
    ensures RowsOk(c, Act(c, w, s), e)
  {
    match s
    case HandlerEnds(e', ok) => LogRows(c, w, Delivered(e', ok, !ok), e);
    case Check(e', _) => LogRows(c, w, Delivered(e', false, false), e);
    case Write(e', outcome) => WriteRows(c, w, e', outcome, e);
    case EndRetry(r, ok, outcome) => EndRetryRows(c, w, r, ok, outcome, e);
    case CountRetry(r, outcome) => CountRetryRows(c, w, r, outcome, e);
    case Assign(i, status) => CountsStatus(w.table, i, status, e);
    case Crash => LogRows(c, w, Restarted, e);
    case _ =>
  }

  lemma {:induction false} RunKeeps(c: Config, steps: seq<Step>, e: EventId)
    ensures CounterOk(c, Run(c, START, steps), e) && RowsOk(c, Run(c, START, steps), e)
  {
    if steps != [] {
      var w, s := Run(c, START, steps[..|steps| - 1]), steps[|steps| - 1];
      RunKeeps(c, steps[..|steps| - 1], e);
      if Enabled(w, s) {
        StepCounter(c, w, s, e);
        if s.Write? { RunKeeps(c, steps[..|steps| - 1], s.e); }
        StepRows(c, w, s, e);
      }
    }
  }

  lemma LogOkMore(c: Config, log: seq<Happening>, h: Happening)
    requires LogOk(c, log)
    requires h.Delivered? && !h.ok ==> (h.rethrown <==> Residue(Streak(log, h.event) + 1, Period(c)) != 0)
    ensures LogOk(c, log + [h])
  {
    assert (log + [h])[..|log|] == log;
  }

  lemma EndLog(c: Config, w: World, e: EventId, ok: bool)
    requires Enabled(w, HandlerEnds(e, ok)) && LogOk(c, w.log) && CounterOk(c, w, e)
    ensures LogOk(c, ActEnd(c, w, e, ok).log)
  {
    if ok || w.flights[e].attempts + 1 < c.maxRetries { LogOkMore(c, w.log, Delivered(e, ok, !ok)); }
  }

  lemma AbsorbLog(c: Config, log: seq<Happening>, e: EventId)
    requires LogOk(c, log) && Residue(Streak(log, e), Period(c)) == Period(c) - 1
    ensures LogOk(c, log + [Delivered(e, false, false)])
    ensures LogOk(c, log + [Buried(e)] + [Delivered(e, false, false)])
  {
    LogMore(log, Buried(e), e);
    LogOkMore(c, log, Delivered(e, false, false));
    LogOkMore(c, log, Buried(e));
    LogOkMore(c, log + [Buried(e)], Delivered(e, false, false));
  }

  lemma CheckLog(c: Config, w: World, s: Step)
    requires Enabled(w, s) && s.Check? && LogOk(c, w.log) && CounterOk(c, w, s.e)
    ensures LogOk(c, Act(c, w, s).log)
  {
    AbsorbLog(c, w.log, s.e);
  }

  lemma WriteLog(c: Config, w: World, e: EventId, outcome: Outcome)
    requires Enabled(w, Write(e, outcome)) && LogOk(c, w.log) && CounterOk(c, w, e)
    ensures LogOk(c, ActWrite(c, w, e, outcome).log)
  {
    AbsorbLog(c, w.log, e);
  }

  lemma StepLog(c: Config, w: World, s: Step)
    requires Enabled(w, s) && LogOk(c, w.log)
    requires s.HandlerEnds? || s.Check? || s.Write? ==> CounterOk(c, w, s.e)
    ensures LogOk(c, Act(c, w, s).log)
  {
    match s
    case HandlerEnds(e, ok) => EndLog(c, w, e, ok);
    case Check(e, _) => CheckLog(c, w, s);
    case Write(e, outcome) => WriteLog(c, w, e, outcome);
    case CountRetry(r, _) => LogOkMore(c, w.log, RetryCounted(w.retries[r].event));
    case Crash => LogOkMore(c, w.log, Restarted);
    case _ =>
  }

  lemma {:induction false} LogStaysOk(c: Config, steps: seq<Step>)
    ensures LogOk(c, Run(c, START, steps).log)
  {
    if steps != [] {
      var w, s := Run(c, START, steps[..|steps| - 1]), steps[|steps| - 1];
      LogStaysOk(c, steps[..|steps| - 1]);
      if s.HandlerEnds? || s.Check? || s.Write? { RunKeeps(c, steps[..|steps| - 1], s.e); }
      if Enabled(w, s) { StepLog(c, w, s); }
    }
  }

  lemma {:induction false} LogAt(c: Config, log: seq<Happening>, k: nat)
    requires LogOk(c, log) && k < |log| && log[k].Delivered? && !log[k].ok
    ensures log[k].rethrown <==> Rethrows(c, Streak(log[..k], log[k].event))
  {
    if k < |log| - 1 {
      LogAt(c, log[..|log| - 1], k);
      assert log[..|log| - 1][..k] == log[..k];
    } else {
      ResidueIsModulo(Streak(log[..k], log[k].event) + 1, Period(c));
    }
  }

  /** However deliveries, redeliveries, retries, failing statements and restarts interleave: of the
      failures of an event in a row the wrapper rethrows the first maxRetries - 1 and absorbs the next,
      and so on round; the stored counters stay between 1 and maxRetries - 1. */
  lemma RetriesAreExhaustedOnTime(c: Config, steps: seq<Step>, k: nat, e: EventId)
    ensures var w := Run(c, START, steps);
      && (k < |w.log| && w.log[k].Delivered? && !w.log[k].ok ==>
            (w.log[k].rethrown <==> Rethrows(c, Streak(w.log[..k], w.log[k].event))))
      && (e in w.attempts ==> 1 <= w.attempts[e] < Period(c))
      && Get(w.attempts, e) == Streak(w.log, e) % Period(c)
  {
    var w := Run(c, START, steps);
    RunKeeps(c, steps, e);
    LogStaysOk(c, steps);
    ResidueIsModulo(Streak(w.log, e), Period(c));
    if k < |w.log| && w.log[k].Delivered? && !w.log[k].ok { LogAt(c, w.log, k); }
  }

  /** Every row is the service's own. */
  lemma {:induction false} ServiceIsOwn(c: Config, steps: seq<Step>)
    ensures forall i | 0 <= i < |Run(c, START, steps).table| :: Run(c, START, steps).table[i].service == c.service
  {
    if steps != [] { ServiceIsOwn(c, steps[..|steps| - 1]); }
  }

  /** The table holds at most one row per event: one exactly if a failure was written to it. Its count is
      maxRetries, or 1 if that is 0, plus the later failures written plus the failed retries counted. */
  lemma OneRowPerEvent(c: Config, steps: seq<Step>, e: EventId)
    ensures var w := Run(c, START, steps);
      && (Exists(w.table, e) <==> Burials(w.log, e) > 0)
      && (forall i, j | 0 <= i < j < |w.table| :: w.table[i].event != w.table[j].event)
      && (Find(w.table, e).Some? ==>
            var row := w.table[Find(w.table, e).value];
            && row.event == e && row.service == c.service
            && row.failureCount
                 == (if c.maxRetries == 0 then 1 else c.maxRetries) + Burials(w.log, e) - 1 + FailedRetries(w.log, e))
  {
    var w := Run(c, START, steps);
    RunKeeps(c, steps, e);
    CountsExist(w.table, e);
    forall i, j | 0 <= i < j < |w.table| ensures w.table[i].event != w.table[j].event {
      RunKeeps(c, steps, w.table[i].event);
      if w.table[i].event == w.table[j].event { TwoRowsTwoCounts(w.table, i, j); }
    }
    ServiceIsOwn(c, steps);
    if Find(w.table, e).Some? { OnlyCount(w.table, e, Find(w.table, e).value); }
  }

  /** A step that does not lose a failure in a failing statement. */
  predicate KeepsFailures(s: Step) { s.Check? || s.Write? ==> s.outcome == Done }

  predicate AllKeepFailures(steps: seq<Step>) {
    steps == [] || (AllKeepFailures(steps[..|steps| - 1]) && KeepsFailures(steps[|steps| - 1]))
  }

  lemma LogBuries(log: seq<Happening>, h: Happening, e: EventId)
    ensures Burials(log + [h], e) - Burials(log, e) == if h == Buried(e) then 1 else 0
    ensures Absorbed(log + [h], e) - Absorbed(log, e) == if h == Delivered(e, false, false) then 1 else 0
  {
    LogMore(log, h, e);
  }

  lemma StepBuries(c: Config, w: World, s: Step, e: EventId)
    requires Enabled(w, s)
    ensures var w' := Act(c, w, s);
      && Burials(w'.log, e) - Burials(w.log, e) <= Absorbed(w'.log, e) - Absorbed(w.log, e)
      && (KeepsFailures(s) ==> Burials(w'.log, e) - Burials(w.log, e) == Absorbed(w'.log, e) - Absorbed(w.log, e))
  {
    var log, log' := w.log, Act(c, w, s).log;
    if s.Write? && s.outcome != Outcome.Failed {
      LogBuries(log, Buried(s.e), e);
      LogBuries(log + [Buried(s.e)], Delivered(s.e, false, false), e);
    } else if |log'| > |log| {
      assert log' == log + [log'[|log|]];
      LogBuries(log, log'[|log|], e);
    }
  }

  /** An absorbed failure is written to the table at most once, and every one of them is if no statement
      of a burial fails; one whose statement fails is swallowed. */
  lemma {:induction false} AbsorbedAreWritten(c: Config, steps: seq<Step>, e: EventId)
    ensures var w := Run(c, START, steps);
      && Burials(w.log, e) <= Absorbed(w.log, e)
      && (AllKeepFailures(steps) ==> Burials(w.log, e) == Absorbed(w.log, e))
  {
    if steps != [] {
      var w, s := Run(c, START, steps[..|steps| - 1]), steps[|steps| - 1];
      AbsorbedAreWritten(c, steps[..|steps| - 1], e);
      if Enabled(w, s) { StepBuries(c, w, s, e); }
    }
  }

  // ---------------------------------------------------------------- what can still be retried

  /** A table that has only grown, with the same events in the same places. */
  predicate SamePlaces(table: seq<Row>, table': seq<Row>) {
    |table| <= |table'| && forall i | 0 <= i < |table| :: table'[i].event == table[i].event
  }

  lemma {:induction false} FindSame(table: seq<Row>, table': seq<Row>, e: EventId)
    requires SamePlaces(table, table') && |table| == |table'|
    ensures Find(table', e) == Find(table, e)
  {
    if table != [] {
      var n := |table| - 1;
      assert forall i | 0 <= i < n :: table'[..n][i] == table'[i] && table[..n][i] == table[i];
      FindSame(table[..n], table'[..n], e);
    }
  }

  lemma {:induction false} FindStays(table: seq<Row>, table': seq<Row>, e: EventId)
    requires SamePlaces(table, table') && Find(table, e).Some?
    ensures Find(table', e) == Find(table, e)
    decreases |table'|
  {
    if |table| < |table'| {
      FindStays(table, table'[..|table'| - 1], e);
    } else {
      FindSame(table, table', e);
    }
  }

  lemma StepPlaces(c: Config, w: World, s: Step)
    ensures SamePlaces(w.table, Next(c, w, s).table)
  {
  }

  /** The status of an event's row, if it has one. */
  function StatusOf(table: seq<Row>, e: EventId): Option<Status> {
    if Find(table, e).Some? then Some(table[Find(table, e).value].status) else None
  }

  /** A failure that is written opens a failed row for an event that had none; a row that is there
      already, resolved or not, is only counted up and keeps its status. */
  lemma WrittenIsRetryable(c: Config, steps: seq<Step>, e: EventId, outcome: Outcome)
    requires Enabled(Run(c, START, steps), Write(e, outcome)) && outcome != Outcome.Failed
    ensures var w := Run(c, START, steps);
      StatusOf(Act(c, w, Write(e, outcome)).table, e)
        == if Exists(w.table, e) then StatusOf(w.table, e) else Some(Status.Failed)
  {
    var w := Run(c, START, steps);
    RunKeeps(c, steps, e);
    if Exists(w.table, e) {
      FindStays(w.table, Increment(w.table, e), e);
    } else {
      assert (w.table + [Row(e, InitialCount(c.maxRetries), Status.Failed, c.service)])[..|w.table|] == w.table;
    }
  }

  /** Nobody sets row `i` back to failed by hand. */
  predicate NotReopened(steps: seq<Step>, i: nat) { Assign(i, Status.Failed) !in steps }

  lemma StepSettled(c: Config, w: World, s: Step, e: EventId, i: nat)
    requires Find(w.table, e) == Some(i) && w.table[i].status != Status.Failed && s != Assign(i, Status.Failed)
    ensures var table := Next(c, w, s).table;
      Find(table, e) == Some(i) && table[i].status != Status.Failed
  {
    StepPlaces(c, w, s);
    FindStays(w.table, Next(c, w, s).table, e);
  }

  /** So once an event's row is resolved, or ignored, or under investigation, no retry takes it up in any
      later run in which it is not reopened by hand, however often the event fails for good again. */
  lemma {:induction false} SettledIsNotRetried(c: Config, w: World, steps: seq<Step>, e: EventId)
    requires StatusOf(w.table, e).Some? && StatusOf(w.table, e) != Some(Status.Failed)
    requires NotReopened(steps, Find(w.table, e).value)
    ensures var w' := Run(c, w, steps);
      && Find(w'.table, e) == Find(w.table, e) && StatusOf(w'.table, e) != Some(Status.Failed)
      && Next(c, w', StartRetry(e, Done)) == w'
  {
    if steps != [] {
      var n := |steps| - 1;
      assert steps == steps[..n] + [steps[n]];
      SettledIsNotRetried(c, w, steps[..n], e);
      StepSettled(c, Run(c, w, steps[..n]), steps[n], e, Find(w.table, e).value);
    }
  }

  lemma {:induction false} TwoRowsTwoCounts(table: seq<Row>, i: nat, j: nat)
    requires i < j < |table| && table[i].event == table[j].event
    ensures |Counts(table, table[i].event)| >= 2
  {
    var n := |table| - 1;
    if j < n {
      TwoRowsTwoCounts(table[..n], i, j);
    } else {
      CountsExist(table[..n], table[i].event);
      assert table[..n][i] == table[i];
    }
  }

  lemma {:induction false} OnlyCount(table: seq<Row>, e: EventId, i: nat)
    requires |Counts(table, e)| <= 1 && i < |table| && table[i].event == e
    ensures Counts(table, e) == [table[i].failureCount]
  {
    var n := |table| - 1;
    if i < n {
      OnlyCount(table[..n], e, i);
    }
  }
}
