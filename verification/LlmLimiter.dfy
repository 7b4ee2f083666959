/** The language model limiter: at most `maxConcurrent` calls at a time, and at least
    `minIntervalMs` between the starts of two. */
module LlmLimiter {

  datatype Limits = Limits(maxConcurrent: nat, minIntervalMs: nat)

  datatype State = State(running: nat, lastCallAt: nat)

  const IDLE := State(0, 0)

  /** One look at the clock: granted, or come back later. */
  function TryAcquire(l: Limits, s: State, now: nat): (State, bool) {
    if s.running < l.maxConcurrent && now - s.lastCallAt >= l.minIntervalMs
    then (State(s.running + 1, now), true) else (s, false)
  }

  function Release(s: State): State { s.(running := if s.running > 0 then s.running - 1 else 0) }

  // ---------------------------------------------------------------- runs

  /** Any caller may look at any time; a caller releases once what it was granted. */
  datatype Step = Look(ms: nat) | Done

  /** History: the times of all grants, and how many of them have been released. */
  datatype World = World(s: State, now: nat, grants: seq<nat>, released: nat)

  const START := World(IDLE, 0, [], 0)

  predicate Enabled(w: World, s: Step) { s.Done? ==> w.released < |w.grants| }

  /** `Look(ms)` lets `ms` milliseconds pass first. */
  function Act(l: Limits, w: World, s: Step): World
    requires Enabled(w, s)
  {
    match s
    case Look(ms) =>
      var now := w.now + ms;
      var (s', granted) := TryAcquire(l, w.s, now);
      World(s', now, if granted then w.grants + [now] else w.grants, w.released)
    case Done => w.(s := Release(w.s), released := w.released + 1)
  }

  function Next(l: Limits, w: World, s: Step): World { if Enabled(w, s) then Act(l, w, s) else w }

  function Run(l: Limits, w: World, steps: seq<Step>): World {
    if steps == [] then w else Next(l, Run(l, w, steps[..|steps| - 1]), steps[|steps| - 1])
  }

  /** Successive grants lie at least `gap` apart. */
  predicate Spaced(grants: seq<nat>, gap: nat) {
    |grants| <= 1 ||
    var n := |grants| - 1;
    Spaced(grants[..n], gap) && grants[n] - grants[n - 1] >= gap
  }

  predicate Inv(l: Limits, w: World) {
    && w.released <= |w.grants| && w.s.running == |w.grants| - w.released <= l.maxConcurrent
    && w.s.lastCallAt == LastGrant(w.grants) <= w.now
    && Spaced(w.grants, l.minIntervalMs)
  }

  /** Whenever callers look and however they are interleaved. */
  lemma {:induction false} RunKeeps(l: Limits, steps: seq<Step>)
    ensures Inv(l, Run(l, START, steps))
  {
    if steps != [] {
      var w, s := Run(l, START, steps[..|steps| - 1]), steps[|steps| - 1];
      RunKeeps(l, steps[..|steps| - 1]);
      if s.Look? {
        var now := w.now + s.ms;
        assert (w.grants + [now])[..|w.grants|] == w.grants;
      }
    }
  }

  /** The time of the last grant, or 0, when the limiter starts counting. */
  function LastGrant(grants: seq<nat>): nat { if grants == [] then 0 else grants[|grants| - 1] }

  /** In every run a look is granted exactly if fewer than `maxConcurrent` grants are outstanding and the
      last one is at least `minIntervalMs` ago; giving one back only counts the outstanding. */
  lemma GrantedWhen(l: Limits, steps: seq<Step>, s: Step)
    ensures var w, w' := Run(l, START, steps), Run(l, START, steps + [s]);
      match s
      case Look(ms) =>
        var now := w.now + ms;
        var granted := |w.grants| - w.released < l.maxConcurrent && now - LastGrant(w.grants) >= l.minIntervalMs;
        w'.now == now && w'.released == w.released && w'.grants == if granted then w.grants + [now] else w.grants
      case Done =>
        && w'.now == w.now && w'.grants == w.grants
        && w'.released == if w.released < |w.grants| then w.released + 1 else w.released
  {
    RunKeeps(l, steps);
    assert (steps + [s])[..|steps|] == steps;
  }

  function CountIn(grants: seq<nat>, from: int, to: int): nat {
    if grants == [] then 0
    else
      var n := |grants| - 1;
      CountIn(grants[..n], from, to) + if from <= grants[n] <= to then 1 else 0
  }

  /** `c` grants in a window span at least `c - 1` gaps. */
  lemma {:induction false} CountSpans(grants: seq<nat>, gap: nat, from: int, to: int)
    requires Spaced(grants, gap) && CountIn(grants, from, to) > 0
    ensures (CountIn(grants, from, to) - 1) * gap <= to - from
    ensures grants[|grants| - 1] <= to ==> (CountIn(grants, from, to) - 1) * gap <= grants[|grants| - 1] - from
  {
    var n := |grants| - 1;
    var c := CountIn(grants[..n], from, to);
    if c > 0 {
      CountSpans(grants[..n], gap, from, to);
      assert (c - 1) * gap + gap == c * gap;
    }
  }

  /** No window of a given length holds more than floor(length / minIntervalMs) + 1 grants. */
  lemma GrantsPerWindow(l: Limits, steps: seq<Step>, from: int, length: nat)
    requires l.minIntervalMs > 0
    ensures CountIn(Run(l, START, steps).grants, from, from + length) <= length / l.minIntervalMs + 1
  {
    var grants := Run(l, START, steps).grants;
    RunKeeps(l, steps);
    var c := CountIn(grants, from, from + length);
    if c > 0 {
      CountSpans(grants, l.minIntervalMs, from, from + length);
      DivideAtMost(c - 1, l.minIntervalMs, length);
    }
  }

  lemma DivideAtMost(k: nat, gap: nat, length: nat)
    requires gap > 0 && k * gap <= length
    ensures k <= length / gap
  {
    var q := length / gap;
    assert length < (q + 1) * gap;
    assert k >= q + 1 ==> k * gap >= (q + 1) * gap;
  }

  lemma {:induction false} SpacedAt(grants: seq<nat>, gap: nat, i: nat)
    requires Spaced(grants, gap) && 0 < i < |grants|
    ensures grants[i] - grants[i - 1] >= gap
  {
    if i < |grants| - 1 { SpacedAt(grants[..|grants| - 1], gap, i); }
  }

  /** Never more grants outstanding than allowed, and successive grants far enough apart. */
  lemma LimitsHold(l: Limits, steps: seq<Step>, i: nat)
    ensures var w := Run(l, START, steps);
      && |w.grants| - w.released <= l.maxConcurrent
      && (0 < i < |w.grants| ==> w.grants[i] - w.grants[i - 1] >= l.minIntervalMs)
  {
    RunKeeps(l, steps);
    var w := Run(l, START, steps);
    if 0 < i < |w.grants| { SpacedAt(w.grants, l.minIntervalMs, i); }
  }

  class LLMRateLimiter {
    const limits: Limits
    var running: nat
    var lastCallAt: nat

    function Value(): State reads this { State(running, lastCallAt) }

    constructor (maxConcurrent: nat, minIntervalMs: nat)
      ensures limits == Limits(maxConcurrent, minIntervalMs) && Value() == IDLE
    {
      limits := Limits(maxConcurrent, minIntervalMs);
      running, lastCallAt := 0, 0;
    }

    method Acquire(now: nat) returns (granted: bool)
      modifies this
      ensures (Value(), granted) == TryAcquire(limits, old(Value()), now)
      ensures granted <==>
        old(running) < limits.maxConcurrent && now - old(lastCallAt) >= limits.minIntervalMs
      ensures granted ==> running == old(running) + 1 && lastCallAt == now
    {
      var sinceLastCall := now - lastCallAt;
      granted := running < limits.maxConcurrent && sinceLastCall >= limits.minIntervalMs;
      if granted {
        running := running + 1;
        lastCallAt := now;
      }
    }

    method ReleaseOne()
      modifies this
      ensures Value() == Release(old(Value()))
      ensures running == (if old(running) > 0 then old(running) - 1 else 0) && lastCallAt == old(lastCallAt)
    {
      running := if running >= 1 then running - 1 else 0;
    }
  }
}
