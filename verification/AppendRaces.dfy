/** `append` and `appendBatch` racing on one table. A call of `append` outside a transaction is a
    batch of one. Each call first reads the highest version, then inserts; what an open transaction
    has inserted is seen only by itself until it commits, but the unique keys hold across all of
    them: an insert that meets another transaction's uncommitted key has to wait. */
module AppendRaces {
  import opened Options
  import opened EventStore

  /** `own` are its uncommitted rows, one per input done; `ready` is the version it will insert next. */
  datatype Tx = Tx(inputs: seq<AppendInput>, own: seq<StoredRow>, ready: Option<nat>, active: bool)

  datatype World = World(rows: seq<StoredRow>, txs: seq<Tx>, now: nat)

  const START := World([], [], 0)

  datatype Step =
    | Begin(inputs: seq<AppendInput>)
    | ReadMax(t: nat, outcome: Outcome)
    | Insert(t: nat, outcome: Outcome)
    | Commit(t: nat, outcome: Outcome)
    | Tick(ms: nat)

  /** Does some other open transaction hold this key? */
  predicate Locked(txs: seq<Tx>, t: nat, id: AggregateId, version: nat, eventId: nat) {
    exists u :: 0 <= u < |txs| && u != t && txs[u].active && !CanInsert(txs[u].own, id, version, eventId)
  }

  predicate Working(w: World, t: nat) {
    t < |w.txs| && w.txs[t].active && |w.txs[t].own| < |w.txs[t].inputs|
  }

  /** The input a working transaction is at. */
  function At(w: World, t: nat): AppendInput
    requires Working(w, t)
  {
    w.txs[t].inputs[|w.txs[t].own|]
  }

  predicate Enabled(w: World, s: Step) {
    match s
    case Begin(_) => true
    case ReadMax(t, _) => Working(w, t) && w.txs[t].ready.None?
    case Insert(t, outcome) =>
      && Working(w, t) && w.txs[t].ready.Some?
      && (outcome == Done ==> !Locked(w.txs, t, At(w, t).aggregate, w.txs[t].ready.value, At(w, t).event.eventId))
    case Commit(t, _) => t < |w.txs| && w.txs[t].active && |w.txs[t].own| == |w.txs[t].inputs|
    case Tick(_) => true
  }

  function SetTx(w: World, t: nat, tx: Tx): World
    requires t < |w.txs|
  {
    w.(txs := w.txs[t := tx])
  }

  /** ROLLBACK: nothing it inserted was ever there. */
  function Rollback(w: World, t: nat): World
    requires t < |w.txs|
  {
    SetTx(w, t, Tx(w.txs[t].inputs, [], None, false))
  }

  function Act(w: World, s: Step): World
    requires Enabled(w, s)
  {
    match s
    case Begin(inputs) => w.(txs := w.txs + [Tx(inputs, [], None, true)])
    case ReadMax(t, outcome) =>
      var current := MaxVersion(w.rows + w.txs[t].own, At(w, t).aggregate);
      if outcome != Done || (At(w, t).expected.Some? && At(w, t).expected.value != current) then Rollback(w, t)
      else SetTx(w, t, w.txs[t].(ready := Some(current + 1)))
    case Insert(t, outcome) =>
      var input, v := At(w, t), w.txs[t].ready.value;
      if outcome != Done || !CanInsert(w.rows + w.txs[t].own, input.aggregate, v, input.event.eventId)
      then Rollback(w, t)
      else
        var row := Stored(input.aggregate, input.event, v, w.now);
        SetTx(w, t, w.txs[t].(own := w.txs[t].own + [row], ready := None))
    case Commit(t, outcome) =>
      if outcome != Done then Rollback(w, t)
      else SetTx(w.(rows := w.rows + w.txs[t].own), t, Tx(w.txs[t].inputs, [], None, false))
    case Tick(ms) => w.(now := w.now + ms)
  }

  function Next(w: World, s: Step): World { if Enabled(w, s) then Act(w, s) else w }

  function Run(w: World, steps: seq<Step>): World {
    if steps == [] then w else Next(Run(w, steps[..|steps| - 1]), steps[|steps| - 1])
  }

  // ---------------------------------------------------------------- one aggregate at a time

  lemma {:induction false} StreamConcat(a: seq<StoredRow>, b: seq<StoredRow>, id: AggregateId)
    ensures Stream(a + b, id) == Stream(a, id) + Stream(b, id)
  {
    if b == [] {
      assert a + b == a;
    } else {
      var n := |b| - 1;
      assert (a + b)[..|a + b| - 1] == a + b[..n];
      StreamConcat(a, b[..n], id);
    }
  }

  /** An open transaction's rows for the aggregate: the events it has done, numbered from the
      committed head on; and a version it has read is at most the next one. */
  ghost predicate TxOk(tx: Tx, id: AggregateId, head: nat) {
    && |tx.own| <= |tx.inputs|
    && (!tx.active ==> tx.own == [])
    && Stream(tx.own, id) == Renumbered(EventsFor(tx.inputs[..|tx.own|], id), head)
    && (tx.ready.Some? && |tx.own| < |tx.inputs| && tx.inputs[|tx.own|].aggregate == id ==>
          1 <= tx.ready.value <= head + |Stream(tx.own, id)| + 1)
  }

  /** `owner` is the only transaction that may have uncommitted rows for the aggregate. */
  ghost predicate Inv(w: World, id: AggregateId, owner: nat) {
    && Numbered(Stream(w.rows, id))
    && (forall t | 0 <= t < |w.txs| :: TxOk(w.txs[t], id, |Stream(w.rows, id)|))
    && (forall t | 0 <= t < |w.txs| && t != owner :: Stream(w.txs[t].own, id) == [])
  }

  lemma SeenIsNumbered(rows: seq<StoredRow>, tx: Tx, id: AggregateId)
    requires Numbered(Stream(rows, id)) && TxOk(tx, id, |Stream(rows, id)|)
    ensures Stream(rows + tx.own, id) == Stream(rows, id) + Stream(tx.own, id)
    ensures Numbered(Stream(rows + tx.own, id))
  {
    StreamConcat(rows, tx.own, id);
    RenumberedAt(EventsFor(tx.inputs[..|tx.own|], id), |Stream(rows, id)|);
  }

  /** What a transaction sees of an aggregate is numbered, so it reads the length. */
  lemma SeenMax(w: World, t: nat, id: AggregateId, owner: nat)
    requires Working(w, t) && Inv(w, id, owner)
    ensures MaxVersion(w.rows + w.txs[t].own, id) == |Stream(w.rows, id)| + |Stream(w.txs[t].own, id)|
  {
    SeenIsNumbered(w.rows, w.txs[t], id);
    MaxIsLengthOf(w.rows + w.txs[t].own, id);
  }

  /** The version read by a working transaction is right for it. */
  lemma ReadyOk(w: World, t: nat, id: AggregateId, owner: nat)
    requires Working(w, t) && Inv(w, id, owner)
    ensures var v := MaxVersion(w.rows + w.txs[t].own, At(w, t).aggregate) + 1;
      TxOk(w.txs[t].(ready := Some(v)), id, |Stream(w.rows, id)|)
  {
    if At(w, t).aggregate == id { SeenMax(w, t, id, owner); }
  }

  lemma StepReadMax(w: World, t: nat, outcome: Outcome, id: AggregateId, owner: nat)
    requires Enabled(w, ReadMax(t, outcome)) && Inv(w, id, owner)
    ensures Inv(Act(w, ReadMax(t, outcome)), id, owner)
  {
    var tx := w.txs[t];
    ReadyOk(w, t, id, owner);
    ReplaceTx(w, t, Tx(tx.inputs, [], None, false), id, owner);
    ReplaceTx(w, t, tx.(ready := Some(MaxVersion(w.rows + tx.own, At(w, t).aggregate) + 1)), id, owner);
  }

  /** Whoever has uncommitted rows for the aggregate holds the key of the next version. */
  lemma HoldsTheNext(tx: Tx, id: AggregateId, head: nat)
    requires TxOk(tx, id, head) && Stream(tx.own, id) != []
    ensures VersionTaken(tx.own, id, head + 1)
  {
    RenumberedAt(EventsFor(tx.inputs[..|tx.own|], id), head);
    assert Stream(tx.own, id)[0] in Stream(tx.own, id);
    RowsAndStreams(tx.own, id);
  }

  /** So an insert that goes through adds the next version, and then no other transaction has
      uncommitted rows for the aggregate. */
  lemma InsertIsNext(w: World, t: nat, id: AggregateId, owner: nat)
    requires Enabled(w, Insert(t, Done)) && Inv(w, id, owner) && At(w, t).aggregate == id
    requires CanInsert(w.rows + w.txs[t].own, id, w.txs[t].ready.value, At(w, t).event.eventId)
    ensures w.txs[t].ready.value == |Stream(w.rows, id)| + |Stream(w.txs[t].own, id)| + 1
    ensures forall u | 0 <= u < |w.txs| && u != t :: Stream(w.txs[u].own, id) == []
  {
    var head := |Stream(w.rows, id)|;
    SeenIsNumbered(w.rows, w.txs[t], id);
    MaxIsLengthOf(w.rows + w.txs[t].own, id);
    forall u | 0 <= u < |w.txs| && Stream(w.txs[u].own, id) != [] ensures VersionTaken(w.txs[u].own, id, head + 1) {
      HoldsTheNext(w.txs[u], id, head);
    }
    forall u | 0 <= u < |w.txs| && u != t ensures Stream(w.txs[u].own, id) == [] {
      assert !w.txs[u].active || CanInsert(w.txs[u].own, id, w.txs[t].ready.value, At(w, t).event.eventId);
    }
  }

  lemma OwnStreamGrows(tx: Tx, id: AggregateId, head: nat, row: StoredRow)
    requires |tx.own| < |tx.inputs| && Stream(tx.own, id) == Renumbered(EventsFor(tx.inputs[..|tx.own|], id), head)
    requires var input := tx.inputs[|tx.own|];
      && row.aggregate == input.aggregate
      && row.event.eventId == input.event.eventId && row.event.payload == input.event.payload
      && (row.aggregate == id ==> row.event.version == head + |Stream(tx.own, id)| + 1)
    ensures Stream(tx.own + [row], id) == Stream(tx.own, id) + if row.aggregate == id then [row.event] else []
    ensures Stream(tx.own + [row], id) == Renumbered(EventsFor(tx.inputs[..|tx.own| + 1], id), head)
  {
    StreamAppend(tx.own, row, id);
    RenumberedNext(tx.inputs, |tx.own|, id, head);
  }

  lemma OwnGrows(tx: Tx, id: AggregateId, head: nat, now: nat, version: nat)
    requires TxOk(tx, id, head) && |tx.own| < |tx.inputs| && tx.active
    requires tx.inputs[|tx.own|].aggregate == id ==> version == head + |Stream(tx.own, id)| + 1
    ensures var input := tx.inputs[|tx.own|];
      var row := Stored(input.aggregate, input.event, version, now);
      && TxOk(tx.(own := tx.own + [row], ready := None), id, head)
      && Stream(tx.own + [row], id) == Stream(tx.own, id) + if input.aggregate == id then [row.event] else []
  {
    OwnStreamGrows(tx, id, head, Stored(tx.inputs[|tx.own|].aggregate, tx.inputs[|tx.own|].event, version, now));
  }

  /** Replacing one transaction by another that is right keeps the invariant, if it has no rows for
      the aggregate or is the owner. */
  lemma ReplaceTx(w: World, t: nat, tx: Tx, id: AggregateId, owner: nat)
    requires Inv(w, id, owner) && t < |w.txs| && TxOk(tx, id, |Stream(w.rows, id)|)
    requires t == owner || Stream(tx.own, id) == []
    ensures Inv(SetTx(w, t, tx), id, owner)
  {
  }

  lemma StepInsert(w: World, t: nat, outcome: Outcome, id: AggregateId, owner: nat) returns (owner': nat)
    requires Enabled(w, Insert(t, outcome)) && Inv(w, id, owner)
    ensures Inv(Act(w, Insert(t, outcome)), id, owner')
  {
    owner' := owner;
    var input, v := At(w, t), w.txs[t].ready.value;
    if outcome != Done || !CanInsert(w.rows + w.txs[t].own, input.aggregate, v, input.event.eventId) {
      ReplaceTx(w, t, Tx(w.txs[t].inputs, [], None, false), id, owner);
    } else {
      if input.aggregate == id {
        InsertIsNext(w, t, id, owner);
        owner' := t;
      }
      OwnGrows(w.txs[t], id, |Stream(w.rows, id)|, w.now, v);
      var row := Stored(input.aggregate, input.event, v, w.now);
      ReplaceTx(w, t, w.txs[t].(own := w.txs[t].own + [row], ready := None), id, owner');
    }
  }

  /** A transaction without rows for the aggregate does not mind the head moving on. */
  lemma TxLater(tx: Tx, id: AggregateId, head: nat, later: nat)
    requires TxOk(tx, id, head) && Stream(tx.own, id) == [] && head <= later
    ensures TxOk(tx, id, later)
  {
    RenumberedAt(EventsFor(tx.inputs[..|tx.own|], id), head);
  }

  lemma CommitAdds(w: World, t: nat, id: AggregateId, owner: nat)
    requires Enabled(w, Commit(t, Done)) && Inv(w, id, owner)
    ensures Stream(w.rows + w.txs[t].own, id)
         == Stream(w.rows, id) + Renumbered(EventsFor(w.txs[t].inputs, id), |Stream(w.rows, id)|)
    ensures Numbered(Stream(w.rows + w.txs[t].own, id))
  {
    SeenIsNumbered(w.rows, w.txs[t], id);
    assert w.txs[t].inputs[..|w.txs[t].own|] == w.txs[t].inputs;
  }

  lemma StepCommit(w: World, t: nat, id: AggregateId, owner: nat)
    requires Enabled(w, Commit(t, Done)) && Inv(w, id, owner)
    ensures Inv(Act(w, Commit(t, Done)), id, owner)
  {
    var head, later := |Stream(w.rows, id)|, |Stream(w.rows + w.txs[t].own, id)|;
    CommitAdds(w, t, id, owner);
    StreamConcat(w.rows, w.txs[t].own, id);
    forall u | 0 <= u < |w.txs| && u != t ensures TxOk(w.txs[u], id, later) {
      if later != head { TxLater(w.txs[u], id, head, later); }
    }
  }

  lemma {:induction false} RunKeeps(steps: seq<Step>, id: AggregateId) returns (owner: nat)
    ensures Inv(Run(START, steps), id, owner)
  {
    owner := 0;
    if steps != [] {
      var w, s := Run(START, steps[..|steps| - 1]), steps[|steps| - 1];
      owner := RunKeeps(steps[..|steps| - 1], id);
      if Enabled(w, s) {
        match s
        case Begin(_) => if owner >= |w.txs| { owner := |w.txs|; }
        case ReadMax(t, outcome) => StepReadMax(w, t, outcome, id, owner);
        case Insert(t, outcome) => owner := StepInsert(w, t, outcome, id, owner);
        case Commit(t, outcome) => if outcome == Done { StepCommit(w, t, id, owner); }
        case Tick(_) =>
      }
    }
  }

  /** However reads and inserts of any number of appends and batches interleave, each aggregate's
      stored versions are exactly 1..n. */
  lemma VersionsAreContiguous(steps: seq<Step>, id: AggregateId)
    ensures var rows := Run(START, steps).rows;
      Numbered(Stream(rows, id)) && forall v: nat :: VersionTaken(rows, id, v) <==> 1 <= v <= |Stream(rows, id)|
  {
    var owner := RunKeeps(steps, id);
    MaxIsLengthOf(Run(START, steps).rows, id);
  }

  /** A batch changes the table only when it commits, and then all at once: its events for an
      aggregate take the next versions, consecutively and in the batch's order. */
  lemma BatchIsAllOrNothing(steps: seq<Step>, s: Step, id: AggregateId)
    ensures var w := Run(START, steps);
      var s0, s1 := Stream(w.rows, id), Stream(Next(w, s).rows, id);
      if Enabled(w, s) && s.Commit? && s.outcome == Done
      then s1 == s0 + Renumbered(EventsFor(w.txs[s.t].inputs, id), |s0|)
      else Next(w, s).rows == w.rows
  {
    var w := Run(START, steps);
    if Enabled(w, s) && s.Commit? && s.outcome == Done {
      var owner := RunKeeps(steps, id);
      CommitAdds(w, s.t, id, owner);
    }
  }

  // ---------------------------------------------------------------- one call is a run

  /** The calls of a batch of `n` inputs as transaction `t`, up to its commit. */
  function BatchSteps(t: nat, inputs: seq<AppendInput>, n: nat, outcomes: nat -> Outcome): seq<Step> {
    if n == 0 then [Begin(inputs)]
    else BatchSteps(t, inputs, n - 1, outcomes) + [ReadMax(t, Done), Insert(t, outcomes(n - 1))]
  }

  /** Where a batch that nobody disturbs stands after `i` of its inputs have been tried. */
  ghost predicate Midway(w: World, inputs: seq<AppendInput>, i: nat, outcomes: nat -> Outcome, w': World)
    requires i <= |inputs|
  {
    var t := |w.txs|;
    var (rows, threw) := AppendRows(w.rows, inputs, i, w.now, outcomes);
    && w'.rows == w.rows && w'.now == w.now && |w'.txs| == t + 1 && w'.txs[..t] == w.txs && w'.txs[t].inputs == inputs
    && (if threw then !w'.txs[t].active
        else
          w'.txs[t] == Tx(inputs, w'.txs[t].own, None, true) && |w'.txs[t].own| == i && w.rows + w'.txs[t].own == rows)
  }

  predicate NoneOpen(w: World) { forall u | 0 <= u < |w.txs| :: !w.txs[u].active }

  /** Reading the highest version and inserting is one `append`. */
  /** The read of one `append`: the version to insert, or the end of the transaction. */
  lemma OneRead(w: World, t: nat)
    requires Working(w, t) && w.txs[t].ready.None?
    ensures var input := At(w, t);
      var current := MaxVersion(w.rows + w.txs[t].own, input.aggregate);
      Next(w, ReadMax(t, Done))
        == if input.expected.Some? && input.expected.value != current then Rollback(w, t)
           else SetTx(w, t, w.txs[t].(ready := Some(current + 1)))
  {
  }

  /** A batch that has been rolled back stays so, ... */
  lemma StaysEnded(w: World, inputs: seq<AppendInput>, i: nat, outcomes: nat -> Outcome, w1: World)
    requires i < |inputs| && Midway(w, inputs, i, outcomes, w1) && !w1.txs[|w.txs|].active
    ensures Midway(w, inputs, i + 1, outcomes, Next(Next(w1, ReadMax(|w.txs|, Done)), Insert(|w.txs|, outcomes(i))))
  {
  }

  /** ... and one whose expected version is not the highest is rolled back. */
  lemma ReadRefused(w: World, inputs: seq<AppendInput>, i: nat, outcomes: nat -> Outcome, w1: World)
    requires i < |inputs| && Midway(w, inputs, i, outcomes, w1) && w1.txs[|w.txs|].active
    requires inputs[i].expected.Some?
    requires inputs[i].expected.value != MaxVersion(w.rows + w1.txs[|w.txs|].own, inputs[i].aggregate)
    ensures Midway(w, inputs, i + 1, outcomes, Next(Rollback(w1, |w.txs|), Insert(|w.txs|, outcomes(i))))
  {
  }

  lemma ActiveAppend(w: World, inputs: seq<AppendInput>, i: nat, outcomes: nat -> Outcome, w1: World)
    requires NoneOpen(w) && i < |inputs| && Midway(w, inputs, i, outcomes, w1) && w1.txs[|w.txs|].active
    ensures Midway(w, inputs, i + 1, outcomes, Next(Next(w1, ReadMax(|w.txs|, Done)), Insert(|w.txs|, outcomes(i))))
  {
    var t := |w.txs|;
    var current := MaxVersion(w.rows + w1.txs[t].own, inputs[i].aggregate);
    OneRead(w1, t);
    if inputs[i].expected.Some? && inputs[i].expected.value != current {
      ReadRefused(w, inputs, i, outcomes, w1);
    } else {
      OneInsert(w, inputs, i, outcomes, w1, current + 1);
    }
  }

  lemma OneAppend(w: World, inputs: seq<AppendInput>, i: nat, outcomes: nat -> Outcome, w1: World, w3: World)
    requires NoneOpen(w) && i < |inputs| && Midway(w, inputs, i, outcomes, w1)
    requires w3 == Next(Next(w1, ReadMax(|w.txs|, Done)), Insert(|w.txs|, outcomes(i)))
    ensures Midway(w, inputs, i + 1, outcomes, w3)
  {
    if !w1.txs[|w.txs|].active {
      StaysEnded(w, inputs, i, outcomes, w1);
    } else {
      ActiveAppend(w, inputs, i, outcomes, w1);
    }
  }

  lemma OneInsert(w: World, inputs: seq<AppendInput>, i: nat, outcomes: nat -> Outcome, w1: World, v: nat)
    requires NoneOpen(w) && i < |inputs| && Midway(w, inputs, i, outcomes, w1) && w1.txs[|w.txs|].active
    requires v == MaxVersion(w.rows + w1.txs[|w.txs|].own, inputs[i].aggregate) + 1
    requires inputs[i].expected.Some? ==> inputs[i].expected.value == v - 1
    ensures Midway(w, inputs, i + 1, outcomes,
                   Next(SetTx(w1, |w.txs|, w1.txs[|w.txs|].(ready := Some(v))), Insert(|w.txs|, outcomes(i))))
  {
    var t, input := |w.txs|, inputs[i];
    var w2 := SetTx(w1, t, w1.txs[t].(ready := Some(v)));
    assert forall u | 0 <= u < t :: w2.txs[u] == w1.txs[..t][u];
    assert !Locked(w2.txs, t, input.aggregate, v, input.event.eventId);
    var row := Stored(input.aggregate, input.event, v, w.now);
    assert w.rows + (w1.txs[t].own + [row]) == (w.rows + w1.txs[t].own) + [row];
  }

  lemma RunOne(w: World, steps: seq<Step>, s: Step)
    ensures Run(w, steps + [s]) == Next(Run(w, steps), s)
  {
    assert (steps + [s])[..|steps|] == steps;
  }

  lemma Begun(w: World, inputs: seq<AppendInput>, outcomes: nat -> Outcome)
    ensures Midway(w, inputs, 0, outcomes, Run(w, [Begin(inputs)]))
  {
    RunOne(w, [], Begin(inputs));
    assert [] + [Begin(inputs)] == [Begin(inputs)] && w.rows + [] == w.rows;
  }

  lemma RunTwo(w: World, steps: seq<Step>, a: Step, b: Step)
    ensures Run(w, steps + [a, b]) == Next(Next(Run(w, steps), a), b)
  {
    RunOne(w, steps, a);
    RunOne(w, steps + [a], b);
    assert steps + [a] + [b] == steps + [a, b];
  }

  lemma {:induction false} BatchStepsRun(w: World, inputs: seq<AppendInput>, i: nat, outcomes: nat -> Outcome)
    requires NoneOpen(w) && i <= |inputs|
    ensures Midway(w, inputs, i, outcomes, Run(w, BatchSteps(|w.txs|, inputs, i, outcomes)))
  {
    if i == 0 {
      Begun(w, inputs, outcomes);
    } else {
      var steps := BatchSteps(|w.txs|, inputs, i - 1, outcomes);
      BatchStepsRun(w, inputs, i - 1, outcomes);
      RunTwo(w, steps, ReadMax(|w.txs|, Done), Insert(|w.txs|, outcomes(i - 1)));
      OneAppend(w, inputs, i - 1, outcomes, Run(w, steps), Run(w, BatchSteps(|w.txs|, inputs, i, outcomes)));
    }
  }

  /** What `appendBatch` does in one call is what the machine does when no other transaction is open
      and it takes the batch's steps without interruption. */
  lemma BatchIsARun(w: World, inputs: seq<AppendInput>, outcomes: nat -> Outcome)
    requires NoneOpen(w)
    ensures var t, n := |w.txs|, |inputs|;
      var w' := Run(w, BatchSteps(t, inputs, n, outcomes) + [Commit(t, outcomes(n))]);
      w'.rows == Batch(w.rows, inputs, w.now, outcomes).0 && NoneOpen(w')
  {
    var t, n := |w.txs|, |inputs|;
    var steps := BatchSteps(t, inputs, n, outcomes);
    BatchStepsRun(w, inputs, n, outcomes);
    RunOne(w, steps, Commit(t, outcomes(n)));
    BatchEnds(w, inputs, outcomes, Run(w, steps));
  }

  lemma BatchEnds(w: World, inputs: seq<AppendInput>, outcomes: nat -> Outcome, w1: World)
    requires NoneOpen(w) && Midway(w, inputs, |inputs|, outcomes, w1)
    ensures var w' := Next(w1, Commit(|w.txs|, outcomes(|inputs|)));
      w'.rows == Batch(w.rows, inputs, w.now, outcomes).0 && NoneOpen(w')
  {
    var t := |w.txs|;
    assert forall u | 0 <= u < t :: w1.txs[u] == w1.txs[..t][u];
  }
}
