/** The aggregate object, and the repository that loads and saves it, as classes. Each method is
    proved equal to a function on values; those functions are what the concurrent-writers machine
    runs, and what the lemmas speak about. */
module Aggregates {
  import opened Options
  import opened AccountEvents
  import opened EventStore

  /** An aggregate object as a value. */
  datatype Aggregate = Aggregate(id: AggregateId, state: AccountState, version: nat, uncommitted: seq<DomainEvent>)

  /** The version the object believed to be stored before its uncommitted events. */
  function Base(a: Aggregate): int { a.version - |a.uncommitted| }

  function RaiseEvent(a: Aggregate, p: Payload, eventId: nat): Aggregate {
    Aggregate(a.id, When(a.state, p), a.version + 1, a.uncommitted + [DomainEvent(eventId, p, a.version + 1)])
  }

  function Created(id: AggregateId, eventId: nat): Aggregate {
    RaiseEvent(Aggregate(id, INITIAL, 0, []), AccountCreated, eventId)
  }

  /** What the caller is told. */
  function Refusing(d: Decision): Option<Refusal> { if d.Refuse? then Some(d.why) else None }

  /** A refused command leaves the object alone. */
  function Execute(a: Aggregate, c: Command, eventId: nat): Aggregate {
    match Decide(a.state, c)
    case Raise(p) => RaiseEvent(a, p, eventId)
    case Refuse(_) => a
  }

  function LoadFromHistory(a: Aggregate, es: seq<DomainEvent>): Aggregate {
    if es == [] then a
    else
      var n := |es| - 1;
      var before := LoadFromHistory(a, es[..n]);
      before.(state := When(before.state, es[n].payload), version := es[n].version)
  }

  /** The second half of `load`, once the snapshot has been read. */
  function LoadTail(rows: seq<StoredRow>, id: AggregateId, snapshot: Option<Snapshot>): Option<Aggregate> {
    var from := if snapshot.Some? then snapshot.value.version else 0;
    var state := if snapshot.Some? then snapshot.value.state else INITIAL;
    var events := EventsAfter(rows, id, from);
    if events == [] && snapshot.None? then None
    else Some(LoadFromHistory(Aggregate(id, state, 0, []), events))
  }

  function Load(store: Store, id: AggregateId): Option<Aggregate> {
    LoadTail(store.rows, id, LatestSnapshot(store.snapshots, id))
  }

  lemma {:induction false} LoadFromHistoryReplays(a: Aggregate, es: seq<DomainEvent>)
    ensures var r := LoadFromHistory(a, es);
      r == Aggregate(a.id, Replay(a.state, es),
                     if es == [] then a.version else es[|es| - 1].version, a.uncommitted)
  {
    if es != [] {
      var n := |es| - 1;
      LoadFromHistoryReplays(a, es[..n]);
    }
  }

  // ---------------------------------------------------------------- save

  /** The append loop of `save` from its `i`-th uncommitted event on. */
  function AppendAll(rows: seq<StoredRow>, a: Aggregate, i: nat, now: nat, outcomes: nat -> Outcome)
    : (seq<StoredRow>, bool)
    decreases |a.uncommitted| - i
  {
    if i >= |a.uncommitted| then (rows, false)
    else
      var e := a.uncommitted[i];
      var (rows', threw) := AppendOne(rows, a.id, e, Some(e.version - 1), now, outcomes(i));
      if threw then (rows', true) else AppendAll(rows', a, i + 1, now, outcomes)
  }

  datatype SaveResult = SaveResult(store: Store, agg: Aggregate, threw: bool)

  /** `save` without a client: appends, then the commit mark, then a snapshot at multiples of 10. */
  function Save(store: Store, a: Aggregate, now: nat, outcomes: nat -> Outcome): SaveResult
  {
    if a.uncommitted == [] then SaveResult(store, a, false)
    else
      var (rows, threw) := AppendAll(store.rows, a, 0, now, outcomes);
      if threw then SaveResult(store.(rows := rows), a, true)
      else
        var marked := a.(uncommitted := []);
        if a.version % 10 == 0 then
          var (snapshots, failed) :=
            InsertSnapshot(store.snapshots, Snapshot(a.id, a.version, a.state), outcomes(|a.uncommitted|));
          SaveResult(Store(rows, snapshots), marked, failed)
        else SaveResult(store.(rows := rows), marked, false)
  }

  // ---------------------------------------------------------------- the classes

  class AccountAggregate {
    const id: AggregateId
    var state: AccountState
    var version: nat
    var uncommitted: seq<DomainEvent>

    function Value(): Aggregate reads this { Aggregate(id, state, version, uncommitted) }

    constructor (id: AggregateId, initialState: AccountState)
      ensures Value() == Aggregate(id, initialState, 0, [])
    {
      this.id := id;
      state, version, uncommitted := initialState, 0, [];
    }

    constructor Create(id: AggregateId, eventId: nat)
      ensures Value() == Created(id, eventId)
    {
      this.id := id;
      state, version, uncommitted := INITIAL, 0, [];
      new;
      Raise(AccountCreated, eventId);
    }

    method Raise(p: Payload, eventId: nat)
      modifies this
      ensures Value() == RaiseEvent(old(Value()), p, eventId)
    {
      var e := DomainEvent(eventId, p, version + 1);
      state := When(state, p);
      uncommitted := uncommitted + [e];
      version := version + 1;
    }

    method Deposit(amount: int, eventId: nat) returns (refused: Option<Refusal>)
      modifies this
      ensures Value() == Execute(old(Value()), Command.Deposit(amount), eventId)
      ensures refused == Refusing(Decide(old(state), Command.Deposit(amount)))
      ensures refused == if amount <= 0 then Some(NotPositive)
                         else if old(state).status != Active then Some(NotActive) else None
      ensures refused.None? ==> state.balance == old(state).balance + amount && version == old(version) + 1
    {
      if amount <= 0 {
        return Some(NotPositive);
      }
      if state.status != Active {
        return Some(NotActive);
      }
      Raise(MoneyDeposited(amount, state.balance, state.balance + amount), eventId);
      refused := None;
    }

    method Withdraw(amount: int, eventId: nat) returns (refused: Option<Refusal>)
      modifies this
      ensures Value() == Execute(old(Value()), Command.Withdraw(amount), eventId)
      ensures refused == Refusing(Decide(old(state), Command.Withdraw(amount)))
      ensures refused == if amount <= 0 then Some(NotPositive)
                         else if old(state).status != Active then Some(NotActive)
                         else if old(state).balance < amount then Some(InsufficientFunds) else None
      ensures refused.None? ==> state.balance == old(state).balance - amount >= 0 && version == old(version) + 1
    {
      if amount <= 0 {
        return Some(NotPositive);
      }
      if state.status != Active {
        return Some(NotActive);
      }
      if state.balance < amount {
        return Some(InsufficientFunds);
      }
      Raise(MoneyWithdrawn(amount, state.balance, state.balance - amount), eventId);
      refused := None;
    }

    method Freeze(eventId: nat) returns (refused: Option<Refusal>)
      modifies this
      ensures Value() == Execute(old(Value()), Command.Freeze, eventId)
      ensures refused == Refusing(Decide(old(state), Command.Freeze))
      ensures refused == match old(state).status
                         case Active => None
                         case Frozen => Some(AlreadyFrozen)
                         case Closed => Some(CannotFreezeClosed)
      ensures refused.None? ==> state == old(state).(status := Frozen)
    {
      if state.status == Frozen {
        return Some(AlreadyFrozen);
      }
      if state.status == Closed {
        return Some(CannotFreezeClosed);
      }
      Raise(AccountFrozen, eventId);
      refused := None;
    }

    method Unfreeze(eventId: nat) returns (refused: Option<Refusal>)
      modifies this
      ensures Value() == Execute(old(Value()), Command.Unfreeze, eventId)
      ensures refused == Refusing(Decide(old(state), Command.Unfreeze))
      ensures refused == if old(state).status == Frozen then None else Some(NotFrozen)
      ensures refused.None? ==> state == old(state).(status := Active)
    {
      if state.status != Frozen {
        return Some(NotFrozen);
      }
      Raise(AccountUnfrozen, eventId);
      refused := None;
    }

    method ReplayEvents(es: seq<DomainEvent>)
      modifies this
      ensures Value() == LoadFromHistory(old(Value()), es)
    {
      for i := 0 to |es|
        invariant Value() == LoadFromHistory(old(Value()), es[..i])
      {
        assert es[..i + 1][..i] == es[..i];
        state := When(state, es[i].payload);
        version := es[i].version;
      }
      assert es[..|es|] == es;
    }

    method MarkEventsAsCommitted()
      modifies this
      ensures Value() == old(Value()).(uncommitted := [])
    {
      uncommitted := [];
    }
  }

  class AccountAggregateRepository {
    const eventStore: EventStoreRepository

    constructor (eventStore: EventStoreRepository)
      ensures this.eventStore == eventStore
    {
      this.eventStore := eventStore;
    }

    function Tables(): Store reads eventStore { Store(eventStore.rows, eventStore.snapshots) }

    method LoadAggregate(id: AggregateId) returns (aggregate: AccountAggregate?)
      requires eventStore.Valid()
      ensures aggregate == null <==> Load(Tables(), id).None?
      ensures aggregate != null ==> fresh(aggregate) && Load(Tables(), id) == Some(aggregate.Value())
    {
      var snapshot := eventStore.GetLatestSnapshot(id);
      var loaded: AccountAggregate;
      var fromVersion := 0;
      if snapshot.Some? {
        loaded := new AccountAggregate(id, snapshot.value.state);
        fromVersion := snapshot.value.version;
      } else {
        loaded := new AccountAggregate(id, INITIAL);
      }
      var events, _ := eventStore.GetEvents(id, fromVersion);
      if |events| == 0 && snapshot.None? {
        return null;
      }
      loaded.ReplayEvents(events);
      aggregate := loaded;
    }

    method SaveAggregate(aggregate: AccountAggregate, now: nat, outcomes: nat -> Outcome) returns (threw: bool)
      requires eventStore.Valid()
      modifies aggregate, eventStore
      ensures eventStore.Valid()
      ensures SaveResult(Tables(), aggregate.Value(), threw)
           == Save(old(Tables()), old(aggregate.Value()), now, outcomes)
    {
      var events := aggregate.uncommitted;
      if |events| == 0 {
        return false;
      }
      ghost var a := aggregate.Value();
      for i := 0 to |events|
        invariant aggregate.Value() == a && eventStore.Valid()
        invariant eventStore.snapshots == old(eventStore.snapshots)
        invariant AppendAll(eventStore.rows, a, i, now, outcomes)
               == AppendAll(old(eventStore.rows), a, 0, now, outcomes)
      {
        var e := events[i];
        threw := eventStore.Append(aggregate.id, e, Some(e.version - 1), now, outcomes(i));
        if threw {
          return;
        }
      }
      aggregate.MarkEventsAsCommitted();
      threw := false;
      if aggregate.version % 10 == 0 {
        threw := eventStore.SaveSnapshot(aggregate.id, aggregate.version, aggregate.state, outcomes(|events|));
      }
    }

    /** The balance after the events stamped at or before `timestamp`. */
    method GetBalanceAt(id: AggregateId, timestamp: nat) returns (balance: Option<int>)
      requires eventStore.Valid()
      ensures balance == BalanceAt(Stream(eventStore.rows, id), Stamps(eventStore.rows, id), timestamp)
    {
      var allEvents, stamps := eventStore.GetEvents(id, 0);
      var eventsUntil := [];
      for i := 0 to |allEvents|
        invariant eventsUntil == Until(allEvents[..i], stamps[..i], timestamp)
      {
        assert allEvents[..i + 1][..i] == allEvents[..i] && stamps[..i + 1][..i] == stamps[..i];
        if stamps[i] <= timestamp {
          eventsUntil := eventsUntil + [allEvents[i]];
        }
      }
      assert allEvents[..|allEvents|] == allEvents && stamps[..|stamps|] == stamps;
      if |eventsUntil| == 0 {
        return None;
      }
      var aggregate := new AccountAggregate(id, INITIAL);
      aggregate.ReplayEvents(eventsUntil);
      LoadFromHistoryReplays(Aggregate(id, INITIAL, 0, []), eventsUntil);
      balance := Some(aggregate.state.balance);
    }

    /** The delta computation: a running total that never looks at a stored balance. */
    method GetHistory(id: AggregateId) returns (history: seq<HistoryEntry>)
      requires eventStore.Valid()
      ensures history == History(Stream(eventStore.rows, id), Stamps(eventStore.rows, id))
    {
      var events, stamps := eventStore.GetEvents(id, 0);
      history := [];
      var currentBalance := 0;
      for i := 0 to |events|
        invariant history == History(events[..i], stamps[..i])
        invariant currentBalance == DeltaTotal(events[..i])
      {
        var p := events[i].payload;
        assert events[..i + 1][..i] == events[..i] && stamps[..i + 1][..i] == stamps[..i];
        if p.MoneyDeposited? {
          var change := p.amount;
          currentBalance := currentBalance + change;
          history := history + [HistoryEntry(stamps[i], true, currentBalance, change)];
        } else if p.MoneyWithdrawn? {
          var change := p.amount;
          currentBalance := currentBalance - change;
          history := history + [HistoryEntry(stamps[i], false, currentBalance, -change)];
        }
      }
      assert events[..|events|] == events && stamps[..|stamps|] == stamps;
    }
  }

  // ---------------------------------------------------------------- point in time

  /** The events stamped at or before `t`, in order. */
  function Until(es: seq<DomainEvent>, stamps: seq<nat>, t: nat): seq<DomainEvent>
    requires |es| == |stamps|
  {
    if es == [] then []
    else
      var n := |es| - 1;
      Until(es[..n], stamps[..n], t) + if stamps[n] <= t then [es[n]] else []
  }

  function BalanceAt(es: seq<DomainEvent>, stamps: seq<nat>, t: nat): Option<int>
    requires |es| == |stamps|
  {
    var until := Until(es, stamps, t);
    if until == [] then None else Some(Replay(INITIAL, until).balance)
  }

  predicate Chronological(stamps: seq<nat>) {
    |stamps| <= 1 ||
    var n := |stamps| - 1;
    Chronological(stamps[..n]) && stamps[n - 1] <= stamps[n]
  }

  /** Stamps that do not decrease pass `t` once. */
  lemma {:induction false} PassedAt(stamps: seq<nat>, t: nat) returns (k: nat)
    requires Chronological(stamps)
    ensures k <= |stamps| && forall i | 0 <= i < |stamps| :: stamps[i] <= t <==> i < k
  {
    k := 0;
    if stamps != [] {
      var n := |stamps| - 1;
      k := PassedAt(stamps[..n], t);
      assert forall i | 0 <= i < n :: stamps[..n][i] == stamps[i];
      if stamps[n] <= t {
        assert n > 0 ==> stamps[..n][n - 1] <= t;
        k := n + 1;
      }
    }
  }

  lemma {:induction false} UntilTakes(es: seq<DomainEvent>, stamps: seq<nat>, t: nat, k: nat)
    requires |es| == |stamps| && k <= |es| && forall i | 0 <= i < |es| :: stamps[i] <= t <==> i < k
    ensures Until(es, stamps, t) == es[..k]
  {
    if es != [] {
      var n := |es| - 1;
      assert forall i | 0 <= i < n :: stamps[..n][i] == stamps[i];
      if k > n {
        UntilTakes(es[..n], stamps[..n], t, n);
        assert es[..n][..n] == es[..n] && es[..n] + [es[n]] == es[..k];
      } else {
        UntilTakes(es[..n], stamps[..n], t, k);
        assert es[..n][..k] == es[..k] && es[..k] + [] == es[..k];
      }
    }
  }

  /** When stamps do not decrease, the filter keeps a prefix. */
  lemma UntilIsPrefix(es: seq<DomainEvent>, stamps: seq<nat>, t: nat) returns (k: nat)
    requires |es| == |stamps| && Chronological(stamps)
    ensures k <= |es| && Until(es, stamps, t) == es[..k]
    ensures forall i | 0 <= i < |es| :: stamps[i] <= t <==> i < k
  {
    k := PassedAt(stamps, t);
    UntilTakes(es, stamps, t, k);
  }

  /** The last entry of a history, read as a balance. */
  function LastBalance(h: seq<HistoryEntry>): int { if h == [] then 0 else h[|h| - 1].balance }

  /** The entries of a history stamped at or before `t`. */
  function EntriesUntil(h: seq<HistoryEntry>, t: nat): seq<HistoryEntry> {
    if h == [] then []
    else
      var n := |h| - 1;
      EntriesUntil(h[..n], t) + if h[n].timestamp <= t then [h[n]] else []
  }

  /** The money events of a stream, in order. */
  function MoneyEvents(es: seq<DomainEvent>): seq<DomainEvent> {
    if es == [] then []
    else
      var n := |es| - 1;
      MoneyEvents(es[..n]) + if IsMoney(es[n].payload) then [es[n]] else []
  }

  /** The history has one entry per money event, and although it is computed from amounts alone, each
      entry shows the balance the event itself recorded and the change between its two balances. */
  lemma {:induction false} HistoryShowsBalances(es: seq<DomainEvent>, stamps: seq<nat>)
    requires |es| == |stamps| && LegalStream(es)
    ensures |History(es, stamps)| == |MoneyEvents(es)|
    ensures forall k | 0 <= k < |MoneyEvents(es)| ::
      var p, entry := MoneyEvents(es)[k].payload, History(es, stamps)[k];
      IsMoney(p) && entry.balance == p.newBalance && entry.change == p.newBalance - p.previousBalance
      && (entry.deposit <==> p.MoneyDeposited?)
  {
    if es != [] {
      var n := |es| - 1;
      HistoryShowsBalances(es[..n], stamps[..n]);
      TotalsAgree(es);
      TotalsAgree(es[..n]);
      assert es[..n + 1] == es;
    }
  }

  lemma {:induction false} NoneUntil(es: seq<DomainEvent>, stamps: seq<nat>, t: nat)
    requires |es| == |stamps|
    ensures Until(es, stamps, t) == [] <==> forall i | 0 <= i < |es| :: stamps[i] > t
  {
    if es != [] {
      var n := |es| - 1;
      NoneUntil(es[..n], stamps[..n], t);
      assert forall i | 0 <= i < n :: stamps[..n][i] == stamps[i];
    }
  }

  /** What the last event adds to the kept events, and to the kept entries. */
  lemma UntilLast(es: seq<DomainEvent>, stamps: seq<nat>, t: nat)
    requires |es| == |stamps| > 0
    ensures var n, p := |es| - 1, es[|es| - 1].payload;
      Replay(INITIAL, Until(es, stamps, t)).balance
        == if stamps[n] <= t && IsMoney(p) then p.newBalance
           else Replay(INITIAL, Until(es[..n], stamps[..n], t)).balance
  {
    var n := |es| - 1;
    var until := Until(es[..n], stamps[..n], t);
    assert (until + [es[n]])[..|until|] == until;
    assert until + [] == until;
  }

  lemma EntriesLast(es: seq<DomainEvent>, stamps: seq<nat>, t: nat)
    requires |es| == |stamps| > 0
    ensures var n := |es| - 1;
      LastBalance(EntriesUntil(History(es, stamps), t))
        == if stamps[n] <= t && IsMoney(es[n].payload) then DeltaTotal(es)
           else LastBalance(EntriesUntil(History(es[..n], stamps[..n]), t))
  {
    var n := |es| - 1;
    var p, h := es[n].payload, History(es[..n], stamps[..n]);
    if IsMoney(p) {
      var last := HistoryEntry(stamps[n], p.MoneyDeposited?, DeltaTotal(es), Delta(p));
      assert (h + [last])[..|h|] == h && EntriesUntil(h, t) + [] == EntriesUntil(h, t);
    }
  }

  /** The last money event that the filter keeps decides both answers. */
  lemma {:induction false} LastKeptDecides(es: seq<DomainEvent>, stamps: seq<nat>, t: nat)
    requires |es| == |stamps| && LegalStream(es)
    ensures Replay(INITIAL, Until(es, stamps, t)).balance == LastBalance(EntriesUntil(History(es, stamps), t))
  {
    if es != [] {
      LastKeptDecides(es[..|es| - 1], stamps[..|es| - 1], t);
      UntilLast(es, stamps, t);
      EntriesLast(es, stamps, t);
      LastBalanceIsTotal(es);
    }
  }

  lemma LastBalanceIsTotal(es: seq<DomainEvent>)
    requires LegalStream(es) && es != []
    ensures IsMoney(es[|es| - 1].payload) ==> es[|es| - 1].payload.newBalance == DeltaTotal(es)
  {
    TotalsAgree(es);
    assert es[..|es|] == es;
  }

  /** `getBalanceAt(t)` is None exactly when nothing is stamped at or before `t`; otherwise it is
      the last `getHistory` entry at or before `t`, or 0 when that history has none; whatever the
      stamps are. */
  lemma BalanceAtMatchesHistory(es: seq<DomainEvent>, stamps: seq<nat>, t: nat)
    requires |es| == |stamps| && LegalStream(es)
    ensures BalanceAt(es, stamps, t).None? <==> forall i | 0 <= i < |es| :: stamps[i] > t
    ensures BalanceAt(es, stamps, t).Some? ==>
      BalanceAt(es, stamps, t).value == LastBalance(EntriesUntil(History(es, stamps), t))
  {
    NoneUntil(es, stamps, t);
    LastKeptDecides(es, stamps, t);
  }
}
