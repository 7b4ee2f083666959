/** The event-sourced account: its events, its state, replay, and its commands as functions.
    Money is a whole number of cents. */
module AccountEvents {
  datatype Status = Active | Frozen | Closed

  /** Balance and status: the part of the account's state that replay restores. */
  datatype AccountState = AccountState(balance: int, status: Status)

  datatype Payload =
    | AccountCreated
    | MoneyDeposited(amount: int, previousBalance: int, newBalance: int)
    | MoneyWithdrawn(amount: int, previousBalance: int, newBalance: int)
    | AccountFrozen
    | AccountUnfrozen

  /** An event of one aggregate. Its time stamp is given by the store, see EventStore. */
  datatype DomainEvent = DomainEvent(eventId: nat, payload: Payload, version: nat)

  const INITIAL := AccountState(0, Active)

  predicate IsMoney(p: Payload) { p.MoneyDeposited? || p.MoneyWithdrawn? }

  function When(s: AccountState, p: Payload): AccountState {
    match p
    case AccountCreated => s
    case MoneyDeposited(_, _, newBalance) => s.(balance := newBalance)
    case MoneyWithdrawn(_, _, newBalance) => s.(balance := newBalance)
    case AccountFrozen => s.(status := Frozen)
    case AccountUnfrozen => s.(status := Active)
  }

  function Replay(s: AccountState, es: seq<DomainEvent>): AccountState {
    if es == [] then s else When(Replay(s, es[..|es| - 1]), es[|es| - 1].payload)
  }

  lemma {:induction false} ReplayConcat(s: AccountState, a: seq<DomainEvent>, b: seq<DomainEvent>)
    ensures Replay(s, a + b) == Replay(Replay(s, a), b)
    decreases |b|
  {
    if b == [] {
      assert a + b == a;
    } else {
      var n := |b| - 1;
      assert (a + b)[..|a + b| - 1] == a + b[..n];
      ReplayConcat(s, a, b[..n]);
    }
  }

  // ---------------------------------------------------------------- commands

  datatype Command = Deposit(amount: int) | Withdraw(amount: int) | Freeze | Unfreeze

  datatype Refusal =
    | NotPositive | NotActive | InsufficientFunds | AlreadyFrozen | CannotFreezeClosed | NotFrozen

  datatype Decision = Raise(payload: Payload) | Refuse(why: Refusal)

  /** What a command raises on a given state, or why it is refused. */
  function Decide(s: AccountState, c: Command): Decision {
    match c
    case Deposit(amount) =>
      if amount <= 0 then Refuse(NotPositive)
      else if s.status != Active then Refuse(NotActive)
      else Raise(MoneyDeposited(amount, s.balance, s.balance + amount))
    case Withdraw(amount) =>
      if amount <= 0 then Refuse(NotPositive)
      else if s.status != Active then Refuse(NotActive)
      else if s.balance < amount then Refuse(InsufficientFunds)
      else Raise(MoneyWithdrawn(amount, s.balance, s.balance - amount))
    case Freeze =>
      if s.status == Frozen then Refuse(AlreadyFrozen)
      else if s.status == Closed then Refuse(CannotFreezeClosed)
      else Raise(AccountFrozen)
    case Unfreeze =>
      if s.status != Frozen then Refuse(NotFrozen)
      else Raise(AccountUnfrozen)
  }

  // ---------------------------------------------------------------- legal streams

  /** The rules an event has to obey on the state it meets; stated without the commands. */
  predicate Legal(s: AccountState, p: Payload) {
    match p
    case AccountCreated => false
    case MoneyDeposited(amount, prev, next) =>
      amount > 0 && s.status == Active && prev == s.balance && next == prev + amount
    case MoneyWithdrawn(amount, prev, next) =>
      amount > 0 && s.status == Active && prev == s.balance && next == prev - amount && next >= 0
    case AccountFrozen => s.status == Active
    case AccountUnfrozen => s.status == Frozen
  }

  /** May `p` come right after the stream `es`? */
  predicate LegalNext(es: seq<DomainEvent>, p: Payload) {
    if es == [] then p == AccountCreated else Legal(Replay(INITIAL, es), p)
  }

  /** Creation first, and every later event legal on the replay of everything before it. */
  predicate LegalStream(es: seq<DomainEvent>) {
    es == [] || (LegalStream(es[..|es| - 1]) && LegalNext(es[..|es| - 1], es[|es| - 1].payload))
  }

  lemma LegalExtend(es: seq<DomainEvent>, e: DomainEvent)
    requires LegalStream(es) && LegalNext(es, e.payload)
    ensures LegalStream(es + [e])
    ensures Replay(INITIAL, es + [e]) == When(Replay(INITIAL, es), e.payload)
  {
    assert (es + [e])[..|es|] == es;
  }

  lemma {:induction false} LegalPrefix(es: seq<DomainEvent>, n: nat)
    requires LegalStream(es) && n <= |es|
    ensures LegalStream(es[..n])
    decreases |es|
  {
    if n < |es| {
      LegalPrefix(es[..|es| - 1], n);
      assert es[..|es| - 1][..n] == es[..n];
    } else {
      assert es[..n] == es;
    }
  }

  /** The rule that the event at position `i` obeyed. */
  lemma LegalAt(es: seq<DomainEvent>, i: nat)
    requires LegalStream(es) && i < |es|
    ensures LegalNext(es[..i], es[i].payload)
    ensures Replay(INITIAL, es[..i + 1]) == When(Replay(INITIAL, es[..i]), es[i].payload)
  {
    LegalPrefix(es, i + 1);
    assert es[..i + 1][..i] == es[..i];
  }

  /** A command only ever raises an event that is legal on the state it read, and it is
      refused exactly when no event of its kind would be. */
  lemma CommandsAreLegal(s: AccountState, c: Command)
    ensures Decide(s, c).Raise? ==> Legal(s, Decide(s, c).payload)
    ensures c.Deposit? ==> (Decide(s, c).Refuse? <==>
      !Legal(s, MoneyDeposited(c.amount, s.balance, s.balance + c.amount)))
    ensures c.Withdraw? ==> (Decide(s, c).Refuse? <==>
      !Legal(s, MoneyWithdrawn(c.amount, s.balance, s.balance - c.amount)))
    ensures c.Freeze? ==> (Decide(s, c).Refuse? <==> !Legal(s, AccountFrozen))
    ensures c.Unfreeze? ==> (Decide(s, c).Refuse? <==> !Legal(s, AccountUnfrozen))
  {
  }

  /** Which refusal is given: a bad amount goes before a wrong status, and that before missing funds. */
  lemma RefusedBecause(s: AccountState, c: Command)
    ensures var money, d := c.Deposit? || c.Withdraw?, Decide(s, c);
      && (d == Refuse(NotPositive) <==> money && c.amount <= 0)
      && (d == Refuse(NotActive) <==> money && c.amount > 0 && s.status != Active)
      && (d == Refuse(InsufficientFunds) <==>
            c.Withdraw? && c.amount > 0 && s.status == Active && s.balance < c.amount)
      && (d == Refuse(AlreadyFrozen) <==> c.Freeze? && s.status == Frozen)
      && (d == Refuse(CannotFreezeClosed) <==> c.Freeze? && s.status == Closed)
      && (d == Refuse(NotFrozen) <==> c.Unfreeze? && s.status != Frozen)
  {
  }

  // ---------------------------------------------------------------- two balance computations

  function Delta(p: Payload): int {
    if p.MoneyDeposited? then p.amount else if p.MoneyWithdrawn? then -p.amount else 0
  }

  /** The running total of amounts, which never looks at a stored balance. */
  function DeltaTotal(es: seq<DomainEvent>): int {
    if es == [] then 0 else DeltaTotal(es[..|es| - 1]) + Delta(es[|es| - 1].payload)
  }

  /** On a legal stream the delta total and the absolute balances agree after every event,
      each money event's previousBalance is the balance left by what came before it, and no
      balance is negative. */
  lemma {:induction false} TotalsAgree(es: seq<DomainEvent>)
    requires LegalStream(es)
    ensures DeltaTotal(es) == Replay(INITIAL, es).balance >= 0
    ensures forall i | 0 <= i < |es| && IsMoney(es[i].payload) ::
      es[i].payload.previousBalance == DeltaTotal(es[..i]) && es[i].payload.newBalance == DeltaTotal(es[..i + 1])
  {
    if |es| > 0 {
      var n := |es| - 1;
      TotalsAgree(es[..n]);
      assert es[..n + 1] == es;
      forall i | 0 <= i < |es| && IsMoney(es[i].payload)
        ensures es[i].payload.previousBalance == DeltaTotal(es[..i])
        ensures es[i].payload.newBalance == DeltaTotal(es[..i + 1])
      {
        if i < n {
          assert es[..n][i] == es[i];
          assert es[..n][..i] == es[..i] && es[..n][..i + 1] == es[..i + 1];
        }
      }
    }
  }

  // ---------------------------------------------------------------- freezes

  /** Creation exactly once and first; whatever follows a freeze is its unfreeze; whatever an
      unfreeze follows is a freeze. So freezes and unfreezes alternate and no money event lies
      between a freeze and its unfreeze. */
  ghost predicate WellBracketed(es: seq<DomainEvent>) {
    && (forall i | 0 <= i < |es| :: es[i].payload == AccountCreated <==> i == 0)
    && (forall i, j | 0 <= i < j == i + 1 < |es| ::
          es[i].payload == AccountFrozen <==> es[j].payload == AccountUnfrozen)
  }

  lemma {:induction false} FrozenMeansJustFrozen(es: seq<DomainEvent>)
    requires LegalStream(es)
    ensures Replay(INITIAL, es).status == Frozen <==> es != [] && es[|es| - 1].payload == AccountFrozen
    ensures Replay(INITIAL, es).status != Closed
  {
    if es != [] {
      FrozenMeansJustFrozen(es[..|es| - 1]);
    }
  }

  lemma FreezesBracket(es: seq<DomainEvent>)
    requires LegalStream(es)
    ensures WellBracketed(es)
  {
    forall i | 0 <= i < |es| ensures es[i].payload == AccountCreated <==> i == 0 {
      LegalAt(es, i);
    }
    forall i, j | 0 <= i < j == i + 1 < |es|
      ensures es[i].payload == AccountFrozen <==> es[j].payload == AccountUnfrozen
    {
      LegalAt(es, j);
      LegalPrefix(es, j);
      FrozenMeansJustFrozen(es[..j]);
    }
  }

  // ---------------------------------------------------------------- history

  datatype HistoryEntry = HistoryEntry(timestamp: nat, deposit: bool, balance: int, change: int)

  /** The money entries of a stamped stream with the balance each leaves. */
  function History(es: seq<DomainEvent>, stamps: seq<nat>): seq<HistoryEntry>
    requires |es| == |stamps|
  {
    if es == [] then []
    else
      var n := |es| - 1;
      var p := es[n].payload;
      if IsMoney(p) then
        History(es[..n], stamps[..n]) + [HistoryEntry(stamps[n], p.MoneyDeposited?, DeltaTotal(es), Delta(p))]
      else History(es[..n], stamps[..n])
  }
}
