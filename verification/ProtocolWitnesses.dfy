/** Three runs of the two services that a reader might hope cannot happen, each from the start. */
module ProtocolWitnesses {
  import opened Options
  import opened Banking
  import opened Ledger
  import opened Transactions
  import opened Projections
  import opened Protocol
  import opened ProtocolTheorems
  import opened ProtocolRuns
  import opened MoneySafety
  import opened Deliveries
  import opened WholeTransactions
  import opened Republished
  import opened Overdrafts

  // ---------------------------------------------------------------- one account, one deposit

  const LEDGER := CustomerDb([Account(0, true)], [OutboxRow(AccountCreated(0, 0), None)], {}, [])
  const PROJECTED := TxnDb([], [], {0}, map[0 := 0], [Write(0, 0, 0)])

  /** One account is opened and projected. */
  const AFTER_OPENING := World(PROJECTED, LEDGER, [Message(AccountCreated(0, 0), CustomerSide, 0)], [Idle], [],
                               [Opening(0, Some(0))], [], [None])

  const OPENING := [OpenAccount(0), AnnounceAccount(0), Publish(CustomerSide, 0)]
  const PROJECTING := [Deliver(0), Proceed(0, Done), Proceed(0, Done)]
  const DEPOSIT := Order(Deposit, 5, None, Some(0))

  lemma AccountOpened()
    ensures Next(Next(Next(START, OpenAccount(0)), AnnounceAccount(0)), Publish(CustomerSide, 0))
         == AFTER_OPENING.(t := NO_TRANSACTIONS)
  {
    var w1 := Next(START, OpenAccount(0));
    assert w1 == START.(c := NO_ACCOUNTS.(accounts := [Account(0, true)]), openings := [Opening(0, None)]);
    var w2 := Next(w1, AnnounceAccount(0));
    assert w2 == START.(c := LEDGER, openings := [Opening(0, Some(0))]);
  }

  lemma AccountProjected()
    ensures Next(Next(Next(AFTER_OPENING.(t := NO_TRANSACTIONS), Deliver(0)), Proceed(0, Done)), Proceed(0, Done))
         == AFTER_OPENING
  {
    var w0 := AFTER_OPENING.(t := NO_TRANSACTIONS);
    var w1 := Next(w0, Deliver(0));
    assert w1 == w0.(handlers := [Seeding]);
    var w2 := Next(w1, Proceed(0, Done));
    assert w2 == w0.(handlers := [SeedMarking], t := PROJECTED.(processed := {}));
  }

  lemma OpeningRun()
    ensures Run(START, OPENING + PROJECTING) == AFTER_OPENING
  {
    AccountOpened();
    RunThree(START, OpenAccount(0), AnnounceAccount(0), Publish(CustomerSide, 0));
    AccountProjected();
    RunThree(AFTER_OPENING.(t := NO_TRANSACTIONS), Deliver(0), Proceed(0, Done), Proceed(0, Done));
    RunSplit(START, OPENING, PROJECTING);
  }

  /** A deposit of 5 has gone through the saga and its completion is event 2. */
  lemma DepositRun() returns (steps: seq<Step>)
    ensures NoFaults(steps) && NoRowTwice(Run(START, steps).bus)
    ensures GoneThrough(AFTER_OPENING, Run(START, steps), DEPOSIT, Text("k")) && OnceFor(Run(START, steps).bus, 0)
  {
    OpeningRun();
    steps := Completes(OPENING + PROJECTING, DEPOSIT, Text("k"));
  }

  /** ... and the ledger has applied it. */
  lemma AppliedRun() returns (steps: seq<Step>)
    ensures NoFaults(steps) && NoRowTwice(Run(START, steps).bus)
    ensures var w := Run(START, steps);
      && GoneThrough(AFTER_OPENING, w.(c := LEDGER), DEPOSIT, Text("k")) && OnceFor(w.bus, 0)
      && w.c == CustomerDb([Account(5, true)], [OutboxRow(AccountCreated(0, 0), None),
                            OutboxRow(BalanceUpdated(0, 0, 5, 0), Some(2))], {2}, [Effect(2, 0, DEPOSIT)])
  {
    var steps1 := DepositRun();
    RunLast(START, steps1, Complete(2, Done));
    steps := steps1 + [Complete(2, Done)];
    NoFaultsConcat(steps1, [Complete(2, Done)]);
  }

  // ---------------------------------------------------------------- the three runs

  /** One deposit of 5, made once, is applied twice without any fault: its completion row is published
      as a second event, and deduplication is per event. Its request row is published only once. */
  lemma AppliedTwiceInARun() returns (steps: seq<Step>)
    ensures NoFaults(steps)
    ensures var w := Run(START, steps);
      && Once(w.bus, RequestRow, 0) && |w.c.effects| == 2 && w.c.effects[0].txn == w.c.effects[1].txn == 0
      && BalanceIn(w.c.accounts, 0) == 10
  {
    var before := DepositRun();
    steps := AppliedTwiceMore(before, 1);
    BalanceIsItsEffects(steps, 0);
    var effects := Run(START, steps).c.effects;
    assert effects == [Effect(3, 0, DEPOSIT), Effect(4, 0, DEPOSIT)] && effects[..1] == [Effect(3, 0, DEPOSIT)];
    assert AccountFlow(effects[..1], 0) == 5;
  }

  /** A transaction can be rejected and have moved its money: its request row is published as a second
      event, and that event's saga fails once. Its completion row is published only once. */
  lemma RejectedYetAppliedInARun() returns (steps: seq<Step>)
    ensures var w := Run(START, steps);
      && Once(w.bus, CompletionRow, 0) && |w.t.txns| == 1 && w.t.txns[0].status == Rejected
      && |w.t.outbox| == 3 && w.t.outbox[1].payload == TransactionCompleted(0, DEPOSIT)
      && w.t.outbox[2].payload == TransactionRejected(0, DEPOSIT)
      && w.c.effects == [Effect(2, 0, DEPOSIT)] && w.c.accounts == [Account(5, true)]
  {
    var before := AppliedRun();
    steps := RejectedAfterAll(before, 0, 1);
  }

  /** With no fault, no deactivation and no row published twice, a withdrawal from an active account can
      be completed and never applied, in that run or any later one: two withdrawals of 5 are both
      judged against the projected balance of 5, and the first is applied. */
  lemma CompletedNeverAppliedInARun() returns (steps: seq<Step>)
    ensures NoFaults(steps) && NoRowTwice(Run(START, steps).bus)
    ensures var w := Run(START, steps);
      && |w.t.txns| == 3 && w.t.txns[1].status == w.t.txns[2].status == Completed
      && w.c.effects == [Effect(2, 0, DEPOSIT), Effect(5, 1, WithdrawalOf(0, 5))]
    ensures Unapplied(Run(START, steps), 2, 7, WithdrawalOf(0, 5))
    ensures forall more: seq<Step> :: NoEffectAfter(steps, more, 2)
  {
    var before := ShownRun();
    steps := SecondWithdrawalUnapplied(before, 0, 5, Text("a"), Text("b"));
    UnappliedForGood(steps, 2, 7, WithdrawalOf(0, 5));
  }

  /** One delivery of a balance update, undisturbed. */
  lemma UpdateShown(before: seq<Step>, e: EventId) returns (steps: seq<Step>)
    requires var w := Run(START, before);
      && e < |w.bus| == |w.handlers| == |w.concluded| && w.handlers[e] == Idle && e !in w.t.processed
      && w.bus[e].payload.BalanceUpdated?
    ensures NoFaults(before) ==> NoFaults(steps)
    ensures var w, w' := Run(START, before), Run(START, steps);
      var p := w.bus[e].payload;
      && w'.bus == w.bus && w'.c == w.c && w'.t.txns == w.t.txns
      && w'.t.projections == w.t.projections[p.account := p.newBalance]
  {
    var showing := [Deliver(e), Proceed(e, Done), Proceed(e, Done)];
    UpdateIsARun(Run(START, before), e, Faults(Done, Done, Done, Done, Done, Done));
    RunSplit(START, before, showing);
    steps := before + showing;
    NoFaultsConcat(before, showing);
  }

  /** The deposit of 5 has reached the projection. */
  lemma ShownRun() returns (steps: seq<Step>)
    ensures NoFaults(steps) && NoRowTwice(Run(START, steps).bus)
    ensures var w := Run(START, steps);
      && |w.bus| == 4 && |w.t.txns| == 1 && w.t.txns[0].key == Text("k") && w.c.accounts == [Account(5, true)]
      && 0 in w.t.projections && w.t.projections[0] == 5 && w.c.effects == [Effect(2, 0, DEPOSIT)]
  {
    var before := AppliedRun();
    RunLast(START, before, Publish(CustomerSide, 1));
    var steps1 := before + [Publish(CustomerSide, 1)];
    NoFaultsConcat(before, [Publish(CustomerSide, 1)]);
    NewRowOnce(Run(START, before).bus, Message(BalanceUpdated(0, 0, 5, 0), CustomerSide, 1));
    Reachable(before);
    steps := UpdateShown(steps1, 3);
  }
}
