/** The poller and the two services together: what the transaction service's poller publishes is what
    the services see, so with no fault in publishing every transaction is applied at most once. */
module Publishing {
  import opened Banking
  import opened Ledger
  import opened Protocol
  import opened ProtocolKeeps
  import opened ProtocolTheorems
  import opened MoneySafety
  import P = OutboxRuns

  /** The rows of the transaction outbox in the order they were published, as the poller's log has
      them: both machines name a row by its place in the order of arrival. */
  function Sent(bus: seq<Message>): seq<nat> {
    if bus == [] then []
    else
      var m := bus[|bus| - 1];
      Sent(bus[..|bus| - 1]) + if m.side == TxnSide then [m.row] else []
  }

  lemma {:induction false} SentHas(bus: seq<Message>, e: EventId)
    requires e < |bus| && bus[e].side == TxnSide
    ensures bus[e].row in Sent(bus)
  {
    if e < |bus| - 1 { SentHas(bus[..|bus| - 1], e); }
  }

  lemma {:induction false} NoneTwiceIsOnce(bus: seq<Message>, topic: Topic, x: TxnId)
    requires P.NoneTwice(Sent(bus))
    requires forall e | 0 <= e < |bus| && IsAbout(bus[e].payload, topic, x) :: bus[e].side == TxnSide
    ensures Once(bus, topic, x)
  {
    if bus != [] {
      var n := |bus| - 1;
      var m := bus[n];
      assert Sent(bus) == Sent(bus[..n]) || Sent(bus)[..|Sent(bus)| - 1] == Sent(bus[..n]);
      assert forall e | 0 <= e < n :: bus[..n][e] == bus[e];
      NoneTwiceIsOnce(bus[..n], topic, x);
      forall e | 0 <= e < n && IsAbout(m.payload, topic, x) ensures bus[e].side != m.side || bus[e].row != m.row {
        if bus[e].side == TxnSide { SentHas(bus[..n], e); }
      }
    }
  }

  /** A run of the services whose transaction rows were published by a poller in which no call failed
      and nothing crashed: no row of any transaction is published twice. */
  lemma PublishedOnce(polling: seq<P.Step>, steps: seq<Step>, x: TxnId)
    requires P.FaultFree(polling) && Sent(Run(START, steps).bus) == P.Run(P.START, polling).log
    ensures OnceFor(Run(START, steps).bus, x)
  {
    var w := Run(START, steps);
    P.SentOnceWithoutFaults(polling);
    Reachable(steps);
    forall e | 0 <= e < |w.bus| ensures IsAccountRow(w.bus[e].payload) || w.bus[e].side == TxnSide { SideOf(w, e); }
    NoneTwiceIsOnce(w.bus, RequestRow, x);
    NoneTwiceIsOnce(w.bus, CompletionRow, x);
  }

  /** So, whatever else fails, crashes or is redelivered: whatever changed balances is a completed
      transaction, and it changed them once. */
  lemma AppliedOnceWithoutFaults(polling: seq<P.Step>, steps: seq<Step>, i: nat, j: nat)
    requires P.FaultFree(polling) && Sent(Run(START, steps).bus) == P.Run(P.START, polling).log
    requires var effects := Run(START, steps).c.effects;
      i < |effects| && j < |effects| && effects[i].txn == effects[j].txn
    ensures var w := Run(START, steps);
      i == j && w.c.effects[i].txn < |w.t.txns| && w.t.txns[w.c.effects[i].txn].status == Completed
  {
    PublishedOnce(polling, steps, Run(START, steps).c.effects[i].txn);
    OnlyCompletedOnce(steps, i);
  }
}
