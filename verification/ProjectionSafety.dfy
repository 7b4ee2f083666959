/** The projection against the ledger: balance rows, what the projection shows, and when it is up to
    date. */
module ProjectionSafety {
  import opened Options
  import opened Banking
  import opened Ledger
  import opened Transactions
  import opened Protocol
  import opened ProtocolKeeps
  import opened ProtocolTheorems
  import opened Deliveries

  /** Per account the committed `BalanceUpdated` rows form a chain that ends at its balance. */
  lemma BalanceRowsChain(steps: seq<Step>, k: nat)
    ensures var c := Run(START, steps).c;
      && (forall a: AccountId :: LastBalance(c.outbox, a) == BalanceIn(c.accounts, a))
      && (k < |c.outbox| && c.outbox[k].payload.BalanceUpdated? ==>
            c.outbox[k].payload.previousBalance == LastBalance(c.outbox[..k], c.outbox[k].payload.account))
  {
    Reachable(steps);
    var c := Run(START, steps).c;
    if k < |c.outbox| { ChainedAt(c.outbox, k); }
    forall a: AccountId ensures LastBalance(c.outbox, a) == BalanceIn(c.accounts, a) {
      assert BalancesMatch(c.accounts, c.outbox);
    }
  }

  /** The last write to an account's projection, if there was one. */
  function LastWrite(writes: seq<Write>, a: AccountId): Option<nat> {
    if writes == [] then None
    else if writes[|writes| - 1].account == a then Some(|writes| - 1)
    else LastWrite(writes[..|writes| - 1], a)
  }

  lemma {:induction false} LastWriteShows(writes: seq<Write>, a: AccountId)
    ensures a in Upserted(writes) <==> LastWrite(writes, a).Some?
    ensures LastWrite(writes, a).Some? ==>
      var k := LastWrite(writes, a).value;
      && k < |writes| && writes[k].account == a && Upserted(writes)[a] == writes[k].value
      && forall j | k < j < |writes| :: writes[j].account != a
  {
    if writes != [] {
      LastWriteShows(writes[..|writes| - 1], a);
    }
  }

  /** Every account has its opening; an `AccountCreated` row is the one row of the account it names. */
  ghost predicate OpeningsOk(w: World) {
    && |w.openings| == |w.c.accounts|
    && forall k | 0 <= k < |w.c.outbox| && w.c.outbox[k].payload.AccountCreated? ::
         var p := w.c.outbox[k].payload;
         p.account < |w.openings| && w.openings[p.account] == Opening(p.initialBalance, Some(k))
  }

  lemma CompleteOpenings(w: World, e: EventId, outcome: Outcome)
    requires Inv(w) && TermsValid(w.calls, w.t.txns) && OpeningsOk(w) && Enabled(w, Complete(e, outcome))
    ensures OpeningsOk(Act(w, Complete(e, outcome)))
  {
    var p := w.bus[e].payload;
    var c' := Apply(w.c, e, p.txn, p.order, outcome).0;
    CompletedTerms(w, e);
    ApplyMeans(w.c, e, p.txn, p.order, outcome);
    forall k | |w.c.outbox| <= k < |c'.outbox| ensures c'.outbox[k].payload.BalanceUpdated? {
      NewRowShowsBalance(w.c, e, p.txn, p.order, outcome, k);
    }
  }

  lemma {:induction false} OpeningsStayOk(steps: seq<Step>)
    ensures OpeningsOk(Run(START, steps))
  {
    if steps != [] {
      var w, s := Run(START, steps[..|steps| - 1]), steps[|steps| - 1];
      OpeningsStayOk(steps[..|steps| - 1]);
      if Enabled(w, s) && s.Complete? {
        Reachable(steps[..|steps| - 1]);
        TermsStayValid(steps[..|steps| - 1]);
        CompleteOpenings(w, s.e, s.outcome);
      }
    }
  }

  /** An account is announced at most once, with what its opening asked for, and it exists. */
  lemma AnnouncedOnce(steps: seq<Step>, j: nat, k: nat)
    requires var rows := Run(START, steps).c.outbox;
      j < |rows| && k < |rows| && rows[j].payload.AccountCreated? && rows[k].payload.AccountCreated?
      && rows[j].payload.account == rows[k].payload.account
    ensures j == k && Run(START, steps).c.outbox[k].payload.account < |Run(START, steps).c.accounts|
  {
    OpeningsStayOk(steps);
  }

  // ---------------------------------------------------------------- what the projection shows

  /** At some moment of the run account `a` was in the ledger's table with this balance. */
  ghost predicate Had(steps: seq<Step>, n: nat, a: AccountId, balance: int) {
    n <= |steps| &&
    var accounts := Run(START, steps[..n]).c.accounts;
    a < |accounts| && accounts[a].balance == balance
  }

  lemma HadEarlier(steps: seq<Step>, n: nat, a: AccountId, balance: int)
    requires steps != [] && Had(steps[..|steps| - 1], n, a, balance)
    ensures Had(steps, n, a, balance)
  {
    assert steps[..|steps| - 1][..n] == steps[..n];
  }

  /** Every account was once there with nothing on it. */
  lemma {:induction false} OnceEmpty(steps: seq<Step>, a: AccountId) returns (n: nat)
    requires a < |Run(START, steps).c.accounts|
    ensures Had(steps, n, a, 0)
  {
    var m := |steps| - 1;
    var w, s := Run(START, steps[..m]), steps[m];
    if a < |w.c.accounts| {
      n := OnceEmpty(steps[..m], a);
      HadEarlier(steps, n, a, 0);
    } else {
      n := |steps|;
      assert steps[..n] == steps;
      if Enabled(w, s) && s.Complete? {
        ApplyMeans(w.c, s.e, w.bus[s.e].payload.txn, w.bus[s.e].payload.order, s.outcome);
      }
    }
  }

  /** What a `BalanceUpdated` row says was its account's balance at some moment of the run. */
  lemma {:induction false} RowWasBalance(steps: seq<Step>, k: nat) returns (n: nat)
    requires k < |Run(START, steps).c.outbox| && Run(START, steps).c.outbox[k].payload.BalanceUpdated?
    ensures var p := Run(START, steps).c.outbox[k].payload; Had(steps, n, p.account, p.newBalance)
  {
    var m := |steps| - 1;
    var w, s := Run(START, steps[..m]), steps[m];
    var p := Run(START, steps).c.outbox[k].payload;
    OutboxesGrow(w, s);
    if k < |w.c.outbox| {
      n := RowWasBalance(steps[..m], k);
      HadEarlier(steps, n, p.account, p.newBalance);
    } else {
      n := |steps|;
      assert steps[..n] == steps;
      Reachable(steps[..m]);
      TermsStayValid(steps[..m]);
      CompletedTerms(w, s.e);
      NewRowShowsBalance(w.c, s.e, w.bus[s.e].payload.txn, w.bus[s.e].payload.order, s.outcome, k);
    }
  }

  /** What the projection shows for an account is a balance it really had: at some moment of the run
      the account was there with exactly that balance. */
  lemma ProjectionIsAPastBalance(steps: seq<Step>, a: AccountId) returns (n: nat)
    requires a in Run(START, steps).t.projections
    ensures Had(steps, n, a, Run(START, steps).t.projections[a])
  {
    var w := Run(START, steps);
    Reachable(steps);
    LastWriteShows(w.t.writes, a);
    var write := w.t.writes[LastWrite(w.t.writes, a).value];
    WriteAt(w.t.writes, w.c.outbox, LastWrite(w.t.writes, a).value);
    if w.c.outbox[write.row].payload.AccountCreated? {
      NamesExist(steps);
      n := OnceEmpty(steps, a);
    } else {
      n := RowWasBalance(steps, write.row);
    }
  }

  // ---------------------------------------------------------------- when the projection is up to date

  /** The last row about an account in the ledger's outbox. */
  function LastRow(rows: seq<OutboxRow>, a: AccountId): Option<nat> {
    if rows == [] then None
    else
      var p := rows[|rows| - 1].payload;
      if p.BalanceUpdated? && p.account == a then Some(|rows| - 1) else LastRow(rows[..|rows| - 1], a)
  }

  lemma {:induction false} LastRowTells(rows: seq<OutboxRow>, a: AccountId)
    ensures LastRow(rows, a).None? ==> LastBalance(rows, a) == 0
    ensures LastRow(rows, a).Some? ==>
      var k := LastRow(rows, a).value;
      k < |rows| && rows[k].payload.BalanceUpdated? && rows[k].payload.account == a
      && rows[k].payload.newBalance == LastBalance(rows, a)
    ensures forall j | 0 <= j < |rows| && rows[j].payload.BalanceUpdated? && rows[j].payload.account == a ::
      LastRow(rows, a).Some? && j <= LastRow(rows, a).value
  {
    if rows != [] {
      var n := |rows| - 1;
      LastRowTells(rows[..n], a);
      assert forall j | 0 <= j < n :: rows[..n][j] == rows[j];
    }
  }

  /** Write `i` is one of account `a`, made after write `k`. */
  predicate Later(writes: seq<Write>, a: AccountId, k: nat, i: int) { k < i < |writes| && writes[i].account == a }

  /** The account's writes after write `k` copy ledger rows, in the order of those rows. */
  ghost predicate InOrder(writes: seq<Write>, rows: seq<OutboxRow>, a: AccountId, k: nat) {
    && (forall i | Later(writes, a, k, i) :: writes[i].row < |rows| && rows[writes[i].row].payload.BalanceUpdated?)
    && (forall i, j | Later(writes, a, k, i) && Later(writes, a, k, j) && i <= j :: writes[i].row <= writes[j].row)
  }

  /** The newest ledger row about the account is among them. */
  ghost predicate AllDelivered(writes: seq<Write>, rows: seq<OutboxRow>, a: AccountId, k: nat) {
    LastRow(rows, a).Some? ==> exists i :: Later(writes, a, k, i) && writes[i].row == LastRow(rows, a).value
  }

  /** If the newest row about the account has been written in order, it was written last. */
  lemma NewestWrittenLast(writes: seq<Write>, rows: seq<OutboxRow>, a: AccountId, k: nat)
    requires WritesOk(writes, rows) && k < |writes| && writes[k].account == a
    requires InOrder(writes, rows, a, k) && AllDelivered(writes, rows, a, k)
    ensures LastWrite(writes, a).Some?
    ensures var last := LastWrite(writes, a).value;
      match LastRow(rows, a)
      case None => last == k
      case Some(row) => last < |writes| && writes[last].row == row
  {
    LastWriteShows(writes, a);
    LastRowTells(rows, a);
    var last := LastWrite(writes, a).value;
    WriteAt(writes, rows, last);
    assert last == k || Later(writes, a, k, last);
    if LastRow(rows, a).Some? {
      var i :| Later(writes, a, k, i) && writes[i].row == LastRow(rows, a).value;
      assert i <= last;
    }
  }

  /** Delivered in order after the account's creation, and delivered completely, the projection is
      the ledger's balance. */
  lemma ProjectionInSync(steps: seq<Step>, a: AccountId, k: nat)
    requires var w := Run(START, steps);
      && k < |w.t.writes| && w.t.writes[k].account == a && w.t.writes[k].row < |w.c.outbox|
      && w.c.outbox[w.t.writes[k].row].payload.AccountCreated?
      && InOrder(w.t.writes, w.c.outbox, a, k) && AllDelivered(w.t.writes, w.c.outbox, a, k)
    ensures var w := Run(START, steps);
      a in w.t.projections && a < |w.c.accounts| && w.t.projections[a] == w.c.accounts[a].balance
  {
    var w := Run(START, steps);
    Reachable(steps);
    NamesExist(steps);
    NewestWrittenLast(w.t.writes, w.c.outbox, a, k);
    LastWriteShows(w.t.writes, a);
    LastRowTells(w.c.outbox, a);
    WriteAt(w.t.writes, w.c.outbox, LastWrite(w.t.writes, a).value);
    assert LastBalance(w.c.outbox, a) == BalanceIn(w.c.accounts, a);
  }
}
