/** Minimum balances under concurrent postings
    (src/ledgerflow/application/services.py:171-203, src/ledgerflow/adapters/repositories.py:114-123).
    Only floored accounts that a posting decreases are locked; every other posting runs free. */
module Floors {
  import opened Seqs
  import opened Ledger
  import opened WritePath
  import opened Snapshots
  import B = Books

  function DeltaTable(ch: Chart, legs: seq<Entry>): map<string, int>
    requires forall e | e in legs :: e.account in ch
  {
    if legs == [] then map[]
    else
      assert legs == legs[..|legs| - 1] + [legs[|legs| - 1]];
      var table, e := DeltaTable(ch, legs[..|legs| - 1]), legs[|legs| - 1];
      table[e.account := (if e.account in table then table[e.account] else 0)
                         + SignedAmount(ch[e.account].NormalBalance(), e.account, e)]
  }

  lemma DeltaTablePush(ch: Chart, legs: seq<Entry>, e: Entry)
    requires (forall x | x in legs :: x.account in ch) && e.account in ch
    ensures DeltaTable(ch, legs + [e]) ==
            DeltaTable(ch, legs)[
              e.account := (if e.account in DeltaTable(ch, legs) then DeltaTable(ch, legs)[e.account] else 0)
                           + SignedAmount(ch[e.account].NormalBalance(), e.account, e)]
  {
    hide SignedAmount;
    var all := legs + [e];
    assert all[..|all| - 1] == legs && all[|all| - 1] == e;
    assert forall x | x in all :: x.account in ch;
  }

  lemma OrderPush(ch: Chart, legs: seq<Entry>, e: Entry)
    requires (forall x | x in legs :: x.account in ch) && e.account in ch
    ensures Dedup(AccountsOf(legs + [e])) ==
            if e.account in DeltaTable(ch, legs) then Dedup(AccountsOf(legs)) else Dedup(AccountsOf(legs)) + [e.account]
  {
    hide DeltaTable, Dedup, Delta;
    assert AccountsOf(legs + [e]) == AccountsOf(legs) + [e.account];
    DedupPush(AccountsOf(legs), e.account);
    DeltaTableIsEffect(ch, legs, e.account);
  }

  /** The table lists the accounts touched, each with the net effect of all its legs. */
  lemma {:induction false} DeltaTableIsEffect(ch: Chart, legs: seq<Entry>, a: string)
    requires (forall e | e in legs :: e.account in ch) && a in ch
    ensures a in DeltaTable(ch, legs) <==> a in AccountsOf(legs)
    ensures Delta(ch, legs, a) == if a in DeltaTable(ch, legs) then DeltaTable(ch, legs)[a] else 0
  {
    if legs != [] {
      var front, e := legs[..|legs| - 1], legs[|legs| - 1];
      DeltaTableIsEffect(ch, front, a);
      assert AccountsOf(legs) == AccountsOf(front) + [e.account];
    }
  }

  lemma EmptyTable(ch: Chart)
    ensures DeltaTable(ch, []) == map[] && Dedup(AccountsOf([])) == []
  {
  }

  /** The `deltas` loop of `_check_floors`; `order` is the dictionary's key order. */
  method Deltas(ch: Chart, legs: seq<Entry>) returns (order: seq<string>, deltas: map<string, int>)
    requires forall e | e in legs :: e.account in ch
    ensures order == Dedup(AccountsOf(legs)) && deltas == DeltaTable(ch, legs)
  {
    hide DeltaTable, Dedup, AccountsOf;
    deltas, order := map[], [];
    EmptyTable(ch);
    assert legs[..0] == [];
    for i := 0 to |legs|
      invariant order == Dedup(AccountsOf(legs[..i])) && deltas == DeltaTable(ch, legs[..i])
    {
      var e := legs[i];
      assert legs[..i + 1] == legs[..i] + [e];
      DeltaTablePush(ch, legs[..i], e);
      OrderPush(ch, legs[..i], e);
      var sign := if e.direction == ch[e.account].NormalBalance() then 1 else -1;
      var before := 0;
      if e.account in deltas {
        before := deltas[e.account];
      } else {
        order := order + [e.account];
      }
      deltas := deltas[e.account := before + sign * e.amount.minor];
    }
    assert legs[..|legs|] == legs;
  }

  /** Which accounts `_check_floors` locks and reads, in order. */
  method AccountsToCheck(ch: Chart, legs: seq<Entry>) returns (todo: seq<string>)
    requires forall e | e in legs :: e.account in ch
    ensures todo == ToCheck(ch, legs)
  {
    var order, deltas := Deltas(ch, legs);
    todo := [];
    for i := 0 to |order|
      invariant todo == Filter(order[..i], MustCheck(ch, legs))
    {
      assert order[..i + 1] == order[..i] + [order[i]];
      FilterPush(order[..i], order[i], MustCheck(ch, legs));
      assert order[i] in order;
      TouchedInChart(ch, legs, order[i]);
      DeltaTableIsEffect(ch, legs, order[i]);
      if ch[order[i]].floor.Some? && deltas[order[i]] < 0 {
        todo := todo + [order[i]];
      }
    }
    assert order[..|order|] == order;
  }

  lemma TouchedInChart(ch: Chart, legs: seq<Entry>, a: string)
    requires (forall e | e in legs :: e.account in ch) && a in AccountsOf(legs)
    ensures a in ch
  {
    var i :| 0 <= i < |legs| && AccountsOf(legs)[i] == a;
    assert legs[i] in legs;
  }

  ghost predicate Floored(ch: Chart, a: string) { a in ch && ch[a].floor.Some? }

  ghost predicate AtFloor(ch: Chart, entries: seq<EntryRow>, a: string)
    requires Floored(ch, a)
  {
    Balance(entries, ch[a]) >= ch[a].floor.value
  }

  /** The posting decreases a floored account. */
  ghost predicate Draws(ch: Chart, legs: seq<Entry>, a: string) { Floored(ch, a) && Delta(ch, legs, a) < 0 }

  /** The account is locked by this posting and can take its delta. */
  ghost predicate Cleared(ch: Chart, entries: seq<EntryRow>, legs: seq<Entry>, locks: set<string>, a: string)
    requires Floored(ch, a)
  {
    a in locks && Balance(entries, ch[a]) + Delta(ch, legs, a) >= ch[a].floor.value
  }

  function Todo(f: Flight): seq<string>
  {
    if f.phase.Checking? || f.phase.Holding? then f.phase.todo else []
  }

  ghost predicate FlightFloors(ch: Chart, entries: seq<EntryRow>, f: Flight)
  {
    && (f.req.Reverse? ==> f.locks == {} && Todo(f) == [] && !f.phase.Holding?)
    && (f.req.Snapshots? || !f.Built() ==> f.rows == [] && f.locks == {})
    && (f.phase.Holding? ==> f.phase.todo != [] && f.phase.todo[0] in f.locks)
    && (f.Built() && !f.req.Reverse? ==>
          forall a | Draws(ch, f.legs, a) :: a in Todo(f) || Cleared(ch, entries, f.legs, f.locks, a))
    && (f.HasRows() ==> LegsOf(f.rows) == f.legs)
    && (f.rows != [] ==> f.HasRows())
  }

  ghost predicate FloorInv(ch: Chart, s: State)
  {
    && (forall a | Floored(ch, a) :: AtFloor(ch, s.db.entries, a))
    && (forall t | t in s.flights :: FlightFloors(ch, s.db.entries, s.flights[t]))
    && (forall t, u | t in s.flights && u in s.flights && t != u :: s.flights[t].locks !! s.flights[u].locks)
  }

  /** A posting only draws on accounts its legs touch, so the check list misses none. */
  lemma DrawnIsListed(ch: Chart, legs: seq<Entry>, a: string)
    requires Floored(ch, a) && Delta(ch, legs, a) < 0
    ensures a in ToCheck(ch, legs)
  {
    if a !in AccountsOf(legs) {
      forall e | e in legs ensures SignedOf(ch[a].NormalBalance(), a)(e) == 0 {
        var i :| 0 <= i < |legs| && legs[i] == e;
        assert AccountsOf(legs)[i] == e.account;
      }
      SumZero(legs, SignedOf(ch[a].NormalBalance(), a));
    }
  }

  lemma StatementFloors(ch: Chart, s: State, t: nat, f: Flight, a: Action)
    requires ChartOk(ch) && CacheInv(ch, s)
    requires t in s.flights && f == s.flights[t] && !f.req.Snapshots?
    requires FlightFloors(ch, s.db.entries, f)
    ensures var s' := Statement(ch, s, t, f, a);
            && OnlyFlight(s, s', t)
            && (t in s'.flights ==>
                  && FlightFloors(ch, s.db.entries, s'.flights[t])
                  && forall x | x in s'.flights[t].locks && x !in f.locks ::
                       forall u | u in s.flights && u != t :: x !in s.flights[u].locks)
  {
    hide CachedBalance, CacheInv, IsJournal, Resolved, TxnFree, EventFree, StillPosted, Draws, Cleared, Floored;
    if a.Build? {
      BuildFloors(ch, s, t, f, a);
    } else if a.ReadBalance? {
      ReadBalanceFloors(ch, s, t, f, a);
    } else if a.InsertEntries? {
      InsertFloors(ch, s, t, f, a);
    } else if a.Lock? {
      LockFloors(ch, s, t, f, a);
    } else {
      QuietFloors(ch, s, t, f, a);
    }
  }

  lemma InsertFloors(ch: Chart, s: State, t: nat, f: Flight, a: Action)
    requires t in s.flights && f == s.flights[t] && !f.req.Snapshots? && a.InsertEntries?
    requires FlightFloors(ch, s.db.entries, f)
    ensures var s' := Statement(ch, s, t, f, a);
            OnlyFlight(s, s', t) && t in s'.flights && s'.flights[t].locks == f.locks
            && FlightFloors(ch, s.db.entries, s'.flights[t])
  {
    assert LegsOf(Number(s.nextEntry, f.req.txnId, f.legs)) == f.legs;
  }

  lemma LockFloors(ch: Chart, s: State, t: nat, f: Flight, a: Action)
    requires t in s.flights && f == s.flights[t] && !f.req.Snapshots? && a.Lock?
    requires FlightFloors(ch, s.db.entries, f)
    ensures var s' := Statement(ch, s, t, f, a);
            OnlyFlight(s, s', t) && t in s'.flights && FlightFloors(ch, s.db.entries, s'.flights[t])
            && forall x | x in s'.flights[t].locks && x !in f.locks ::
                 forall u | u in s.flights && u != t :: x !in s.flights[u].locks
  {
  }

  /** The statements that neither build, lock, read a balance nor insert entries. */
  lemma QuietFloors(ch: Chart, s: State, t: nat, f: Flight, a: Action)
    requires t in s.flights && f == s.flights[t] && !f.req.Snapshots?
    requires !a.Build? && !a.ReadBalance? && !a.Lock? && !a.InsertEntries?
    requires FlightFloors(ch, s.db.entries, f)
    ensures var s' := Statement(ch, s, t, f, a);
            OnlyFlight(s, s', t)
            && (t in s'.flights ==> s'.flights[t].locks == f.locks && FlightFloors(ch, s.db.entries, s'.flights[t]))
  {
    hide TxnFree, EventFree, Delta, Balance;
  }

  lemma BuildFloors(ch: Chart, s: State, t: nat, f: Flight, a: Action)
    requires t in s.flights && f == s.flights[t] && !f.req.Snapshots? && a.Build?
    requires FlightFloors(ch, s.db.entries, f)
    ensures var s' := Statement(ch, s, t, f, a);
            OnlyFlight(s, s', t) && t in s'.flights && s'.flights[t].locks == f.locks
            && FlightFloors(ch, s.db.entries, s'.flights[t])
  {
    if f.req.Post? {
      forall x | Floored(ch, x) && Delta(ch, f.req.legs, x) < 0 ensures x in ToCheck(ch, f.req.legs) {
        DrawnIsListed(ch, f.req.legs, x);
      }
    }
  }

  lemma ReadBalanceFloors(ch: Chart, s: State, t: nat, f: Flight, a: Action)
    requires ChartOk(ch) && CacheInv(ch, s)
    requires t in s.flights && f == s.flights[t] && !f.req.Snapshots? && a.ReadBalance?
    requires FlightFloors(ch, s.db.entries, f)
    ensures var s' := Statement(ch, s, t, f, a);
            OnlyFlight(s, s', t)
            && (t in s'.flights ==> s'.flights[t].locks == f.locks && FlightFloors(ch, s.db.entries, s'.flights[t]))
  {
    if f.phase.Holding? && Floored(ch, f.phase.todo[0]) {
      var todo := f.phase.todo;
      CachedIsFold(ch, s, todo[0]);
      forall x | x in todo ensures x == todo[0] || x in todo[1..] {
      }
    }
  }

  /** A commit moves every balance by the posting's delta. */
  lemma CommitMoves(ch: Chart, db: Db, f: Flight, a: string)
    requires ChartOk(ch) && a in ch && LegsOf(f.rows) == f.legs
    ensures Balance(db.entries + f.rows, ch[a]) == Balance(db.entries, ch[a]) + Delta(ch, f.legs, a)
  {
    var weigh := SignedRow(ch[a].NormalBalance(), a);
    SumConcat(db.entries, f.rows, weigh);
    forall i | 0 <= i < |f.rows| ensures SignedOf(ch[a].NormalBalance(), a)(f.legs[i]) == 1 * weigh(f.rows[i]) {
      assert f.legs[i] == LegsOf(f.rows)[i];
    }
    SumMapped(f.rows, f.legs, weigh, SignedOf(ch[a].NormalBalance(), a), 1);
  }

  lemma CommitKeepsFloors(ch: Chart, s: State, t: nat, f: Flight)
    requires ChartOk(ch) && FloorInv(ch, s) && t in s.flights && f == s.flights[t]
    requires f.req.Post? && f.phase.Finished?
    ensures FloorInv(ch, DoCommit(s, t, f))
  {
    var s' := DoCommit(s, t, f);
    if s' != s {
      assert FlightFloors(ch, s.db.entries, f);
      forall a | Floored(ch, a)
        ensures AtFloor(ch, s'.db.entries, a)
        ensures Balance(s'.db.entries, ch[a]) >= Balance(s.db.entries, ch[a]) || a in f.locks
      {
        CommitMoves(ch, s.db, f, a);
        assert AtFloor(ch, s.db.entries, a);
        assert Draws(ch, f.legs, a) ==> Cleared(ch, s.db.entries, f.legs, f.locks, a);
      }
      forall u | u in s'.flights ensures FlightFloors(ch, s'.db.entries, s'.flights[u]) {
        if u != t {
          OthersKeepFloors(ch, s, s', f, u);
        }
      }
    }
  }

  lemma OthersKeepFloors(ch: Chart, s: State, s': State, f: Flight, u: nat)
    requires u in s.flights && FlightFloors(ch, s.db.entries, s.flights[u]) && f.locks !! s.flights[u].locks
    requires forall a | Floored(ch, a) :: Balance(s'.db.entries, ch[a]) >= Balance(s.db.entries, ch[a]) || a in f.locks
    ensures FlightFloors(ch, s'.db.entries, s.flights[u])
  {
    var g := s.flights[u];
    forall a | Draws(ch, g.legs, a) && g.Built() && !g.req.Reverse?
      ensures a in Todo(g) || Cleared(ch, s'.db.entries, g.legs, g.locks, a)
    {
      assert a in Todo(g) || Cleared(ch, s.db.entries, g.legs, g.locks, a);
    }
  }

  // ---- reversals, which check nothing ----

  /** A posting that has passed its check of this account and has yet to commit. */
  ghost predicate Passed(ch: Chart, g: Flight, a: string)
  {
    g.req.Post? && g.Built() && Draws(ch, g.legs, a) && a !in Todo(g)
  }

  /** The account can take the reversal, and after it every posting that counts on the balance it read
      before. */
  ghost predicate Takes(ch: Chart, s: State, t: nat, a: string)
    requires t in s.flights && Floored(ch, a)
  {
    var after := Balance(s.db.entries, ch[a]) + Delta(ch, s.flights[t].legs, a);
    && after >= ch[a].floor.value
    && forall u | u in s.flights && u != t && Passed(ch, s.flights[u], a) ::
         after + Delta(ch, s.flights[u].legs, a) >= ch[a].floor.value
  }

  ghost predicate ReversalFits(ch: Chart, s: State, t: nat)
    requires t in s.flights
  {
    forall a | Floored(ch, a) :: Takes(ch, s, t, a)
  }

  /** In terms of the transaction being reversed: what it gave is taken back. */
  lemma TakesBack(ch: Chart, s: State, t: nat, a: string)
    requires B.BooksInv(s) && t in s.flights && s.flights[t].req.Reverse? && s.flights[t].Built() && Floored(ch, a)
    ensures Delta(ch, s.flights[t].legs, a) == -Delta(ch, TxnLegs(s.db, s.flights[t].req.target), a)
  {
    assert B.FlightOk(s.db, s.flights[t]);
    ReversalNegates(TxnLegs(s.db, s.flights[t].req.target), ch[a].NormalBalance(), a, "");
  }

  /** What a reversal's commit does to one other transaction's standing. */
  lemma OtherAfterReversal(ch: Chart, s: State, s': State, t: nat, u: nat)
    requires FloorInv(ch, s) && t in s.flights && u in s.flights && u != t
    requires forall a | Floored(ch, a) ::
               Balance(s'.db.entries, ch[a]) == Balance(s.db.entries, ch[a]) + Delta(ch, s.flights[t].legs, a)
    ensures FlightFloors(ch, s'.db.entries, s.flights[u]) <==>
            forall a | Floored(ch, a) && Passed(ch, s.flights[u], a) ::
              Balance(s'.db.entries, ch[a]) + Delta(ch, s.flights[u].legs, a) >= ch[a].floor.value
  {
    var g := s.flights[u];
    assert FlightFloors(ch, s.db.entries, g);
    forall a | Passed(ch, g, a) ensures a in g.locks {
      assert a in Todo(g) || Cleared(ch, s.db.entries, g.legs, g.locks, a);
    }
  }

  /** Exactly when a reversal's commit keeps the floor invariant, whatever else is going on: when every
      floored account can take it, alone and together with each posting that has passed its check. */
  lemma ReversalCommitIff(ch: Chart, s: State, t: nat)
    requires ChartOk(ch) && FloorInv(ch, s) && t in s.flights && s.flights[t].req.Reverse?
    requires s.flights[t].phase.Finished? && s.flights[t].event.Some? && TriggerPasses(s.db, s.flights[t])
    ensures FloorInv(ch, Apply(ch, s, Commit(t))) <==> ReversalFits(ch, s, t)
  {
    hide TriggerPasses, AtFloor;
    var f, s' := s.flights[t], Apply(ch, s, Commit(t));
    ReversalCommits(ch, s, t);
    forall a | Floored(ch, a)
      ensures Balance(s'.db.entries, ch[a]) == Balance(s.db.entries, ch[a]) + Delta(ch, f.legs, a)
    {
      assert FlightFloors(ch, s.db.entries, f);
      CommitMoves(ch, s.db, f, a);
    }
    hide Apply, CommittedDb, FlightFloors;
    forall u | u in s.flights && u != t
      ensures FlightFloors(ch, s'.db.entries, s.flights[u]) <==>
              forall a | Floored(ch, a) && Passed(ch, s.flights[u], a) ::
                Balance(s'.db.entries, ch[a]) + Delta(ch, s.flights[u].legs, a) >= ch[a].floor.value
    {
      OtherAfterReversal(ch, s, s', t, u);
    }
    AfterReversalIff(ch, s, s', t);
  }

  lemma ReversalCommits(ch: Chart, s: State, t: nat)
    requires FloorInv(ch, s) && t in s.flights && s.flights[t].req.Reverse?
    requires s.flights[t].phase.Finished? && s.flights[t].event.Some? && TriggerPasses(s.db, s.flights[t])
    ensures var f, s' := s.flights[t], Apply(ch, s, Commit(t));
            && s'.db.entries == s.db.entries + f.rows
            && t in s'.flights && s'.flights == s.flights[t := s'.flights[t]]
            && s'.flights[t].locks == {} && FlightFloors(ch, s'.db.entries, s'.flights[t])
  {
  }

  lemma AfterReversalIff(ch: Chart, s: State, s': State, t: nat)
    requires FloorInv(ch, s) && t in s.flights && t in s'.flights && s'.flights == s.flights[t := s'.flights[t]]
    requires s'.flights[t].locks == {} && FlightFloors(ch, s'.db.entries, s'.flights[t])
    requires forall a | Floored(ch, a) ::
               Balance(s'.db.entries, ch[a]) == Balance(s.db.entries, ch[a]) + Delta(ch, s.flights[t].legs, a)
    requires forall u | u in s.flights && u != t ::
               FlightFloors(ch, s'.db.entries, s.flights[u]) <==>
               forall a | Floored(ch, a) && Passed(ch, s.flights[u], a) ::
                 Balance(s'.db.entries, ch[a]) + Delta(ch, s.flights[u].legs, a) >= ch[a].floor.value
    ensures FloorInv(ch, s') <==> ReversalFits(ch, s, t)
  {
    hide FlightFloors, Passed, Delta, Balance;
    if ReversalFits(ch, s, t) {
      assert forall a | Floored(ch, a) :: Takes(ch, s, t, a) && AtFloor(ch, s'.db.entries, a);
      forall u | u in s'.flights ensures FlightFloors(ch, s'.db.entries, s'.flights[u]) {
        assert forall a | Floored(ch, a) && u != t && Passed(ch, s.flights[u], a) :: Takes(ch, s, t, a);
      }
    }
    if FloorInv(ch, s') {
      forall a | Floored(ch, a) ensures Takes(ch, s, t, a) {
        assert AtFloor(ch, s'.db.entries, a);
        forall u | u in s.flights && u != t && Passed(ch, s.flights[u], a)
          ensures Balance(s'.db.entries, ch[a]) + Delta(ch, s.flights[u].legs, a) >= ch[a].floor.value
        {
          assert FlightFloors(ch, s'.db.entries, s'.flights[u]);
        }
      }
    }
  }

  /** And it matters: a reversal that leaves too little for a posting that is about to commit, commit
      that posting after it, and the account is below its floor. */
  lemma UnfitReversalBreaks(ch: Chart, s: State, t: nat, u: nat, a: string)
    requires ChartOk(ch) && B.BooksInv(s) && FloorInv(ch, s) && Floored(ch, a)
    requires t in s.flights && s.flights[t].req.Reverse? && s.flights[t].phase.Finished?
    requires u in s.flights && u != t && s.flights[u].phase.Finished? && Passed(ch, s.flights[u], a)
    requires Balance(s.db.entries, ch[a]) + Delta(ch, s.flights[t].legs, a) + Delta(ch, s.flights[u].legs, a)
             < ch[a].floor.value
    ensures !AtFloor(ch, Apply(ch, Apply(ch, s, Commit(t)), Commit(u)).db.entries, a)
  {
    hide B.BooksInv, TriggerPasses, Balance, Delta;
    var m := Apply(ch, s, Commit(t));
    assert FlightFloors(ch, s.db.entries, s.flights[t]) && FlightFloors(ch, s.db.entries, s.flights[u]);
    B.TriggerOk(s, t);
    CommitMoves(ch, s.db, s.flights[t], a);
    B.StepKeepsBooks(ch, s, Commit(t));
    assert m.flights[u] == s.flights[u] && m.db.entries == s.db.entries + s.flights[t].rows;
    B.TriggerOk(m, u);
    CommitMoves(ch, m.db, m.flights[u], a);
  }

  lemma StatementKeepsFloors(ch: Chart, s: State, t: nat, a: Action)
    requires ChartOk(ch) && CacheInv(ch, s) && FloorInv(ch, s)
    requires t in s.flights && !s.flights[t].req.Snapshots?
    ensures FloorInv(ch, Statement(ch, s, t, s.flights[t], a))
  {
    StatementFloors(ch, s, t, s.flights[t], a);
  }

  lemma CommitFloors(ch: Chart, s: State, t: nat)
    requires ChartOk(ch) && FloorInv(ch, s) && t in s.flights
    requires s.flights[t].phase.Finished? && !s.flights[t].req.Snapshots?
    requires s.flights[t].req.Reverse? ==> ReversalFits(ch, s, t)
    ensures FloorInv(ch, DoCommit(s, t, s.flights[t]))
  {
    hide ReversalFits, FloorInv, TriggerPasses;
    var f := s.flights[t];
    if f.req.Post? {
      CommitKeepsFloors(ch, s, t, f);
    } else if f.event.Some? && TriggerPasses(s.db, f) {
      ReversalCommitIff(ch, s, t);
      assert Apply(ch, s, Commit(t)) == DoCommit(s, t, f);
    }
  }

  /** A reversal is about to commit. */
  ghost predicate Reverses(s: State, a: Action)
  {
    a.Commit? && a.t in s.flights && s.flights[a.t].req.Reverse? && s.flights[a.t].phase.Finished?
  }

  lemma StepKeepsFloors(ch: Chart, s: State, a: Action)
    requires ChartOk(ch) && CacheInv(ch, s) && FloorInv(ch, s)
    requires Reverses(s, a) ==> ReversalFits(ch, s, a.t)
    ensures FloorInv(ch, Apply(ch, s, a))
  {
    hide CacheInv, Statement, TriggerPasses, ReversalFits, CommittedDb;
    if a.Begin? || a.DropSnapshots? || a.t !in s.flights || a.Abort? || a.ReadSnapshot? {
    } else if s.flights[a.t].req.Snapshots? {
    } else if a.Commit? {
      if s.flights[a.t].phase.Finished? {
        CommitFloors(ch, s, a.t);
      }
    } else {
      StatementKeepsFloors(ch, s, a.t, a);
    }
  }

  /** Every reversal in the run fits when it commits. */
  ghost predicate ReversalsFit(ch: Chart, s: State, actions: seq<Action>)
  {
    actions == []
    || (var front, last := actions[..|actions| - 1], actions[|actions| - 1];
        && ReversalsFit(ch, s, front)
        && (Reverses(Run(ch, s, front), last) ==> ReversalFits(ch, Run(ch, s, front), last.t)))
  }

  lemma {:induction false} RunKeepsFloors(ch: Chart, s: State, actions: seq<Action>)
    requires ChartOk(ch) && CacheInv(ch, s) && FloorInv(ch, s)
    requires SafelyTaken(ch, s, actions) && ReversalsFit(ch, s, actions)
    ensures FloorInv(ch, Run(ch, s, actions))
  {
    hide CacheInv, FloorInv, Apply, Reverses, ReversalFits;
    if actions != [] {
      var front, last := actions[..|actions| - 1], actions[|actions| - 1];
      RunKeepsFloors(ch, s, front);
      RunKeepsCache(ch, s, front);
      StepKeepsFloors(ch, Run(ch, s, front), last);
    }
  }

  /** No write skew: from any opening ledger at or above its floors, however postings, safely taken
      snapshots, aborts, crashes and reversals that fit interleave, every floored account stays at or
      above its floor. */
  lemma FloorsHold(ch: Chart, opening: State, actions: seq<Action>, account: string)
    requires ChartOk(ch) && Floored(ch, account)
    requires opening.flights == map[] && CacheInv(ch, opening)
    requires forall a | Floored(ch, a) :: AtFloor(ch, opening.db.entries, a)
    requires SafelyTaken(ch, opening, actions) && ReversalsFit(ch, opening, actions)
    ensures Balance(Run(ch, opening, actions).db.entries, ch[account]) >= ch[account].floor.value
  {
    RunKeepsFloors(ch, opening, actions);
    assert AtFloor(ch, Run(ch, opening, actions).db.entries, account);
  }

  ghost predicate NoReversal(s: State)
  {
    forall t | t in s.flights :: !s.flights[t].req.Reverse?
  }

  lemma StepNoReversal(ch: Chart, s: State, a: Action)
    requires NoReversal(s) && (a.Begin? ==> !a.req.Reverse?)
    ensures NoReversal(Apply(ch, s, a)) && !Reverses(s, a)
  {
    hide CachedBalance, ToCheck, IsJournal, Resolved, TriggerPasses, CommittedDb, TxnFree, EventFree;
  }

  /** A run without reversals satisfies the condition on them. */
  lemma {:induction false} WithoutReversals(ch: Chart, opening: State, actions: seq<Action>)
    requires opening.flights == map[] && forall a | a in actions :: a.Begin? ==> !a.req.Reverse?
    ensures ReversalsFit(ch, opening, actions) && NoReversal(Run(ch, opening, actions))
  {
    hide Apply, Reverses;
    if actions != [] {
      var front, last := actions[..|actions| - 1], actions[|actions| - 1];
      assert last in actions && forall a | a in front :: a in actions;
      WithoutReversals(ch, opening, front);
      StepNoReversal(ch, Run(ch, opening, front), last);
    }
  }
}
