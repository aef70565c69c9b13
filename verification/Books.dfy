/** What every reachable ledger looks like: balanced transactions, one outbox event each, and
    reversals that form chains (src/ledgerflow/application/services.py:206-387,
    migrations/001_core.sql:81-170). */
module Books {
  import opened Wrappers
  import opened Seqs
  import opened Ledger
  import opened WritePath

  // ---- committed tables ----

  /** Primary key of `transactions`, foreign key of `entries`. */
  ghost predicate Keyed(db: Db)
  {
    && (forall i, j | 0 <= i < j < |db.txns| :: db.txns[i].id != db.txns[j].id)
    && (forall r | r in db.entries :: HasTxn(db.txns, r.txnId))
  }

  ghost predicate AllJournals(db: Db)
  {
    forall i | 0 <= i < |db.txns| :: IsJournal(TxnLegs(db, db.txns[i].id))
  }

  /** Row `i` mirrors an earlier row. */
  ghost predicate Mirrors(db: Db, i: nat)
    requires i < |db.txns|
  {
    db.txns[i].reverses.Some? ==>
      exists j :: 0 <= j < i && Some(db.txns[j].id) == db.txns[i].reverses
                  && TxnLegs(db, db.txns[i].id) == ReversedAll(TxnLegs(db, db.txns[j].id))
  }

  ghost predicate ReversalsOk(db: Db)
  {
    && (forall i | 0 <= i < |db.txns| :: Mirrors(db, i))
    && (forall i, j | 0 <= i < j < |db.txns| && db.txns[i].reverses.Some? :: db.txns[i].reverses != db.txns[j].reverses)
    && (forall i | 0 <= i < |db.txns| :: db.txns[i].status == Reversed <==> HasReversal(db.txns, db.txns[i].id))
  }

  /** One outbox row per transaction, written by the same commit, under distinct event ids. */
  ghost predicate OutboxOk(db: Db)
  {
    && |db.outbox| == |db.txns|
    && (forall i | 0 <= i < |db.txns| :: db.outbox[i].txnId == db.txns[i].id)
    && (forall i, j | 0 <= i < j < |db.outbox| :: db.outbox[i].eventId != db.outbox[j].eventId)
  }

  ghost predicate BooksOk(db: Db)
  {
    Keyed(db) && AllJournals(db) && ReversalsOk(db) && OutboxOk(db)
  }

  // ---- open transactions ----

  ghost predicate FlightOk(db: Db, f: Flight)
  {
    && (f.req.Snapshots? ==> f.phase.Started? && f.event.None? && f.rows == [])
    && (f.Built() && !f.req.Snapshots? ==> IsJournal(f.legs))
    && (f.Built() && f.req.Reverse? ==>
          HasTxn(db.txns, f.req.target) && f.legs == ReversedAll(TxnLegs(db, f.req.target)))
    && (f.Inserted() && !f.req.Snapshots? ==>
          && !HasTxn(db.txns, f.req.txnId)
          && (f.req.Reverse? ==> !HasReversal(db.txns, f.req.target)))
    && (f.HasRows() && !f.req.Snapshots? ==>
          LegsOf(f.rows) == f.legs && forall r | r in f.rows :: r.txnId == f.req.txnId)
    && (f.rows != [] ==> f.HasRows())
    && (f.HasEvent() <==> f.event.Some?)
    && (f.event.Some? && !f.req.Snapshots? ==>
          && f.event.value.txnId == f.req.txnId
          && forall row | row in db.outbox :: row.eventId != f.event.value.eventId)
  }

  /** What two open transactions may not share: a primary key, a reversal target, an event id. */
  ghost predicate Apart(f: Flight, g: Flight)
  {
    && (f.Inserted() && g.Inserted() && !f.req.Snapshots? && !g.req.Snapshots? ==>
          && f.req.txnId != g.req.txnId
          && (f.req.Reverse? ==> f.req.Target() != g.req.Target()))
    && (f.event.Some? && g.event.Some? ==> f.event.value.eventId != g.event.value.eventId)
  }

  ghost predicate BooksInv(s: State)
  {
    && BooksOk(s.db)
    && (forall t | t in s.flights :: FlightOk(s.db, s.flights[t]))
    && (forall t, u | t in s.flights && u in s.flights && t != u :: Apart(s.flights[t], s.flights[u]))
  }

  lemma LegsOfNumber(first: nat, txnId: string, legs: seq<Entry>)
    ensures LegsOf(Number(first, txnId, legs)) == legs
    ensures forall r | r in Number(first, txnId, legs) :: r.txnId == txnId
  {
  }

  /** One statement keeps its own flight in order and apart from the others. */
  lemma StatementBooks(ch: Chart, s: State, t: nat, f: Flight, a: Action)
    requires t in s.flights && f == s.flights[t] && !f.req.Snapshots?
    requires FlightOk(s.db, f)
    ensures var s' := Statement(ch, s, t, f, a);
            && OnlyFlight(s, s', t)
            && (t in s'.flights ==> FlightOk(s.db, s'.flights[t]))
  {
    hide CachedBalance, ToCheck, Resolved, Delta, IsJournal, TxnLegs, LegsOf, Number;
    if a.Build? {
      BuildBooks(ch, s, t, f, a);
    } else if a.InsertTxn? || a.InsertEntries? {
      InsertBooks(ch, s, t, f, a);
    } else if a.Emit? {
    }
  }

  lemma BuildBooks(ch: Chart, s: State, t: nat, f: Flight, a: Action)
    requires t in s.flights && f == s.flights[t] && !f.req.Snapshots? && a.Build?
    requires FlightOk(s.db, f)
    ensures var s' := Statement(ch, s, t, f, a);
            OnlyFlight(s, s', t) && t in s'.flights && FlightOk(s.db, s'.flights[t])
  {
    hide ToCheck, CachedBalance, Resolved;
    if f.req.Reverse? && StillPosted(s.db.txns, f.req.target) && IsJournal(TxnLegs(s.db, f.req.target)) {
      ReversalKeepsJournal(TxnLegs(s.db, f.req.target));
      assert HasTxn(s.db.txns, f.req.target);
    }
  }

  lemma InsertBooks(ch: Chart, s: State, t: nat, f: Flight, a: Action)
    requires t in s.flights && f == s.flights[t] && !f.req.Snapshots? && (a.InsertTxn? || a.InsertEntries?)
    requires FlightOk(s.db, f)
    ensures var s' := Statement(ch, s, t, f, a);
            OnlyFlight(s, s', t) && t in s'.flights && FlightOk(s.db, s'.flights[t])
  {
    LegsOfNumber(s.nextEntry, f.req.txnId, f.legs);
  }

  lemma StatementApart(ch: Chart, s: State, t: nat, u: nat, f: Flight, a: Action)
    requires t in s.flights && f == s.flights[t] && !f.req.Snapshots?
    requires u in s.flights && u != t && Apart(f, s.flights[u]) && Apart(s.flights[u], f)
    requires f.HasEvent() <==> f.event.Some?
    ensures var s' := Statement(ch, s, t, f, a);
            t in s'.flights ==> Apart(s'.flights[t], s.flights[u]) && Apart(s.flights[u], s'.flights[t])
  {
  }

  // ---- commit ----

  lemma RowsAfterCommit(db: Db, f: Flight, id: string)
    requires !f.req.Snapshots? && f.event.Some?
    requires Keyed(db) && FlightOk(db, f) && f.HasRows()
    ensures RowsOf(CommittedDb(db, f).entries, id) == if id == f.req.txnId then f.rows else RowsOf(db.entries, id)
  {
    FilterConcat(db.entries, f.rows, OfTxn(id));
    if id == f.req.txnId {
      FilterAll(f.rows, OfTxn(id));
      FilterNone(db.entries, OfTxn(id));
    } else {
      FilterNone(f.rows, OfTxn(id));
    }
  }

  lemma CommitKeepsKeyed(db: Db, f: Flight)
    requires !f.req.Snapshots? && f.event.Some? && f.HasRows()
    requires Keyed(db) && FlightOk(db, f)
    ensures Keyed(CommittedDb(db, f))
    ensures forall id | HasTxn(db.txns, id) :: HasTxn(CommittedDb(db, f).txns, id)
    ensures forall id | HasTxn(CommittedDb(db, f).txns, id) :: id == f.req.txnId || HasTxn(db.txns, id)
  {
    var n, db' := |db.txns|, CommittedDb(db, f);
    CommittedTxns(db, f);
    assert db'.txns[n].id == f.req.txnId;
    forall id | HasTxn(db.txns, id) ensures HasTxn(db'.txns, id) {
      var i :| 0 <= i < n && db.txns[i].id == id;
      assert db'.txns[i].id == id;
    }
  }

  lemma CommitKeepsMirrors(db: Db, f: Flight)
    requires !f.req.Snapshots? && f.event.Some? && f.HasRows()
    requires BooksOk(db) && FlightOk(db, f)
    ensures AllJournals(CommittedDb(db, f))
    ensures forall i | 0 <= i <= |db.txns| :: Mirrors(CommittedDb(db, f), i)
  {
    var n, db' := |db.txns|, CommittedDb(db, f);
    CommittedTxns(db, f);
    forall id ensures TxnLegs(db', id) == if id == f.req.txnId then f.legs else TxnLegs(db, id) {
      RowsAfterCommit(db, f, id);
    }
    forall i | 0 <= i <= n ensures IsJournal(TxnLegs(db', db'.txns[i].id)) && Mirrors(db', i) {
      if i < n {
        assert IsJournal(TxnLegs(db, db.txns[i].id)) && Mirrors(db, i);
        if db.txns[i].reverses.Some? {
          var j :| 0 <= j < i && Some(db.txns[j].id) == db.txns[i].reverses
                   && TxnLegs(db, db.txns[i].id) == ReversedAll(TxnLegs(db, db.txns[j].id));
          assert Some(db'.txns[j].id) == db'.txns[i].reverses;
        }
      } else if f.req.Reverse? {
        var j :| 0 <= j < n && db.txns[j].id == f.req.target;
        assert db'.txns[j].id == f.req.target;
      }
    }
  }

  lemma ReversedIds(db: Db, f: Flight, id: string)
    requires !f.req.Snapshots? && f.event.Some?
    ensures HasReversal(CommittedDb(db, f).txns, id) <==> HasReversal(db.txns, id) || f.req.Target() == Some(id)
  {
    var n, db' := |db.txns|, CommittedDb(db, f);
    CommittedTxns(db, f);
    if HasReversal(db.txns, id) {
      var i :| 0 <= i < n && db.txns[i].reverses == Some(id);
      assert db'.txns[i].reverses == Some(id);
    }
    if f.req.Target() == Some(id) {
      assert db'.txns[n].reverses == Some(id);
    }
  }

  lemma ReversedExist(db: Db)
    requires ReversalsOk(db)
    ensures forall id | HasReversal(db.txns, id) :: HasTxn(db.txns, id)
  {
    forall id | HasReversal(db.txns, id) ensures HasTxn(db.txns, id) {
      var i :| 0 <= i < |db.txns| && db.txns[i].reverses == Some(id);
      assert Mirrors(db, i);
    }
  }

  lemma CommitKeepsReversals(db: Db, f: Flight)
    requires !f.req.Snapshots? && f.event.Some? && f.HasRows()
    requires BooksOk(db) && FlightOk(db, f)
    ensures AllJournals(CommittedDb(db, f)) && ReversalsOk(CommittedDb(db, f))
  {
    var n, db' := |db.txns|, CommittedDb(db, f);
    CommittedTxns(db, f);
    CommitKeepsMirrors(db, f);
    ReversedExist(db);
    forall i | 0 <= i <= n ensures db'.txns[i].status == Reversed <==> HasReversal(db'.txns, db'.txns[i].id) {
      ReversedIds(db, f, db'.txns[i].id);
    }
  }

  lemma CommitKeepsOutbox(db: Db, f: Flight)
    requires !f.req.Snapshots? && f.event.Some? && f.HasRows()
    requires OutboxOk(db) && FlightOk(db, f)
    ensures OutboxOk(CommittedDb(db, f))
  {
    CommittedTxns(db, f);
  }

  lemma CommitKeepsFlight(db: Db, f: Flight, g: Flight)
    requires !f.req.Snapshots? && f.event.Some? && f.HasRows()
    requires BooksOk(db) && FlightOk(db, f) && FlightOk(db, g) && Apart(f, g) && Apart(g, f)
    ensures FlightOk(CommittedDb(db, f), g)
  {
    var db' := CommittedDb(db, f);
    CommitKeepsKeyed(db, f);
    if g.req.Reverse? {
      ReversedIds(db, f, g.req.target);
      RowsAfterCommit(db, f, g.req.target);
    }
    if g.event.Some? && !g.req.Snapshots? {
      forall row | row in db'.outbox ensures row.eventId != g.event.value.eventId {
        assert row in db.outbox || row == f.event.value;
      }
    }
  }

  lemma CommitKeepsBooks(s: State, t: nat, f: Flight)
    requires BooksInv(s) && t in s.flights && f == s.flights[t]
    requires !f.req.Snapshots? && f.phase.Finished?
    ensures BooksInv(DoCommit(s, t, f))
  {
    var s' := DoCommit(s, t, f);
    if s' != s {
      CommitKeepsKeyed(s.db, f);
      CommitKeepsReversals(s.db, f);
      CommitKeepsOutbox(s.db, f);
      forall u | u in s'.flights ensures FlightOk(s'.db, s'.flights[u]) {
        if u != t {
          CommitKeepsFlight(s.db, f, s.flights[u]);
        }
      }
    }
  }

  lemma StatementKeepsBooks(ch: Chart, s: State, t: nat, f: Flight, a: Action)
    requires BooksInv(s) && t in s.flights && f == s.flights[t] && !f.req.Snapshots?
    ensures BooksInv(Statement(ch, s, t, f, a))
  {
    var s' := Statement(ch, s, t, f, a);
    StatementBooks(ch, s, t, f, a);
    if t in s'.flights {
      forall u | u in s.flights && u != t
        ensures Apart(s'.flights[t], s.flights[u]) && Apart(s.flights[u], s'.flights[t])
      {
        StatementApart(ch, s, t, u, f, a);
      }
    }
  }

  /** Snapshots are no part of the books. */
  lemma SnapsIrrelevant(db: Db, snaps: seq<SnapRow>)
    requires BooksOk(db)
    ensures BooksOk(db.(snaps := snaps))
  {
    assert forall i | 0 <= i < |db.txns| :: Mirrors(db, i) && Mirrors(db.(snaps := snaps), i);
  }

  lemma SnapshotFlightKeepsBooks(ch: Chart, s: State, t: nat, a: Action)
    requires BooksInv(s) && !a.Begin? && !a.DropSnapshots? && !a.Abort?
    requires a.t == t && t in s.flights && s.flights[t].req.Snapshots?
    ensures BooksInv(Apply(ch, s, a))
  {
    SnapsIrrelevant(s.db, Apply(ch, s, a).db.snaps);
  }

  lemma StepKeepsBooks(ch: Chart, s: State, a: Action)
    requires BooksInv(s)
    ensures BooksInv(Apply(ch, s, a))
  {
    hide BooksOk, Statement, TriggerPasses, CommittedDb;
    if a.DropSnapshots? {
      SnapsIrrelevant(s.db, Apply(ch, s, a).db.snaps);
    } else if a.Begin? || a.t !in s.flights || a.Abort? {
    } else if s.flights[a.t].req.Snapshots? {
      SnapshotFlightKeepsBooks(ch, s, a.t, a);
    } else if a.ReadSnapshot? {
    } else if a.Commit? {
      if s.flights[a.t].phase.Finished? {
        CommitKeepsBooks(s, a.t, s.flights[a.t]);
      }
    } else {
      StatementKeepsBooks(ch, s, a.t, s.flights[a.t], a);
    }
  }

  lemma {:induction false} RunKeepsBooks(ch: Chart, s: State, actions: seq<Action>)
    requires BooksInv(s)
    ensures BooksInv(Run(ch, s, actions))
  {
    if actions != [] {
      RunKeepsBooks(ch, s, actions[..|actions| - 1]);
      StepKeepsBooks(ch, Run(ch, s, actions[..|actions| - 1]), actions[|actions| - 1]);
    }
  }

  /** Every ledger a run can reach: keys hold, every transaction balances, reversals mirror earlier
      transactions at most once each and exactly the reversed ones are marked, and the outbox has
      one event per transaction. */
  lemma EveryLedger(ch: Chart, actions: seq<Action>)
    ensures BooksOk(Run(ch, INITIAL, actions).db)
  {
    RunKeepsBooks(ch, INITIAL, actions);
  }

  /** The deferred trigger never refuses what the service layer built. */
  lemma TriggerNeverFires(ch: Chart, actions: seq<Action>, t: nat)
    requires t in Run(ch, INITIAL, actions).flights
    requires var f := Run(ch, INITIAL, actions).flights[t]; f.phase.Finished? && !f.req.Snapshots?
    ensures var s := Run(ch, INITIAL, actions);
            && TriggerPasses(s.db, s.flights[t])
            && |Apply(ch, s, Commit(t)).db.txns| == |s.db.txns| + 1
  {
    RunKeepsBooks(ch, INITIAL, actions);
    TriggerOk(Run(ch, INITIAL, actions), t);
  }

  lemma TriggerOk(s: State, t: nat)
    requires BooksInv(s) && t in s.flights && s.flights[t].phase.Finished? && !s.flights[t].req.Snapshots?
    ensures TriggerPasses(s.db, s.flights[t]) && s.flights[t].event.Some?
  {
    var f := s.flights[t];
    assert FlightOk(s.db, f);
    forall r | r in f.rows ensures Balanced(LegsOf(RowsOf(s.db.entries + f.rows, r.txnId))) {
      RowsAfterCommit(s.db, f, r.txnId);
    }
  }

  /** What the trigger lets through: transactions whose entries, old and new, cancel in every currency. */
  lemma TriggerIff(db: Db, f: Flight)
    ensures TriggerPasses(db, f) <==>
            forall r, currency | r in f.rows :: Drift(LegsOf(RowsOf(db.entries + f.rows, r.txnId)), currency) == 0
  {
    if TriggerPasses(db, f) {
      forall r, currency | r in f.rows ensures Drift(LegsOf(RowsOf(db.entries + f.rows, r.txnId)), currency) == 0 {
        BalancedIn(LegsOf(RowsOf(db.entries + f.rows, r.txnId)), currency);
      }
    }
  }

  /** An unbalanced transaction stays out of the tables. */
  lemma TriggerRefuses(ch: Chart, s: State, t: nat, r: EntryRow, currency: string)
    requires t in s.flights && !s.flights[t].req.Snapshots? && r in s.flights[t].rows
    requires Drift(LegsOf(RowsOf(s.db.entries + s.flights[t].rows, r.txnId)), currency) != 0
    ensures Apply(ch, s, Commit(t)) == s
  {
    TriggerIff(s.db, s.flights[t]);
  }

  // ---- reversal chains ----

  /** Each id after the first is a committed reversal of the one before it. */
  ghost predicate Chain(db: Db, ids: seq<string>)
  {
    && ids != []
    && HasTxn(db.txns, ids[0])
    && forall k | 0 < k < |ids| :: Reverses(db, ids[k], ids[k - 1])
  }

  ghost predicate Reverses(db: Db, id: string, target: string)
  {
    exists i :: 0 <= i < |db.txns| && db.txns[i].id == id && db.txns[i].reverses == Some(target)
  }

  ghost function IndexOf(db: Db, id: string): (i: nat)
    requires HasTxn(db.txns, id)
    ensures i < |db.txns| && db.txns[i].id == id
  {
    var i :| 0 <= i < |db.txns| && db.txns[i].id == id;
    i
  }

  lemma ReversalIsLater(db: Db, id: string, target: string)
    requires BooksOk(db) && Reverses(db, id, target)
    ensures HasTxn(db.txns, id) && HasTxn(db.txns, target)
    ensures IndexOf(db, target) < IndexOf(db, id)
    ensures TxnLegs(db, id) == ReversedAll(TxnLegs(db, target))
  {
    var i :| 0 <= i < |db.txns| && db.txns[i].id == id && db.txns[i].reverses == Some(target);
    assert Mirrors(db, i);
    assert i == IndexOf(db, id);
  }

  lemma ChainFront(db: Db, ids: seq<string>)
    requires BooksOk(db) && Chain(db, ids) && |ids| > 1
    ensures Chain(db, ids[..|ids| - 1])
    ensures var id, target := ids[|ids| - 1], ids[|ids| - 2];
            && HasTxn(db.txns, id) && HasTxn(db.txns, target)
            && IndexOf(db, target) < IndexOf(db, id)
            && TxnLegs(db, id) == ReversedAll(TxnLegs(db, target))
  {
    var front, n := ids[..|ids| - 1], |ids|;
    assert Reverses(db, ids[n - 1], ids[n - 2]);
    ReversalIsLater(db, ids[n - 1], ids[n - 2]);
    forall k | 0 < k < |front| ensures Reverses(db, front[k], front[k - 1]) {
      assert Reverses(db, ids[k], ids[k - 1]);
    }
  }

  /** Chains never return to a transaction. */
  lemma {:induction false} ChainsAreAcyclic(db: Db, ids: seq<string>)
    requires BooksOk(db) && Chain(db, ids)
    ensures Distinct(ids)
    ensures forall id | id in ids :: HasTxn(db.txns, id)
    ensures forall id | id in ids :: IndexOf(db, id) <= IndexOf(db, ids[|ids| - 1])
  {
    if |ids| > 1 {
      var front, last := ids[..|ids| - 1], ids[|ids| - 1];
      ChainFront(db, ids);
      ChainsAreAcyclic(db, front);
      assert ids == front + [last];
      assert front[|front| - 1] == ids[|ids| - 2];
    } else {
      assert ids == [ids[0]];
    }
  }

  /** A transaction has at most one reversal, so a chain is determined by where it starts. */
  lemma ReversalIsUnique(db: Db, a: string, b: string, target: string)
    requires BooksOk(db) && Reverses(db, a, target) && Reverses(db, b, target)
    ensures a == b
  {
    var i :| 0 <= i < |db.txns| && db.txns[i].id == a && db.txns[i].reverses == Some(target);
    var j :| 0 <= j < |db.txns| && db.txns[j].id == b && db.txns[j].reverses == Some(target);
    assert !(i < j) && !(j < i);
  }

  function ChainEffect(db: Db, normal: Direction, account: string): string -> int
  {
    (id: string) => Effect(TxnLegs(db, id), normal, account)
  }

  /** A whole chain nets to its first transaction or to nothing, by the parity of its length. */
  lemma ChainNet(db: Db, ids: seq<string>, normal: Direction, account: string)
    requires BooksOk(db) && Chain(db, ids)
    ensures Sum(ids, ChainEffect(db, normal, account)) ==
            if |ids| % 2 == 1 then Effect(TxnLegs(db, ids[0]), normal, account) else 0
  {
    forall k | 0 < k < |ids|
      ensures ChainEffect(db, normal, account)(ids[k]) == -ChainEffect(db, normal, account)(ids[k - 1])
    {
      LinkNegates(db, ids[k], ids[k - 1], normal, account);
    }
    SumAlternating(ids, ChainEffect(db, normal, account));
  }

  lemma LinkNegates(db: Db, id: string, target: string, normal: Direction, account: string)
    requires BooksOk(db) && Reverses(db, id, target)
    ensures Effect(TxnLegs(db, id), normal, account) == -Effect(TxnLegs(db, target), normal, account)
  {
    ReversalIsLater(db, id, target);
    ReversalNegates(TxnLegs(db, target), normal, account, "");
  }
}
