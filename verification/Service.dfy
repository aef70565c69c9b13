/** The request handlers as programs: `idempotent`, `post_transaction`, `_check_floors`,
    `reverse_transaction` and `Slot.complete`, one SQL statement at a time, with other connections
    free to run between any two statements
    (src/ledgerflow/api/idempotency.py:49-181, src/ledgerflow/application/services.py:171-387). */
module Service {
  import opened Wrappers
  import opened Ledger
  import opened WritePath
  import K = KeyedRequests
  import B = Books
  import F = Floors
  import U = Unhindered

  /** A statement of another connection. */
  predicate Foreign(a: Action, t: nat) { a.DropSnapshots? || a.t != t }

  /** What the others do before each of our statements. */
  type Others = nat -> seq<Action>

  ghost predicate ForeignOnly(others: Others, t: nat)
  {
    forall i: nat :: AllForeign(others(i), t)
  }

  ghost predicate AllForeign(actions: seq<Action>, t: nat)
  {
    forall a | a in actions :: Foreign(a, t)
  }

  /** What the client gets. */
  datatype Reply =
    | Created(body: Resource)
    | Replayed(body: Resource)
    | InFlight         // 409: the claim waited past the lock timeout, or the row is in progress
    | KeyReuse         // the key was used with another request body
    | Refused          // rolled back: floors, validation, a unique index, a lock timeout

  /** How many of the statements are commits of this connection. */
  function Commits(actions: seq<Action>, t: nat): nat
  {
    if actions == [] then 0
    else Commits(actions[..|actions| - 1], t) + if actions[|actions| - 1] == Commit(t) then 1 else 0
  }

  /** The machine can get from one state to the other with so many commits of connection `t`. */
  ghost predicate Reaches(ch: Chart, s: State, s': State, t: nat, commits: nat)
  {
    exists actions :: Run(ch, s, actions) == s' && Commits(actions, t) == commits
  }

  lemma ReachesSelf(ch: Chart, s: State, t: nat)
    ensures Reaches(ch, s, s, t, 0)
  {
    assert Run(ch, s, []) == s && Commits([], t) == 0;
  }

  lemma ReachesStep(ch: Chart, s: State, m: State, a: Action, t: nat, commits: nat)
    requires Reaches(ch, s, m, t, commits)
    ensures Reaches(ch, s, Apply(ch, m, a), t, commits + if a == Commit(t) then 1 else 0)
  {
    var actions :| Run(ch, s, actions) == m && Commits(actions, t) == commits;
    assert (actions + [a])[..|actions|] == actions;
    assert Run(ch, s, actions + [a]) == Apply(ch, m, a);
  }

  lemma {:induction false} CommitsConcat(first: seq<Action>, second: seq<Action>, t: nat)
    ensures Commits(first + second, t) == Commits(first, t) + Commits(second, t)
  {
    if second == [] {
      assert first + second == first;
    } else {
      CommitsConcat(first, second[..|second| - 1], t);
      assert (first + second)[..|first + second| - 1] == first + second[..|second| - 1];
    }
  }

  lemma ReachesJoin(ch: Chart, s: State, m: State, s': State, t: nat, commits: nat)
    requires Reaches(ch, s, m, t, commits) && Reaches(ch, m, s', t, 0)
    ensures Reaches(ch, s, s', t, commits)
  {
    var first :| Run(ch, s, first) == m && Commits(first, t) == commits;
    var second :| Run(ch, m, second) == s' && Commits(second, t) == 0;
    RunConcat(ch, s, first, second);
    CommitsConcat(first, second, t);
  }

  lemma ReachedKeys(ch: Chart, s: State, s': State, t: nat, commits: nat)
    requires K.KeysInv(s) && Reaches(ch, s, s', t, commits)
    ensures K.KeysInv(s')
    ensures forall k | k in s.db.keys :: k in s'.db.keys && s'.db.keys[k] == s.db.keys[k]
  {
    var actions :| Run(ch, s, actions) == s' && Commits(actions, t) == commits;
    K.RunKeepsKeys(ch, s, actions);
  }

  lemma StatementQuiet(ch: Chart, s: State, t: nat, a: Action)
    requires t in s.flights && !s.flights[t].req.Snapshots?
    ensures var s' := Statement(ch, s, t, s.flights[t], a);
            && OnlyFlight(s, s', t)
            && (t in s'.flights ==> s'.flights[t].req == s.flights[t].req)
  {
    hide CachedBalance, ToCheck, Delta, IsJournal, Resolved, TxnLegs, StillPosted, TxnFree, EventFree, KeyReserved;
  }

  // ---- a committed transaction stays as it is ----

  /** The table has the request's transaction with exactly these rows, and a reversal names its target. */
  ghost predicate Stands(db: Db, req: Request, body: Resource)
    requires !req.Snapshots?
  {
    && body.txnId == req.txnId && HasTxn(db.txns, req.txnId) && RowsOf(db.entries, req.txnId) == body.rows
    && (req.Reverse? ==> B.Reverses(db, req.txnId, req.target))
  }

  lemma CommitStands(db: Db, f: Flight)
    requires B.BooksOk(db) && B.FlightOk(db, f) && !f.req.Snapshots? && f.phase.Finished? && f.event.Some?
    ensures Stands(CommittedDb(db, f), f.req, f.Body())
  {
    CommittedTxns(db, f);
    B.RowsAfterCommit(db, f, f.req.txnId);
    assert CommittedDb(db, f).txns[|db.txns|].id == f.req.txnId;
  }

  lemma CommitKeepsStanding(db: Db, f: Flight, req: Request, body: Resource)
    requires B.BooksOk(db) && B.FlightOk(db, f) && !f.req.Snapshots? && f.phase.Finished? && f.event.Some?
    requires !req.Snapshots? && Stands(db, req, body)
    ensures Stands(CommittedDb(db, f), req, body)
  {
    hide RowsOf;
    CommittedTxns(db, f);
    B.CommitKeepsKeyed(db, f);
    B.RowsAfterCommit(db, f, req.txnId);
    if req.Reverse? {
      var i :| 0 <= i < |db.txns| && db.txns[i].id == req.txnId && db.txns[i].reverses == Some(req.target);
      assert CommittedDb(db, f).txns[i].id == req.txnId;
    }
  }

  lemma StepKeepsStanding(ch: Chart, s: State, a: Action, req: Request, body: Resource)
    requires B.BooksInv(s) && !req.Snapshots? && Stands(s.db, req, body)
    ensures Stands(Apply(ch, s, a).db, req, body)
  {
    hide Statement, CommittedDb, TriggerPasses, HasTxn, RowsOf, B.BooksOk, B.FlightOk;
    if !a.Begin? && !a.DropSnapshots? && a.t in s.flights && !s.flights[a.t].req.Snapshots? {
      var f := s.flights[a.t];
      if a.Commit? {
        if f.phase.Finished? && f.event.Some? {
          CommitKeepsStanding(s.db, f, req, body);
        }
      } else if !a.Abort? && !a.ReadSnapshot? {
        StatementQuiet(ch, s, a.t, a);
      }
    }
  }

  lemma {:induction false} RunKeepsStanding(ch: Chart, s: State, actions: seq<Action>, req: Request, body: Resource)
    requires B.BooksInv(s) && !req.Snapshots? && Stands(s.db, req, body)
    ensures Stands(Run(ch, s, actions).db, req, body)
  {
    hide Apply, Stands, B.BooksInv;
    if actions != [] {
      var front := actions[..|actions| - 1];
      RunKeepsStanding(ch, s, front, req, body);
      B.RunKeepsBooks(ch, s, front);
      StepKeepsStanding(ch, Run(ch, s, front), actions[|actions| - 1], req, body);
    }
  }

  lemma ForeignKeeps(ch: Chart, s: State, a: Action, t: nat)
    requires Foreign(a, t)
    ensures var s' := Apply(ch, s, a);
            (t in s'.flights <==> t in s.flights) && (t in s.flights ==> s'.flights[t] == s.flights[t])
  {
    hide Statement, CommittedDb, TriggerPasses;
    if !a.Begin? && !a.DropSnapshots? && a.t in s.flights && !s.flights[a.t].req.Snapshots? {
      StatementQuiet(ch, s, a.t, a);
    }
  }

  /** What the four writing statements do to the transaction, when they get through. */
  lemma WriteSteps(ch: Chart, s: State, t: nat, f: Flight, eventId: string)
    requires t in s.flights && s.flights[t] == f && !f.req.Snapshots?
    ensures f.phase == Checking([]) ==>
              var x := Apply(ch, s, InsertTxn(t)).flights;
              t in x && x[t] == if TxnFree(s, t, U.Opened(f.req)) then f.(phase := TxnInserted) else f
    ensures f.phase.TxnInserted? ==>
              var x := Apply(ch, s, InsertEntries(t)).flights;
              t in x && x[t] == f.(phase := EntriesInserted, rows := Number(s.nextEntry, f.req.txnId, f.legs))
    ensures f.phase.EntriesInserted? && f.req.Reverse? ==>
              var x := Apply(ch, s, MarkReversed(t)).flights;
              t in x && x[t] == f.(phase := Marked)
    ensures f.phase == (if f.req.Reverse? then Marked else EntriesInserted) ==>
              var x := Apply(ch, s, Emit(t, eventId)).flights;
              t in x && if EventFree(s, t, eventId)
                        then x[t] == f.(phase := Emitted, event := x[t].event)
                             && x[t].event.Some? && x[t].event.value.eventId == eventId
                        else x[t] == f
  {
    hide HasTxn, HasReversal, EventFree;
  }

  lemma NumberedLegs(first: nat, txnId: string, legs: seq<Entry>)
    ensures LegsOf(Number(first, txnId, legs)) == legs
  {
  }

  /** Every account on the check list is locked; and wherever the floors and the cache hold, each
      floored account that goes down can take its delta. */
  ghost predicate Checked(ch: Chart, s: State, f: Flight)
  {
    && (forall a | a in ToCheck(ch, f.legs) :: a in f.locks)
    && (F.FloorInv(ch, s) ==> forall a | F.Draws(ch, f.legs, a) :: F.Cleared(ch, s.db.entries, f.legs, f.locks, a))
  }

  lemma ListIsChecked(ch: Chart, s: State, t: nat)
    requires t in s.flights && s.flights[t].req.Post? && s.flights[t].Built() && F.Todo(s.flights[t]) == []
    requires forall a | a in ToCheck(ch, s.flights[t].legs) :: a in s.flights[t].locks
    ensures Checked(ch, s, s.flights[t])
  {
    hide ToCheck;
    if F.FloorInv(ch, s) {
      assert F.FlightFloors(ch, s.db.entries, s.flights[t]);
    }
  }

  lemma LocksOf(ch: Chart, s: State, f: Flight)
    requires Checked(ch, s, f)
    ensures forall a | a in ToCheck(ch, f.legs) :: a in f.locks
  {
  }

  // ---- what can stand in the way ----

  /** The key is free for us: no row, and no other transaction has claimed it. */
  ghost predicate KeyOpen(s: State, t: nat, req: Request)
    requires !req.Snapshots?
  {
    req.key.Some? ==> req.key.value !in s.db.keys && !KeyReserved(s, t, req.key.value)
  }

  ghost predicate LockedElsewhere(s: State, t: nat, account: string)
  {
    exists u :: u in s.flights && u != t && account in s.flights[u].locks
  }

  /** A listed account is locked by another transaction, or cannot take what the legs do to it. */
  ghost predicate FloorsFail(ch: Chart, s: State, t: nat, legs: seq<Entry>)
  {
    exists a :: a in ToCheck(ch, legs) && (LockedElsewhere(s, t, a) || !U.Bears(ch, s.db, legs, a))
  }

  /** An id, the event id or the target of the reversal is taken, committed or by another transaction. */
  ghost predicate IdsTaken(s: State, t: nat, req: Request, eventId: string)
    requires !req.Snapshots?
  {
    !TxnFree(s, t, U.Opened(req)) || !EventFree(s, t, eventId)
  }

  /** Everything a request can be refused for. */
  ghost predicate Refusable(ch: Chart, s: State, t: nat, req: Request, eventId: string)
    requires !req.Snapshots?
  {
    || IdsTaken(s, t, req, eventId)
    || match req
       case Post(_, _, _, legs, _) => !IsJournal(legs) || !Resolved(ch, legs) || FloorsFail(ch, s, t, legs)
       case Reverse(_, _, _, target) => !StillPosted(s.db.txns, target)
  }

  /** The same tables and the same other transactions. */
  ghost predicate Beside(s: State, s': State, t: nat)
  {
    s'.db == s.db && s'.flights - {t} == s.flights - {t}
  }

  /** Short of a commit, our own statements touch nobody else. */
  lemma OwnIsBeside(ch: Chart, s: State, t: nat, a: Action)
    requires !a.DropSnapshots? && a.t == t && !a.Commit?
    ensures Beside(s, Apply(ch, s, a), t)
  {
    hide Statement;
    if !a.Begin? && t in s.flights && !s.flights[t].req.Snapshots? && !a.Abort? && !a.ReadSnapshot? {
      StatementQuiet(ch, s, t, a);
    }
  }

  lemma OtherFlight(s: State, s': State, t: nat, u: nat)
    requires Beside(s, s', t) && u != t && u in s.flights
    ensures u in s'.flights && s'.flights[u] == s.flights[u]
  {
    assert u in s.flights - {t} && (s.flights - {t})[u] == s.flights[u];
    assert u in s'.flights - {t} && (s'.flights - {t})[u] == s'.flights[u];
  }

  lemma OtherFlights(s: State, s': State, t: nat)
    requires Beside(s, s', t)
    ensures forall u | u != t :: u in s.flights <==> u in s'.flights
    ensures forall u | u != t && u in s.flights :: s'.flights[u] == s.flights[u]
  {
    forall u | u != t
      ensures (u in s.flights <==> u in s'.flights) && (u in s.flights ==> s'.flights[u] == s.flights[u])
    {
      if u in s.flights { OtherFlight(s, s', t, u); }
      if u in s'.flights { OtherFlight(s', s, t, u); }
    }
  }

  /** What stands in our way does not depend on our own transaction. */
  lemma ReasonsBeside(s: State, s': State, t: nat, req: Request, eventId: string)
    requires Beside(s, s', t) && !req.Snapshots?
    ensures KeyOpen(s, t, req) <==> KeyOpen(s', t, req)
    ensures req.key.Some? ==> (KeyReserved(s, t, req.key.value) <==> KeyReserved(s', t, req.key.value))
    ensures TxnFree(s, t, U.Opened(req)) <==> TxnFree(s', t, U.Opened(req))
    ensures EventFree(s, t, eventId) <==> EventFree(s', t, eventId)
    ensures forall a :: LockedElsewhere(s, t, a) <==> LockedElsewhere(s', t, a)
  {
    OtherFlights(s, s', t);
    hide HasTxn, HasReversal;
  }

  lemma RefusableBeside(ch: Chart, s: State, s': State, t: nat, req: Request, eventId: string)
    requires Beside(s, s', t) && !req.Snapshots?
    ensures Refusable(ch, s, t, req, eventId) <==> Refusable(ch, s', t, req, eventId)
  {
    hide TxnFree, EventFree, LockedElsewhere, IsJournal, Resolved, StillPosted, ToCheck, U.Bears;
    ReasonsBeside(s, s', t, req, eventId);
  }

  /** Inside its work, a request owns its key. */
  lemma KeyIsOurs(ch: Chart, s0: State, s: State, t: nat)
    requires K.KeysInv(s0) && Reaches(ch, s0, s, t, 0)
    requires t in s.flights && s.flights[t].Working() && !s.flights[t].req.Snapshots?
    ensures KeyOpen(s, t, s.flights[t].req)
  {
    ReachedKeys(ch, s0, s, t, 0);
    var f := s.flights[t];
    assert K.FlightKeys(s.db, f);
    if f.req.key.Some? {
      assert f.Claims(f.req.key.value);
    }
  }

  lemma FloorsFailBeside(ch: Chart, s: State, s': State, t: nat, legs: seq<Entry>)
    requires Beside(s, s', t)
    ensures FloorsFail(ch, s, t, legs) <==> FloorsFail(ch, s', t, legs)
  {
    hide LockedElsewhere, ToCheck, U.Bears;
    ReasonsBeside(s, s', t, Request.Post(None, "", "", legs, false), "");
  }

  /** The check of one account has failed: for the reason it can fail, and with the key still ours. */
  lemma FailsAt(ch: Chart, s0: State, m: State, s: State, t: nat, legs: seq<Entry>, a: string)
    requires Reaches(ch, s0, m, t, 0) && Beside(m, s, t)
    requires t in m.flights && m.flights[t].Working() && !m.flights[t].req.Snapshots?
    requires a in ToCheck(ch, legs) && (LockedElsewhere(m, t, a) || !U.Bears(ch, m.db, legs, a))
    ensures FloorsFail(ch, s, t, legs)
    ensures K.KeysInv(s0) ==> KeyOpen(s, t, m.flights[t].req)
  {
    hide ToCheck, LockedElsewhere, U.Bears, K.KeysInv, KeyOpen;
    FloorsFailBeside(ch, m, s, t, legs);
    ReasonsBeside(m, s, t, m.flights[t].req, "");
    if K.KeysInv(s0) { KeyIsOurs(ch, s0, m, t); }
  }

  lemma InChart(ch: Chart, legs: seq<Entry>)
    requires Resolved(ch, legs)
    ensures forall e | e in legs :: e.account in ch
  {
    assert forall e | e in legs :: ResolvedEntry(ch, e);
  }

  lemma NoneFails(ch: Chart, s: State, t: nat, legs: seq<Entry>)
    requires forall a | a in ToCheck(ch, legs) :: !LockedElsewhere(s, t, a) && U.Bears(ch, s.db, legs, a)
    ensures !FloorsFail(ch, s, t, legs)
  {
  }

  lemma LockStep(ch: Chart, s: State, t: nat, f: Flight)
    requires t in s.flights && s.flights[t] == f && !f.req.Snapshots? && f.phase.Checking? && f.phase.todo != []
    ensures var x := Apply(ch, s, Lock(t));
            if LockedElsewhere(s, t, f.phase.todo[0]) then x == s
            else x == Advance(s, t, f.(phase := Holding(f.phase.todo), locks := f.locks + {f.phase.todo[0]}))
  {
  }

  lemma ReadStep(ch: Chart, s: State, t: nat, f: Flight)
    requires t in s.flights && s.flights[t] == f && !f.req.Snapshots? && f.phase.Holding? && f.phase.todo != []
    requires f.phase.todo[0] in ToCheck(ch, f.legs)
    ensures Apply(ch, s, ReadBalance(t)) ==
            if U.Bears(ch, s.db, f.legs, f.phase.todo[0])
            then Advance(s, t, f.(phase := Checking(f.phase.todo[1..]))) else Drop(s, t)
  {
    hide CachedBalance, Delta;
  }

  /** The committed database and the transactions open on it. */
  class Database {
    const ch: Chart
    var st: State

    constructor (ch: Chart)
      ensures this.ch == ch && st == INITIAL
    {
      this.ch := ch;
      st := INITIAL;
    }
  }

  /** One connection's transaction. `n` counts its statements. */
  class UnitOfWork {
    const db: Database
    const t: nat
    const others: Others
    var n: nat

    constructor (db: Database, t: nat, others: Others)
      ensures this.db == db && this.t == t && this.others == others && n == 0
    {
      this.db, this.t, this.others := db, t, others;
      n := 0;
    }

    /** Our transaction is open and looks like this. */
    ghost predicate Has(f: Flight)
      reads db
    {
      t in db.st.flights && db.st.flights[t] == f
    }

    ghost predicate At(s0: State, commits: nat)
      reads db
    {
      Reaches(db.ch, s0, db.st, t, commits)
    }

    /** Nobody else does anything. */
    ghost predicate Quiet() { forall i: nat :: others(i) == [] }

    /** The others run; our transaction stays as it is. */
    method Yield(ghost s0: State, ghost commits: nat)
      requires ForeignOnly(others, t) && At(s0, commits)
      modifies db, `n
      ensures At(s0, commits) && (Quiet() ==> db.st == old(db.st))
      ensures db.st == Run(db.ch, old(db.st), others(old(n))) && n == old(n) + 1
      ensures t in db.st.flights <==> t in old(db.st).flights
      ensures t in db.st.flights ==> db.st.flights[t] == old(db.st).flights[t]
    {
      hide Reaches, Apply;
      var actions := others(n);
      assert AllForeign(actions, t);
      n := n + 1;
      for i := 0 to |actions|
        invariant At(s0, commits) && db.st == Run(db.ch, old(db.st), actions[..i]) && n == old(n) + 1
        invariant t in db.st.flights <==> t in old(db.st).flights
        invariant t in db.st.flights ==> db.st.flights[t] == old(db.st).flights[t]
      {
        assert Foreign(actions[i], t);
        ReachesStep(db.ch, s0, db.st, actions[i], t, commits);
        ForeignKeeps(db.ch, db.st, actions[i], t);
        assert actions[..i + 1][..i] == actions[..i];
        db.st := Apply(db.ch, db.st, actions[i]);
      }
      assert actions[..|actions|] == actions;
    }

    /** One statement, now. */
    method Now(a: Action, ghost s0: State, ghost commits: nat)
      requires At(s0, commits) && !a.DropSnapshots? && a.t == t
      modifies db
      ensures db.st == Apply(db.ch, old(db.st), a) && (!a.Commit? ==> Beside(old(db.st), db.st, t))
      ensures At(s0, commits + if a == Commit(t) then 1 else 0)
    {
      hide Reaches, Apply, Beside;
      if !a.Commit? {
        OwnIsBeside(db.ch, db.st, t, a);
      }
      ReachesStep(db.ch, s0, db.st, a, t, commits);
      db.st := Apply(db.ch, db.st, a);
    }

    /** One statement, after whatever the others did first. */
    method Do(a: Action, ghost s0: State, ghost commits: nat) returns (ghost before: State)
      requires ForeignOnly(others, t) && At(s0, commits) && !a.DropSnapshots? && a.t == t
      modifies db, `n
      ensures Reaches(db.ch, s0, before, t, commits)
      ensures db.st == Apply(db.ch, before, a) && (!a.Commit? ==> Beside(before, db.st, t))
      ensures Quiet() ==> before == old(db.st)
      ensures before == Run(db.ch, old(db.st), others(old(n))) && n == old(n) + 1
      ensures t in before.flights <==> t in old(db.st).flights
      ensures t in before.flights ==> before.flights[t] == old(db.st).flights[t]
      ensures At(s0, commits + if a == Commit(t) then 1 else 0)
    {
      hide Run, Reaches, Apply, Beside, Quiet;
      Yield(s0, commits);
      before := db.st;
      Now(a, s0, commits);
    }

    /** `_check_floors`: the net effect per account, then for each floored account that goes down,
        its row lock and its balance. */
    method CheckFloors(legs: seq<Entry>, ghost f: Flight, ghost s0: State) returns (ok: bool)
      requires ForeignOnly(others, t) && At(s0, 0) && Has(f) && !f.req.Snapshots?
      requires f.phase == Checking(ToCheck(db.ch, legs)) && Resolved(db.ch, legs) && f.req.Post? && f.legs == legs
      modifies db, `n
      ensures At(s0, 0)
      ensures ok ==> t in db.st.flights && var g := db.st.flights[t];
                     g == f.(phase := Checking([]), locks := g.locks) && Checked(db.ch, db.st, g)
      ensures !ok ==> FloorsFail(db.ch, db.st, t, legs) && (K.KeysInv(s0) ==> KeyOpen(db.st, t, f.req))
      ensures Quiet() ==> Beside(old(db.st), db.st, t)
      ensures Quiet() ==> (ok <==> !FloorsFail(db.ch, old(db.st), t, legs))
    {
      hide Run, Reaches, CachedBalance, Delta, ToCheck, Checked, Apply, Quiet, U.Bears, LockedElsewhere, KeyOpen;
      hide K.KeysInv, FloorsFail, Resolved, ResolvedEntry;
      InChart(db.ch, legs);
      var todo := F.AccountsToCheck(db.ch, legs);
      ghost var g := f;
      for i := 0 to |todo|
        invariant At(s0, 0) && Has(g) && g == f.(phase := Checking(todo[i..]), locks := g.locks)
        invariant forall a | a in todo[..i] :: a in g.locks
        invariant Quiet() ==> Beside(old(db.st), db.st, t)
        invariant Quiet() ==> forall a | a in todo[..i] ::
                                !LockedElsewhere(old(db.st), t, a) && U.Bears(db.ch, old(db.st).db, legs, a)
      {
        assert todo[i..][0] == todo[i] && todo[i] in todo && todo[i..][1..] == todo[i + 1..];
        ghost var m := Do(Lock(t), s0, 0);
        LockStep(db.ch, m, t, g);
        if db.st.flights[t].phase.Checking? {
          FailsAt(db.ch, s0, m, db.st, t, legs, todo[i]);
          if Quiet() { FloorsFailBeside(db.ch, old(db.st), db.st, t, legs); }
          return false;   // the lock wait timed out
        }
        if Quiet() { ReasonsBeside(old(db.st), m, t, f.req, ""); }
        g := db.st.flights[t];
        m := Do(ReadBalance(t), s0, 0);
        ReadStep(db.ch, m, t, g);
        if t !in db.st.flights || !db.st.flights[t].phase.Checking? {
          FailsAt(db.ch, s0, m, db.st, t, legs, todo[i]);
          if Quiet() { FloorsFailBeside(db.ch, old(db.st), db.st, t, legs); }
          return false;   // insufficient funds
        }
        g := db.st.flights[t];
      }
      ok := true;
      ListIsChecked(db.ch, db.st, t);
      if Quiet() { NoneFails(db.ch, old(db.st), t, legs); }
    }

    /** The inserts shared by postings and reversals, and the outbox row. */
    method Write(ghost f: Flight, reversal: bool, eventId: string, ghost s0: State) returns (ok: bool)
      requires ForeignOnly(others, t) && At(s0, 0) && Has(f) && f.phase == Checking([]) && !f.req.Snapshots?
      requires reversal == f.req.Reverse?
      modifies db, `n
      ensures At(s0, 0)
      ensures ok ==> t in db.st.flights && var g := db.st.flights[t];
                     && g == f.(phase := Emitted, rows := g.rows, event := g.event)
                     && g.event.Some? && g.event.value.eventId == eventId && LegsOf(g.rows) == f.legs
      ensures !ok ==> IdsTaken(db.st, t, f.req, eventId) && (K.KeysInv(s0) ==> KeyOpen(db.st, t, f.req))
      ensures Quiet() ==> Beside(old(db.st), db.st, t) && (ok <==> !IdsTaken(old(db.st), t, f.req, eventId))
    {
      hide Run, Reaches, Apply, LegsOf, Number, Quiet, TxnFree, EventFree, KeyOpen, K.KeysInv;
      ghost var m := Do(InsertTxn(t), s0, 0);
      WriteSteps(db.ch, m, t, f, eventId);
      ReasonsBeside(m, db.st, t, f.req, eventId);
      if !db.st.flights[t].phase.TxnInserted? {
        if K.KeysInv(s0) { KeyIsOurs(db.ch, s0, db.st, t); }
        return false;   // unique violation
      }
      if Quiet() { ReasonsBeside(old(db.st), db.st, t, f.req, eventId); }
      ghost var g := db.st.flights[t];
      m := Do(InsertEntries(t), s0, 0);
      WriteSteps(db.ch, m, t, g, eventId);
      NumberedLegs(m.nextEntry, f.req.txnId, f.legs);
      if reversal {
        g := db.st.flights[t];
        m := Do(MarkReversed(t), s0, 0);
        WriteSteps(db.ch, m, t, g, eventId);
      }
      g := db.st.flights[t];
      m := Do(Emit(t, eventId), s0, 0);
      WriteSteps(db.ch, m, t, g, eventId);
      ReasonsBeside(m, db.st, t, f.req, eventId);
      if Quiet() { ReasonsBeside(old(db.st), db.st, t, f.req, eventId); }
      if K.KeysInv(s0) { KeyIsOurs(db.ch, s0, db.st, t); }
      ok := db.st.flights[t].phase.Emitted?;
    }

    /** `post_transaction`: build, check floors, insert, emit. */
    method PostTransaction(legs: seq<Entry>, ghost f: Flight, eventId: string, ghost s0: State) returns (ok: bool)
      requires ForeignOnly(others, t) && At(s0, 0) && Has(f) && f.phase.Ready? && f.req.Post? && f.req.legs == legs
      modifies db, `n
      ensures At(s0, 0)
      ensures ok ==> t in db.st.flights && var g := db.st.flights[t];
                     && g == f.(phase := Emitted, legs := f.req.legs, locks := g.locks,
                                rows := g.rows, event := g.event)
                     && g.event.Some? && g.event.value.eventId == eventId && LegsOf(g.rows) == f.req.legs
                     && IsJournal(f.req.legs) && Resolved(db.ch, f.req.legs) && Checked(db.ch, db.st, g)
      ensures !ok ==> Refusable(db.ch, db.st, t, f.req, eventId) && (K.KeysInv(s0) ==> KeyOpen(db.st, t, f.req))
      ensures Quiet() ==> Beside(old(db.st), db.st, t) && (ok <==> !Refusable(db.ch, old(db.st), t, f.req, eventId))
    {
      hide Run, Reaches, ToCheck, IsJournal, Resolved, Checked, Quiet, TxnFree, EventFree, FloorsFail, KeyOpen;
      hide K.KeysInv;
      ghost var m := Do(Build(t), s0, 0);
      if !db.st.flights[t].phase.Checking? {
        if K.KeysInv(s0) { KeyIsOurs(db.ch, s0, db.st, t); }
        return false;   // an account does not resolve, or the rule refuses
      }
      FloorsFailBeside(db.ch, m, db.st, t, legs);
      ok := CheckFloors(legs, db.st.flights[t], s0);
      if Quiet() {
        ReasonsBeside(m, db.st, t, f.req, eventId);
        FloorsFailBeside(db.ch, m, db.st, t, legs);
      }
      if ok {
        ghost var g := db.st.flights[t];
        assert forall a | a in ToCheck(db.ch, g.legs) :: a in g.locks by { LocksOf(db.ch, db.st, g); }
        ok := Write(g, false, eventId, s0);
        if ok {
          ListIsChecked(db.ch, db.st, t);
        }
      }
    }

    /** `reverse_transaction`: read the original, mirror it, insert, mark it reversed, emit. No floor
        is checked. */
    method ReverseTransaction(ghost f: Flight, eventId: string, ghost s0: State) returns (ok: bool)
      requires ForeignOnly(others, t) && At(s0, 0) && Has(f) && f.phase.Ready? && f.req.Reverse? && B.BooksInv(s0)
      modifies db, `n
      ensures At(s0, 0)
      ensures ok ==> t in db.st.flights && var g, original := db.st.flights[t], TxnLegs(db.st.db, f.req.target);
                     && g == f.(phase := Emitted, legs := ReversedAll(original), rows := g.rows, event := g.event)
                     && g.event.Some? && g.event.value.eventId == eventId && LegsOf(g.rows) == ReversedAll(original)
                     && IsJournal(original) && HasTxn(db.st.db.txns, f.req.target)
      ensures !ok ==> Refusable(db.ch, db.st, t, f.req, eventId) && (K.KeysInv(s0) ==> KeyOpen(db.st, t, f.req))
      ensures Quiet() ==> Beside(old(db.st), db.st, t) && (ok <==> !Refusable(db.ch, old(db.st), t, f.req, eventId))
    {
      hide Run, Reaches, IsJournal, StillPosted, TxnLegs, HasTxn, LegsOf, B.BooksInv, Quiet, IdsTaken, KeyOpen;
      hide K.KeysInv;
      ghost var m := Do(Build(t), s0, 0);
      PostedIsJournal(db.ch, s0, m, t, f.req.target);
      if !db.st.flights[t].phase.Checking? {
        if K.KeysInv(s0) { KeyIsOurs(db.ch, s0, db.st, t); }
        return false;   // not found, or already reversed
      }
      RefusableBeside(db.ch, m, db.st, t, f.req, eventId);
      ok := Write(db.st.flights[t], true, eventId, s0);
      if ok {
        ReversesTarget(db.ch, s0, db.st, t);
      }
    }
  }

  lemma PostedIsJournal(ch: Chart, s0: State, s: State, t: nat, target: string)
    requires B.BooksInv(s0) && Reaches(ch, s0, s, t, 0)
    ensures StillPosted(s.db.txns, target) ==> IsJournal(TxnLegs(s.db, target))
  {
    var actions :| Run(ch, s0, actions) == s && Commits(actions, t) == 0;
    B.RunKeepsBooks(ch, s0, actions);
  }

  /** The original read at the start is still the target's own. */
  lemma ReversesTarget(ch: Chart, s0: State, s: State, t: nat)
    requires B.BooksInv(s0) && Reaches(ch, s0, s, t, 0)
    requires t in s.flights && s.flights[t].req.Reverse? && s.flights[t].Built()
    ensures var target := s.flights[t].req.target;
            && HasTxn(s.db.txns, target) && IsJournal(TxnLegs(s.db, target))
            && s.flights[t].legs == ReversedAll(TxnLegs(s.db, target))
  {
    hide IsJournal, TxnLegs, ReversedAll;
    var actions :| Run(ch, s0, actions) == s && Commits(actions, t) == 0;
    B.RunKeepsBooks(ch, s0, actions);
    assert B.FlightOk(s.db, s.flights[t]);
    var i :| 0 <= i < |s.db.txns| && s.db.txns[i].id == s.flights[t].req.target;
  }

  /** What the work sees of the key: `Slot`. */
  class Slot {
    const uow: UnitOfWork
    var replayed: bool
    var response: Option<Resource>

    constructor (uow: UnitOfWork, response: Option<Resource>)
      ensures this.uow == uow && this.response == response && replayed == response.Some?
    {
      this.uow, this.response, replayed := uow, response, response.Some?;
    }

    /** `Slot.complete`: remember the response, and store it with the key, in the same transaction. */
    method Complete(ghost f: Flight, body: Resource, ghost s0: State)
      requires ForeignOnly(uow.others, uow.t) && uow.At(s0, 0) && uow.Has(f)
      requires f.phase.Emitted? && !f.req.Snapshots? && body == f.Body()
      modifies this, uow.db, uow`n
      ensures uow.At(s0, 0) && response == Some(body) && replayed == old(replayed)
      ensures uow.t in uow.db.st.flights
      ensures var g := uow.db.st.flights[uow.t];
              g == f.(phase := Finished, keyRow := if f.keyRow.Some? then Some(Completed(f.req.fp, body)) else None)
    {
      hide Run, Reaches;
      response := Some(body);
      ghost var m := uow.Do(Action.Complete(uow.t), s0, 0);
    }
  }

  // ---- the request ----

  /** What `idempotent` finds out before the work: go on, or answer without it. */
  datatype Claimed = Proceed | Answer(reply: Reply)

  lemma KeySteps(ch: Chart, s: State, t: nat, f: Flight, expired: bool)
    requires t in s.flights && s.flights[t] == f && !f.req.Snapshots?
    ensures f.phase.Started? ==>
              Apply(ch, s, Claim(t)) ==
              if f.req.key.None? then Advance(s, t, f.(phase := Ready))
              else if f.req.key.value in s.db.keys then Advance(s, t, f.(phase := Conflicted))
              else if KeyReserved(s, t, f.req.key.value) then s
              else Advance(s, t, f.(phase := Ready, keyRow := Some(InProgress(f.req.fp))))
    ensures f.phase.Conflicted? && f.req.key.Some? && f.req.key.value in s.db.keys
            && s.db.keys[f.req.key.value].Completed? ==>
              var row := s.db.keys[f.req.key.value];
              Apply(ch, s, ReadKey(t, expired)) ==
              if row.fp == f.req.fp then Advance(s, t, f.(phase := Replaying(row.body))) else Drop(s, t)
    ensures f.phase.Conflicted? ==>
              var x := Apply(ch, s, ReadKey(t, expired));
              t in x.flights ==>
                && x.flights[t] == f.(phase := x.flights[t].phase, keyRow := x.flights[t].keyRow)
                && (x.flights[t].phase.Ready? || x.flights[t].phase.Replaying?)
    ensures f.phase.Conflicted? && f.req.key.Some? && t in Apply(ch, s, ReadKey(t, expired)).flights
            && Apply(ch, s, ReadKey(t, expired)).flights[t].phase.Ready? ==>
              f.req.key.value in s.db.keys ==> s.db.keys[f.req.key.value].InProgress? && expired
    ensures f.phase.Conflicted? && f.req.key.Some? && t !in Apply(ch, s, ReadKey(t, expired)).flights ==>
              && f.req.key.value in s.db.keys
              && if s.db.keys[f.req.key.value].Completed? then s.db.keys[f.req.key.value].fp != f.req.fp else !expired
    ensures f.phase.Replaying? || f.phase.Committed? ==>
              Apply(ch, s, Action.Reply(t)) ==
              Drop(s, t).(replies := s.replies + [Delivered(f.req.key, f.req.fp, f.phase.body)])
    ensures Apply(ch, s, Abort(t)) == Drop(s, t)
  {
    hide KeyReserved;
  }

  lemma CommitStep(ch: Chart, s: State, t: nat, f: Flight)
    requires B.BooksInv(s) && t in s.flights && s.flights[t] == f && !f.req.Snapshots? && f.phase.Finished?
    ensures var x := Apply(ch, s, Commit(t));
            && t in x.flights && x.flights[t].phase == Committed(f.Body()) && x.flights[t].req == f.req
            && Stands(x.db, f.req, f.Body())
  {
    hide TriggerPasses, CommittedDb, Stands, B.BooksOk, B.FlightOk;
    B.TriggerOk(s, t);
    CommitStands(s.db, f);
  }

  /** The key is decided, for a request with another body. */
  ghost predicate UsedOtherwise(db: Db, req: Request)
    requires !req.Snapshots?
  {
    && req.key.Some? && req.key.value in db.keys
    && db.keys[req.key.value].Completed? && db.keys[req.key.value].fp != req.fp
  }

  /** A row in progress is passed over only once its lease has expired. */
  ghost predicate TakenOver(db: Db, req: Request, leaseExpired: bool)
    requires !req.Snapshots?
  {
    req.key.Some? && req.key.value in db.keys ==> db.keys[req.key.value].InProgress? && leaseExpired
  }

  /** The answer about the key is the right one for the tables as they are. */
  ghost predicate Tells(s: State, t: nat, req: Request, claimed: Claimed)
    requires !req.Snapshots?
  {
    && (claimed.Proceed? <==> KeyOpen(s, t, req))
    && (claimed == Answer(InFlight) <==> req.key.Some? && KeyReserved(s, t, req.key.value))
    && (claimed == Answer(KeyReuse) <==> UsedOtherwise(s.db, req))
    && (claimed.Answer? && claimed.reply.Replayed? <==>
          req.key.Some? && req.key.value in s.db.keys && s.db.keys[req.key.value].fp == req.fp)
    && (claimed.Answer? && claimed.reply.Replayed? ==> K.CompletedAs(s.db, req.key, req.fp, claimed.reply.body))
  }

  /** A key is open, reserved or decided, and no two at once. */
  lemma TellsOne(ch: Chart, s0: State, s: State, t: nat, req: Request, claimed: Claimed)
    requires Reaches(ch, s0, s, t, 0) && K.KeysInv(s0) && !req.Snapshots?
    requires match claimed
             case Proceed => KeyOpen(s, t, req)
             case Answer(InFlight) =>
               && req.key.Some?
               && (req.key.value in s.db.keys ==> s.db.keys[req.key.value].InProgress?)
               && (req.key.value !in s.db.keys ==> KeyReserved(s, t, req.key.value))
             case Answer(KeyReuse) => UsedOtherwise(s.db, req)
             case Answer(Replayed(body)) => req.key.Some? && K.CompletedAs(s.db, req.key, req.fp, body)
             case _ => false
    ensures Tells(s, t, req, claimed)
  {
    ReachedKeys(ch, s0, s, t, 0);
    if req.key.Some? {
      forall u | u in s.flights && s.flights[u].Claims(req.key.value) ensures req.key.value !in s.db.keys {
        assert K.FlightKeys(s.db, s.flights[u]);
      }
    }
  }

  /** Hand the stored response back. */
  method ReplaySlot(uow: UnitOfWork, body: Resource, ghost g: Flight, ghost s0: State) returns (slot: Slot)
    requires ForeignOnly(uow.others, uow.t) && uow.At(s0, 0) && uow.Has(g)
    requires !g.req.Snapshots? && g.phase == Replaying(body)
    modifies uow.db, uow`n
    ensures uow.At(s0, 0) && uow.n == old(uow.n) + 1 && uow.t !in uow.db.st.flights
    ensures slot.uow == uow && fresh(slot) && slot.replayed && slot.response == Some(body)
    ensures Delivered(g.req.key, g.req.fp, body) in uow.db.st.replies
    ensures uow.Quiet() ==> Beside(old(uow.db.st), uow.db.st, uow.t)
  {
    hide Run, Reaches, Apply;
    slot := new Slot(uow, Some(body));
    ghost var before := uow.Do(Action.Reply(uow.t), s0, 0);
    KeySteps(uow.db.ch, before, uow.t, g, false);
  }

  /** Someone else owns the key: read its row. */
  method ReadSlot(uow: UnitOfWork, req: Request, leaseExpired: bool, ghost f: Flight, ghost s0: State, none: Slot)
    returns (claimed: Claimed, slot: Slot)
    requires ForeignOnly(uow.others, uow.t) && uow.At(s0, 0) && uow.Has(f) && none.uow == uow && !none.replayed
    requires !req.Snapshots? && req.key.Some? && f == U.Opened(req).(phase := Conflicted)
    modifies uow.db, uow`n
    ensures uow.At(s0, 0) && slot.uow == uow && (slot == none || fresh(slot))
    ensures uow.Quiet() ==> Beside(old(uow.db.st), uow.db.st, uow.t)
    ensures claimed.Proceed? ==>
              && uow.t in uow.db.st.flights && !slot.replayed
              && var g := uow.db.st.flights[uow.t]; g == U.Opened(req).(phase := Ready, keyRow := g.keyRow)
    ensures claimed.Answer? ==> uow.t !in uow.db.st.flights
    ensures uow.n == old(uow.n) + if slot.replayed then 2 else 1
    ensures slot.replayed <==> claimed.Answer? && claimed.reply.Replayed?
    ensures slot.replayed ==> slot.response == Some(claimed.reply.body)
    ensures match claimed
            case Proceed =>
              && !(K.KeysInv(s0) && req.key.value in old(uow.db.st).db.keys)
              && TakenOver(uow.db.st.db, req, leaseExpired)
            case Answer(InFlight) =>
              req.key.value in uow.db.st.db.keys && uow.db.st.db.keys[req.key.value].InProgress? && !leaseExpired
            case Answer(KeyReuse) => UsedOtherwise(uow.db.st.db, req)
            case Answer(Replayed(body)) =>
              && Delivered(req.key, req.fp, body) in uow.db.st.replies
              && (K.KeysInv(s0) && req.key.value in old(uow.db.st).db.keys ==>
                    K.CompletedAs(uow.db.st.db, req.key, req.fp, body))
            case _ => false
  {
    hide Run, Reaches, Apply, KeyReserved, K.KeysInv, UnitOfWork.Quiet;
    var t, db := uow.t, uow.db;
    slot := none;
    ghost var m := db.st;
    if K.KeysInv(s0) { ReachedKeys(db.ch, s0, m, t, 0); }
    ReachesSelf(db.ch, m, t);
    uow.Yield(m, 0);
    var existing := if req.key.value in db.st.db.keys then Some(db.st.db.keys[req.key.value]) else None;
    ghost var before := db.st;
    KeyStays(db.ch, m, before, t, req);
    uow.Now(ReadKey(t, leaseExpired), m, 0);
    KeySteps(db.ch, before, t, f, leaseExpired);
    ReachesJoin(db.ch, s0, m, db.st, t, 0);
    if t !in db.st.flights {
      return Answer(if existing.Some? && existing.value.Completed? then KeyReuse else InFlight), slot;
    }
    if db.st.flights[t].phase.Ready? {
      return Proceed, slot;
    }
    var body := db.st.flights[t].phase.body;
    slot := ReplaySlot(uow, body, db.st.flights[t], m);
    KeyStays(db.ch, m, db.st, t, req);
    ReachesJoin(db.ch, s0, m, db.st, t, 0);
    return Answer(Replayed(body)), slot;
  }

  /** Open the transaction and try to claim the key. */
  method ClaimSlot(uow: UnitOfWork, req: Request, ghost s0: State) returns (phase: Phase)
    requires ForeignOnly(uow.others, uow.t) && !req.Snapshots? && uow.t !in uow.db.st.flights && uow.db.st == s0
    modifies uow.db, uow`n
    ensures uow.At(s0, 0) && uow.n == old(uow.n) + 2 && (uow.Quiet() ==> Beside(s0, uow.db.st, uow.t))
    ensures uow.t in uow.db.st.flights && uow.db.st.flights[uow.t].phase == phase
    ensures var g := uow.db.st.flights[uow.t];
            && g == U.Opened(req).(phase := phase, keyRow := g.keyRow)
            && (phase.Started? || phase.Conflicted? ==> g.keyRow.None?)
    ensures (phase.Ready? && KeyOpen(uow.db.st, uow.t, req))
            || (phase.Conflicted? && req.key.Some? && req.key.value in uow.db.st.db.keys)
            || (phase.Started? && req.key.Some? && req.key.value !in uow.db.st.db.keys
                && KeyReserved(uow.db.st, uow.t, req.key.value))
  {
    hide Run, Reaches, Apply, KeyReserved;
    var t, db := uow.t, uow.db;
    ReachesSelf(db.ch, s0, t);
    ghost var m := uow.Do(Begin(t, req), s0, 0);
    BeginStep(db.ch, m, t, req);
    m := uow.Do(Claim(t), s0, 0);
    KeySteps(db.ch, m, t, U.Opened(req), false);
    ReasonsBeside(m, db.st, t, req, "");
    phase := db.st.flights[t].phase;
  }

  /** `idempotent`, up to the yield: open the transaction and claim the key, or find who owns it. */
  method OpenSlot(uow: UnitOfWork, req: Request, leaseExpired: bool, ghost s0: State)
    returns (claimed: Claimed, slot: Slot)
    requires ForeignOnly(uow.others, uow.t) && !req.Snapshots? && uow.t !in uow.db.st.flights && uow.db.st == s0
    modifies uow.db, uow`n
    ensures uow.At(s0, 0) && slot.uow == uow && fresh(slot)
    ensures claimed.Proceed? ==>
              && uow.t in uow.db.st.flights && !slot.replayed
              && var g := uow.db.st.flights[uow.t];
                 g == Flight(req, Ready, g.keyRow, {}, [], [], None, [])
    ensures claimed.Answer? ==>
              && uow.t !in uow.db.st.flights
              && !claimed.reply.Created? && !claimed.reply.Refused?
              && (claimed.reply.Replayed? ==> Delivered(req.key, req.fp, claimed.reply.body) in uow.db.st.replies)
    ensures K.KeysInv(s0) && req.key.Some? && req.key.value in s0.db.keys ==>
              claimed == Answer(if s0.db.keys[req.key.value].fp == req.fp
                                then Replayed(s0.db.keys[req.key.value].body) else KeyReuse)
    ensures slot.replayed <==> claimed.Answer? && claimed.reply.Replayed?
    ensures slot.replayed ==> slot.response == Some(claimed.reply.body)
    ensures old(uow.n) + (if slot.replayed then 4 else 2) <= uow.n <= old(uow.n) + 4
    ensures uow.Quiet() ==> Beside(s0, uow.db.st, uow.t)
    ensures claimed == Answer(InFlight) ==>
              && req.key.Some?
              && if req.key.value in uow.db.st.db.keys
                 then uow.db.st.db.keys[req.key.value].InProgress? && !leaseExpired
                 else KeyReserved(uow.db.st, uow.t, req.key.value)
    ensures claimed == Answer(KeyReuse) ==> UsedOtherwise(uow.db.st.db, req)
    ensures claimed.Proceed? ==> TakenOver(uow.db.st.db, req, leaseExpired)
    ensures K.KeysInv(s0) ==> Tells(uow.db.st, uow.t, req, claimed)
  {
    hide Run, Reaches, Apply, KeyReserved, K.KeysInv, Tells;
    var t, db := uow.t, uow.db;
    slot := new Slot(uow, None);
    var phase := ClaimSlot(uow, req, s0);
    ghost var m := db.st;
    if phase.Started? {
      AbortNow(uow, s0);
      ReasonsBeside(m, db.st, t, req, "");
      claimed := Answer(InFlight);
    } else if phase.Ready? {
      claimed := Proceed;
    } else {
      claimed, slot := ReadSlot(uow, req, leaseExpired, db.st.flights[t], s0, slot);
    }
    KeyStays(db.ch, s0, db.st, t, req);
    if K.KeysInv(s0) {
      TellsOne(db.ch, s0, db.st, t, req, claimed);
    }
  }

  method AbortNow(uow: UnitOfWork, ghost s0: State)
    requires uow.At(s0, 0)
    modifies uow.db
    ensures uow.At(s0, 0) && uow.t !in uow.db.st.flights && Beside(old(uow.db.st), uow.db.st, uow.t)
  {
    uow.Now(Abort(uow.t), s0, 0);
  }

  lemma BeginStep(ch: Chart, s: State, t: nat, req: Request)
    requires t !in s.flights
    ensures Apply(ch, s, Begin(t, req)) == Advance(s, t, Flight(req, Started, None, {}, [], [], None, []))
  {
  }

  /** A decided key is still decided, the same way, at any later point. */
  lemma KeyStays(ch: Chart, s: State, s': State, t: nat, req: Request)
    requires Reaches(ch, s, s', t, 0) && !req.Snapshots?
    ensures K.KeysInv(s) && req.key.Some? && req.key.value in s.db.keys ==>
              req.key.value in s'.db.keys && s'.db.keys[req.key.value] == s.db.keys[req.key.value]
              && s'.db.keys[req.key.value].Completed?
  {
    if K.KeysInv(s) {
      ReachedKeys(ch, s, s', t, 0);
    }
  }

  /** With nothing else going on in between, an unhindered and well-formed posting succeeds exactly when
      each listed account can bear its delta, and an unhindered reversal of a posted transaction always. */
  ghost predicate SucceedsIff(ch: Chart, s: State, t: nat, req: Request, eventId: string, created: bool)
    requires !req.Snapshots?
  {
    U.Unhindered(ch, s, t, req, eventId) ==>
      && (req.Post? && IsJournal(req.legs) && Resolved(ch, req.legs) ==>
            (created <==> forall a | a in ToCheck(ch, req.legs) :: U.Bears(ch, s.db, req.legs, a)))
      && (req.Reverse? && StillPosted(s.db.txns, req.target) ==> created)
  }

  lemma UnhinderedSucceeds(ch: Chart, s: State, t: nat, req: Request, eventId: string)
    requires !req.Snapshots?
    ensures SucceedsIff(ch, s, t, req, eventId, KeyOpen(s, t, req) && !Refusable(ch, s, t, req, eventId))
  {
    hide IsJournal, Resolved, ToCheck, U.Bears, HasTxn, HasReversal;
    if U.Unhindered(ch, s, t, req, eventId) {
      assert forall u | u in s.flights :: U.Clear(s.flights[u], req, eventId);
      if req.Post? {
        forall a | a in ToCheck(ch, req.legs) ensures !LockedElsewhere(s, t, a) {
          assert U.Unlocked(s, a);
        }
      }
    }
  }

  /** A keyed request from start to finish. However the other connections interleave: a reply other
      than `Created` comes from a request that committed nothing, a `Created` one from exactly one
      commit; a created body is the transaction's own, stored under the key; a decided key always
      replays the stored body, or is refused to another fingerprint. At the end the tables bear out the
      answer: the key is another transaction's, or was used for another body, or something the request
      can be refused for is the case. */
  method HandleRequest(uow: UnitOfWork, req: Request, eventId: string, leaseExpired: bool) returns (reply: Reply)
    requires ForeignOnly(uow.others, uow.t) && !req.Snapshots? && uow.t !in uow.db.st.flights
    requires K.KeysInv(uow.db.st) && B.BooksInv(uow.db.st)
    modifies uow.db, uow`n
    ensures uow.At(old(uow.db.st), if reply.Created? then 1 else 0)
    ensures K.KeysInv(uow.db.st) && B.BooksInv(uow.db.st) && uow.t !in uow.db.st.flights
    ensures reply.Created? || reply.Replayed? ==>
              && Delivered(req.key, req.fp, reply.body) in uow.db.st.replies
              && K.CompletedAs(uow.db.st.db, req.key, req.fp, reply.body)
    ensures reply.Created? ==>
              && Stands(uow.db.st.db, req, reply.body)
              && (req.Post? ==> LegsOf(reply.body.rows) == req.legs && IsJournal(req.legs))
              && (req.Reverse? ==>
                    && HasTxn(uow.db.st.db.txns, req.target)
                    && LegsOf(reply.body.rows) == ReversedAll(TxnLegs(uow.db.st.db, req.target)))
    ensures req.key.Some? && req.key.value in old(uow.db.st).db.keys ==>
              var row := old(uow.db.st).db.keys[req.key.value];
              row.Completed? && reply == if row.fp == req.fp then Replayed(row.body) else KeyReuse
    ensures reply == InFlight <==> req.key.Some? && KeyReserved(uow.db.st, uow.t, req.key.value)
    ensures reply == KeyReuse <==> UsedOtherwise(uow.db.st.db, req)
    ensures reply.Refused? ==> Refusable(uow.db.ch, uow.db.st, uow.t, req, eventId)
    ensures uow.Quiet() ==>
              (reply.Created? <==> KeyOpen(old(uow.db.st), uow.t, req)
                                   && !Refusable(uow.db.ch, old(uow.db.st), uow.t, req, eventId))
    ensures uow.Quiet() ==> SucceedsIff(uow.db.ch, old(uow.db.st), uow.t, req, eventId, reply.Created?)
  {
    hide Run, Reaches, Apply, K.KeysInv, B.BooksInv, HasTxn, LegsOf, IsJournal, Resolved, ReversedAll, ForeignOnly;
    hide Stands;
    hide Refusable, KeyReserved, UsedOtherwise, KeyOpen, Checked, SucceedsIff;
    var t, db := uow.t, uow.db;
    ghost var s0 := db.st;
    DecidedIsCompleted(s0);
    UnhinderedSucceeds(db.ch, s0, t, req, eventId);
    var claimed, slot := OpenSlot(uow, req, leaseExpired, s0);
    if uow.Quiet() {
      ReasonsBeside(s0, db.st, t, req, eventId);
      RefusableBeside(db.ch, s0, db.st, t, req, eventId);
    }
    if claimed.Answer? {
      Answered(db.ch, s0, db.st, t, 0);
      return claimed.reply;
    }
    ghost var f := db.st.flights[t];
    var ok;
    if req.Post? {
      ok := uow.PostTransaction(req.legs, f, eventId, s0);
    } else {
      ok := uow.ReverseTransaction(f, eventId, s0);
    }
    if !ok {
      ghost var m := db.st;
      AbortNow(uow, s0);
      Answered(db.ch, s0, db.st, t, 0);
      ReasonsBeside(m, db.st, t, req, eventId);
      RefusableBeside(db.ch, m, db.st, t, req, eventId);
      OpenIsNeither(db.st, t, req);
      return Refused;
    }
    var body := db.st.flights[t].Body();
    slot.Complete(db.st.flights[t], body, s0);
    ghost var g := db.st.flights[t];
    Finish(uow, req, body, g, s0);
    Answered(db.ch, s0, db.st, t, 1);
    MirrorsTarget(db.st, req, body);
    DecidedIsNeither(db.st, t, req, body);
    reply := Created(body);
  }

  lemma OpenIsNeither(s: State, t: nat, req: Request)
    requires !req.Snapshots? && KeyOpen(s, t, req)
    ensures !UsedOtherwise(s.db, req) && (req.key.Some? ==> !KeyReserved(s, t, req.key.value))
  {
  }

  lemma DecidedIsNeither(s: State, t: nat, req: Request, body: Resource)
    requires K.KeysInv(s) && !req.Snapshots? && K.CompletedAs(s.db, req.key, req.fp, body)
    ensures !UsedOtherwise(s.db, req) && (req.key.Some? ==> !KeyReserved(s, t, req.key.value))
  {
    assert forall u | u in s.flights :: K.FlightKeys(s.db, s.flights[u]);
  }

  lemma MirrorsTarget(s: State, req: Request, body: Resource)
    requires B.BooksInv(s) && !req.Snapshots? && Stands(s.db, req, body)
    ensures req.Reverse? ==>
              HasTxn(s.db.txns, req.target) && LegsOf(body.rows) == ReversedAll(TxnLegs(s.db, req.target))
  {
    if req.Reverse? {
      B.ReversalIsLater(s.db, req.txnId, req.target);
    }
  }

  lemma DecidedIsCompleted(s: State)
    requires K.KeysInv(s)
    ensures forall k | k in s.db.keys :: s.db.keys[k].Completed?
  {
  }

  lemma Answered(ch: Chart, s: State, s': State, t: nat, commits: nat)
    requires K.KeysInv(s) && B.BooksInv(s) && Reaches(ch, s, s', t, commits)
    ensures K.KeysInv(s') && B.BooksInv(s')
    ensures forall r | r in s'.replies :: K.CompletedAs(s'.db, r.key, r.fp, r.body)
  {
    var actions :| Run(ch, s, actions) == s' && Commits(actions, t) == commits;
    K.RunKeepsKeys(ch, s, actions);
    B.RunKeepsBooks(ch, s, actions);
  }

  /** Leaving the `with` block: commit, then answer. The deferred trigger does not fire. */
  method Finish(uow: UnitOfWork, req: Request, body: Resource, ghost g: Flight, ghost s0: State)
    requires ForeignOnly(uow.others, uow.t) && uow.At(s0, 0) && uow.Has(g) && K.KeysInv(s0) && B.BooksInv(s0)
    requires g.req == req && !req.Snapshots? && g.phase.Finished? && g.event.Some? && body == g.Body()
    modifies uow.db, uow`n
    ensures uow.At(s0, 1) && uow.t !in uow.db.st.flights && uow.n == old(uow.n) + 2
    ensures Delivered(req.key, req.fp, body) in uow.db.st.replies && Stands(uow.db.st.db, req, body)
  {
    hide Run, Reaches, Apply, Stands, ForeignOnly, K.KeysInv, B.BooksInv;
    var t, db := uow.t, uow.db;
    uow.Yield(s0, 0);
    Answered(db.ch, s0, db.st, t, 0);
    ghost var m := db.st;
    uow.Now(Commit(t), s0, 0);
    CommitStep(db.ch, m, t, g);
    ghost var c := db.st;
    Answered(db.ch, s0, c, t, 1);
    ReachesSelf(db.ch, c, t);
    ghost var before := uow.Do(Action.Reply(t), c, 0);
    KeySteps(db.ch, before, t, c.flights[t], false);
    ReachesJoin(db.ch, s0, c, db.st, t, 1);
    StillStands(db.ch, c, db.st, t, req, body);
  }

  lemma StillStands(ch: Chart, s: State, s': State, t: nat, req: Request, body: Resource)
    requires B.BooksInv(s) && !req.Snapshots? && Stands(s.db, req, body) && Reaches(ch, s, s', t, 0)
    ensures Stands(s'.db, req, body)
  {
    hide Stands, B.BooksInv;
    var actions :| Run(ch, s, actions) == s' && Commits(actions, t) == 0;
    RunKeepsStanding(ch, s, actions, req, body);
  }
}
