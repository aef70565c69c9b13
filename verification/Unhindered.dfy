/** A request that nobody holds up: the write path run from begin to reply, statement by statement,
    among other open transactions that hold none of its locks, ids or keys. Shows what a posting commits
    and when it is refused, that a reversal can leave an account below its floor, and that a snapshot
    can go wrong (src/ledgerflow/application/services.py:171-203, 206-288, 346-387). */
module Unhindered {
  import opened Wrappers
  import opened Seqs
  import opened Ledger
  import opened Events
  import opened WritePath
  import B = Books
  import F = Floors
  import S = Snapshots

  lemma RunPush(ch: Chart, s: State, actions: seq<Action>, a: Action)
    ensures Run(ch, s, actions + [a]) == Apply(ch, Run(ch, s, actions), a)
  {
    assert (actions + [a])[..|actions|] == actions;
  }

  lemma RunOne(ch: Chart, s: State, a: Action)
    ensures Run(ch, s, [a]) == Apply(ch, s, a)
  {
    assert [a][..0] == [];
    assert Run(ch, s, []) == s;
  }

  /** Statements of a transaction that is gone do nothing. */
  lemma {:induction false} GoneIsGone(ch: Chart, s: State, t: nat, actions: seq<Action>)
    requires t !in s.flights
    requires forall a | a in actions :: !a.Begin? && !a.DropSnapshots? && a.t == t
    ensures Run(ch, s, actions) == s
  {
    if actions != [] {
      var front, last := actions[..|actions| - 1], actions[|actions| - 1];
      assert forall a | a in front :: a in actions;
      assert last in actions;
      GoneIsGone(ch, s, t, front);
    }
  }

  /** The other transactions as they are, and ours. */
  function With(s: State, t: nat, f: Flight): State { s.(flights := s.flights[t := f]) }

  lemma WithGone(s: State, t: nat, f: Flight)
    requires t !in s.flights
    ensures Drop(With(s, t, f), t) == s
  {
    assert s.flights[t := f] - {t} == s.flights;
  }

  lemma WithTwice(s: State, t: nat, f: Flight, g: Flight)
    ensures Advance(With(s, t, f), t, g) == With(s, t, g)
  {
    assert s.flights[t := f][t := g] == s.flights[t := g];
  }

  // ---- the floor checks ----

  /** Lock and read, once per account to check. */
  function Checks(t: nat, n: nat): seq<Action>
  {
    if n == 0 then [] else [Lock(t), ReadBalance(t)] + Checks(t, n - 1)
  }

  /** The account can take what the legs do to it, going by the cached balance. */
  predicate Bears(ch: Chart, db: Db, legs: seq<Entry>, account: string)
  {
    account in ch && ch[account].floor.Some?
    && CachedBalance(db, ch[account]) + Delta(ch, legs, account) >= ch[account].floor.value
  }

  function Locked(accounts: seq<string>): set<string> { set a | a in accounts }

  /** Nobody holds the lock. */
  ghost predicate Unlocked(s: State, account: string)
  {
    forall u | u in s.flights :: account !in s.flights[u].locks
  }

  lemma ChecksUnfold(t: nat, n: nat)
    requires n > 0
    ensures Checks(t, n) == [Lock(t)] + [ReadBalance(t)] + Checks(t, n - 1)
  {
    assert [Lock(t), ReadBalance(t)] == [Lock(t)] + [ReadBalance(t)];
  }

  lemma OneCheck(ch: Chart, s: State, t: nat, f: Flight, todo: seq<string>)
    requires t !in s.flights && f.phase == Checking(todo) && todo != [] && !f.req.Snapshots?
    requires todo[0] in ch && ch[todo[0]].floor.Some? && Unlocked(s, todo[0])
    ensures Apply(ch, Apply(ch, With(s, t, f), Lock(t)), ReadBalance(t)) ==
            if Bears(ch, s.db, f.legs, todo[0])
            then With(s, t, f.(phase := Checking(todo[1..]), locks := f.locks + {todo[0]}))
            else s
  {
    hide CachedBalance, Delta;
    var g := f.(phase := Holding(todo), locks := f.locks + {todo[0]});
    WithTwice(s, t, f, g);
    assert Apply(ch, With(s, t, f), Lock(t)) == With(s, t, g);
    WithTwice(s, t, g, g.(phase := Checking(todo[1..])));
    WithGone(s, t, g);
  }

  lemma {:induction false} AllChecks(ch: Chart, s: State, t: nat, f: Flight, todo: seq<string>)
    requires t !in s.flights && f.phase == Checking(todo) && !f.req.Snapshots?
    requires forall a | a in todo :: a in ch && ch[a].floor.Some? && Unlocked(s, a)
    ensures Run(ch, With(s, t, f), Checks(t, |todo|)) ==
            if forall a | a in todo :: Bears(ch, s.db, f.legs, a)
            then With(s, t, f.(phase := Checking([]), locks := f.locks + Locked(todo)))
            else s
    decreases |todo|
  {
    hide Bears, Apply, Unlocked, With;
    if todo == [] {
      assert f.locks + Locked(todo) == f.locks;
    } else {
      var rest := todo[1..];
      assert todo == [todo[0]] + rest;
      FirstCheck(ch, s, t, f, todo);
      hide Run, Checks;
      if Bears(ch, s.db, f.legs, todo[0]) {
        var g := f.(phase := Checking(rest), locks := f.locks + {todo[0]});
        AllChecks(ch, s, t, g, rest);
        assert f.locks + {todo[0]} + Locked(rest) == f.locks + Locked(todo);
      } else {
        ChecksAreOf(t, |rest|);
        GoneIsGone(ch, s, t, Checks(t, |rest|));
      }
    }
  }

  lemma FirstCheck(ch: Chart, s: State, t: nat, f: Flight, todo: seq<string>)
    requires t !in s.flights && f.phase == Checking(todo) && todo != [] && !f.req.Snapshots?
    requires todo[0] in ch && ch[todo[0]].floor.Some? && Unlocked(s, todo[0])
    ensures var g := f.(phase := Checking(todo[1..]), locks := f.locks + {todo[0]});
            Run(ch, With(s, t, f), Checks(t, |todo|)) ==
            Run(ch, if Bears(ch, s.db, f.legs, todo[0]) then With(s, t, g) else s, Checks(t, |todo| - 1))
  {
    hide Bears, Apply, Unlocked, With;
    OneCheck(ch, s, t, f, todo);
    ChecksUnfold(t, |todo|);
    RunConcat(ch, With(s, t, f), [Lock(t)] + [ReadBalance(t)], Checks(t, |todo| - 1));
    RunConcat(ch, With(s, t, f), [Lock(t)], [ReadBalance(t)]);
    RunOne(ch, With(s, t, f), Lock(t));
    RunOne(ch, Apply(ch, With(s, t, f), Lock(t)), ReadBalance(t));
  }

  lemma {:induction false} ChecksAreOf(t: nat, n: nat)
    ensures forall a | a in Checks(t, n) :: !a.Begin? && !a.DropSnapshots? && a.t == t
  {
    if n > 0 {
      ChecksAreOf(t, n - 1);
    }
  }

  // ---- the rest of the request ----

  function Opened(req: Request): Flight { Flight(req, Started, None, {}, [], [], None, []) }

  /** The key is ours, or there is none. */
  function Claimed(req: Request): Flight
    requires !req.Snapshots?
  {
    Opened(req).(phase := Ready, keyRow := if req.key.Some? then Some(InProgress(req.fp)) else None)
  }

  /** What the request leaves behind when it commits. */
  function Outcome(s: State, req: Request, legs: seq<Entry>, eventId: string): State
    requires !req.Snapshots?
  {
    var rows := Number(s.nextEntry, req.txnId, legs);
    var row := OutboxRow(s.nextOutbox, eventId, req.txnId, req.Post? && req.described);
    var body := Resource(req.txnId, rows);
    State(Db(MarkedRows(s.db.txns, req.Target()) + [TxnRow(req.txnId, Status.Posted, req.Target(), req.key)],
             s.db.entries + rows, s.db.outbox + [row],
             if req.key.Some? then s.db.keys[req.key.value := Completed(req.fp, body)] else s.db.keys, s.db.snaps),
          s.flights, s.nextEntry + |legs|, s.nextOutbox + 1, s.replies + [Delivered(req.key, req.fp, body)])
  }

  function Inserting(t: nat): seq<Action> { [InsertTxn(t)] + [InsertEntries(t)] }

  function Announcing(t: nat, req: Request, eventId: string): seq<Action>
  {
    (if req.Reverse? then [MarkReversed(t)] else []) + [Emit(t, eventId)] + [Complete(t)]
  }

  function Ending(t: nat, req: Request, eventId: string): seq<Action>
  {
    Inserting(t) + Announcing(t, req, eventId) + [Commit(t)] + [Reply(t)]
  }

  /** Nothing committed or reserved stands in the way: ids and key are fresh, no other transaction has
      them, and nobody holds a lock the request needs. */
  ghost predicate Unhindered(ch: Chart, s: State, t: nat, req: Request, eventId: string)
    requires !req.Snapshots?
  {
    && t !in s.flights
    && FreshIds(s.db, req, eventId)
    && (req.key.Some? ==> req.key.value !in s.db.keys)
    && (forall u | u in s.flights :: Clear(s.flights[u], req, eventId))
    && (req.Post? ==> forall a | a in ToCheck(ch, req.legs) :: Unlocked(s, a))
  }

  ghost predicate FreshIds(db: Db, req: Request, eventId: string)
    requires !req.Snapshots?
  {
    && !HasTxn(db.txns, req.txnId)
    && (forall r | r in db.entries :: r.txnId != req.txnId)
    && (forall row | row in db.outbox :: row.eventId != eventId)
    && (req.Reverse? ==> !HasReversal(db.txns, req.target))
  }

  /** The other transaction has reserved nothing of ours. */
  ghost predicate Clear(g: Flight, req: Request, eventId: string)
    requires !req.Snapshots?
  {
    && (g.Inserted() && !g.req.Snapshots? ==>
          g.req.txnId != req.txnId && (req.Reverse? ==> g.req.Target() != req.Target()))
    && (g.event.Some? ==> g.event.value.eventId != eventId)
    && (req.key.Some? ==> !g.Claims(req.key.value))
  }

  lemma Opens(ch: Chart, s: State, t: nat, req: Request, eventId: string)
    requires !req.Snapshots? && Unhindered(ch, s, t, req, eventId)
    ensures Run(ch, s, [Begin(t, req)] + [Claim(t)]) == With(s, t, Claimed(req))
  {
    hide ToCheck, FreshIds;
    RunOne(ch, s, Begin(t, req));
    RunPush(ch, s, [Begin(t, req)], Claim(t));
    assert Apply(ch, s, Begin(t, req)) == With(s, t, Opened(req));
    WithTwice(s, t, Opened(req), Claimed(req));
    assert forall u | u in s.flights :: Clear(s.flights[u], req, eventId);
  }

  lemma Inserts(ch: Chart, s: State, t: nat, f: Flight, eventId: string)
    requires f.phase == Checking([]) && !f.req.Snapshots? && Unhindered(ch, s, t, f.req, eventId)
    ensures Run(ch, With(s, t, f), Inserting(t)) ==
            With(s, t, f.(phase := EntriesInserted, rows := Number(s.nextEntry, f.req.txnId, f.legs)))
            .(nextEntry := s.nextEntry + |f.legs|)
  {
    hide ToCheck;
    RunOne(ch, With(s, t, f), InsertTxn(t));
    RunPush(ch, With(s, t, f), [InsertTxn(t)], InsertEntries(t));
    InsertsTxn(ch, s, t, f, eventId);
    var g := f.(phase := TxnInserted);
    WithTwice(s, t, g, f.(phase := EntriesInserted, rows := Number(s.nextEntry, f.req.txnId, f.legs)));
  }

  lemma InsertsTxn(ch: Chart, s: State, t: nat, f: Flight, eventId: string)
    requires f.phase == Checking([]) && !f.req.Snapshots? && Unhindered(ch, s, t, f.req, eventId)
    ensures Apply(ch, With(s, t, f), InsertTxn(t)) == With(s, t, f.(phase := TxnInserted))
  {
    hide ToCheck;
    WithTwice(s, t, f, f.(phase := TxnInserted));
    assert forall u | u in s.flights :: Clear(s.flights[u], f.req, eventId);
  }

  /** From the inserted entries to the completed slot. */
  lemma Announces(ch: Chart, s: State, t: nat, f: Flight, eventId: string)
    requires t !in s.flights && f.phase == EntriesInserted && !f.req.Snapshots?
    requires (forall row | row in s.db.outbox :: row.eventId != eventId)
             && forall u | u in s.flights :: Clear(s.flights[u], f.req, eventId)
    ensures var row := OutboxRow(s.nextOutbox, eventId, f.req.txnId, f.req.Post? && f.req.described);
            Run(ch, With(s, t, f), Announcing(t, f.req, eventId)) ==
            With(s, t, Announced(f, row)).(nextOutbox := s.nextOutbox + 1)
  {
    var row := OutboxRow(s.nextOutbox, eventId, f.req.txnId, f.req.Post? && f.req.described);
    var marking := if f.req.Reverse? then [MarkReversed(t)] else [];
    var m := if f.req.Reverse? then f.(phase := Marked) else f;
    Marks(ch, s, t, f);
    Emits(ch, s, t, m, eventId);
    Completes(ch, s.(nextOutbox := s.nextOutbox + 1), t, m.(phase := Emitted, event := Some(row)));
    hide Apply, Run, Clear;
    RunPush(ch, With(s, t, f), marking, Emit(t, eventId));
    RunPush(ch, With(s, t, f), marking + [Emit(t, eventId)], Complete(t));
    assert With(s.(nextOutbox := s.nextOutbox + 1), t, m.(phase := Emitted, event := Some(row))) ==
           With(s, t, m.(phase := Emitted, event := Some(row))).(nextOutbox := s.nextOutbox + 1);
  }

  /** The transaction, ready to commit. */
  function Announced(f: Flight, row: OutboxRow): Flight
    requires !f.req.Snapshots?
  {
    f.(phase := Finished, event := Some(row),
       keyRow := if f.keyRow.Some? then Some(Completed(f.req.fp, f.Body())) else None)
  }

  lemma Marks(ch: Chart, s: State, t: nat, f: Flight)
    requires t !in s.flights && f.phase == EntriesInserted && !f.req.Snapshots?
    ensures Run(ch, With(s, t, f), if f.req.Reverse? then [MarkReversed(t)] else []) ==
            With(s, t, if f.req.Reverse? then f.(phase := Marked) else f)
  {
    if f.req.Reverse? {
      RunOne(ch, With(s, t, f), MarkReversed(t));
      WithTwice(s, t, f, f.(phase := Marked));
    } else {
      assert Run(ch, With(s, t, f), []) == With(s, t, f);
    }
  }

  lemma Emits(ch: Chart, s: State, t: nat, f: Flight, eventId: string)
    requires t !in s.flights && !f.req.Snapshots? && f.phase == if f.req.Reverse? then Marked else EntriesInserted
    requires (forall row | row in s.db.outbox :: row.eventId != eventId)
             && forall u | u in s.flights :: Clear(s.flights[u], f.req, eventId)
    ensures var row := OutboxRow(s.nextOutbox, eventId, f.req.txnId, f.req.Post? && f.req.described);
            Apply(ch, With(s, t, f), Emit(t, eventId)) ==
            With(s, t, f.(phase := Emitted, event := Some(row))).(nextOutbox := s.nextOutbox + 1)
  {
    var row := OutboxRow(s.nextOutbox, eventId, f.req.txnId, f.req.Post? && f.req.described);
    WithTwice(s, t, f, f.(phase := Emitted, event := Some(row)));
  }

  lemma Completes(ch: Chart, s: State, t: nat, f: Flight)
    requires t !in s.flights && !f.req.Snapshots? && f.phase.Emitted? && f.event.Some?
    ensures Apply(ch, With(s, t, f), Complete(t)) == With(s, t, Announced(f, f.event.value))
  {
    WithTwice(s, t, f, Announced(f, f.event.value));
  }

  lemma Commits(ch: Chart, s: State, t: nat, f: Flight)
    requires t !in s.flights && f.phase == Finished && !f.req.Snapshots? && f.event.Some? && TriggerPasses(s.db, f)
    ensures Run(ch, With(s, t, f), [Commit(t)] + [Reply(t)]) ==
            s.(db := CommittedDb(s.db, f), replies := s.replies + [Delivered(f.req.key, f.req.fp, f.Body())])
  {
    hide TriggerPasses;
    var done := Flight(f.req, Committed(f.Body()), None, {}, [], [], None, []);
    var m := s.(db := CommittedDb(s.db, f));
    RunOne(ch, With(s, t, f), Commit(t));
    RunPush(ch, With(s, t, f), [Commit(t)], Reply(t));
    WithTwice(s, t, f, done);
    assert Apply(ch, With(s, t, f), Commit(t)) == With(m, t, done);
    WithGone(m, t, done);
  }

  lemma TriggerAlone(db: Db, f: Flight, first: nat)
    requires !f.req.Snapshots? && f.rows == Number(first, f.req.txnId, f.legs) && IsJournal(f.legs)
    requires forall r | r in db.entries :: r.txnId != f.req.txnId
    ensures TriggerPasses(db, f)
  {
    B.LegsOfNumber(first, f.req.txnId, f.legs);
    FilterConcat(db.entries, f.rows, OfTxn(f.req.txnId));
    FilterNone(db.entries, OfTxn(f.req.txnId));
    FilterAll(f.rows, OfTxn(f.req.txnId));
    assert [] + f.rows == f.rows;
  }

  /** From the passed checks to the reply. */
  lemma EndsWell(ch: Chart, s: State, t: nat, f: Flight, eventId: string)
    requires !f.req.Snapshots? && f.phase == Checking([]) && Unhindered(ch, s, t, f.req, eventId)
    requires f.keyRow == Claimed(f.req).keyRow && f.event.None? && IsJournal(f.legs)
    ensures Run(ch, With(s, t, f), Ending(t, f.req, eventId)) == Outcome(s, f.req, f.legs, eventId)
  {
    hide Apply, Run, IsJournal, TriggerPasses, ToCheck, Clear, Unlocked;
    var s0, rows := With(s, t, f), Number(s.nextEntry, f.req.txnId, f.legs);
    var inserting, announcing := Inserting(t), Announcing(t, f.req, eventId);
    Inserts(ch, s, t, f, eventId);
    var s1, f1 := s.(nextEntry := s.nextEntry + |f.legs|), f.(phase := EntriesInserted, rows := rows);
    assert Run(ch, s0, inserting) == With(s1, t, f1);
    Announces(ch, s1, t, f1, eventId);
    var row := OutboxRow(s.nextOutbox, eventId, f.req.txnId, f.req.Post? && f.req.described);
    var s2, f2 := s1.(nextOutbox := s.nextOutbox + 1), Announced(f1, row);
    assert Run(ch, With(s1, t, f1), announcing) == With(s2, t, f2);
    TriggerAlone(s.db, f2, s.nextEntry);
    Commits(ch, s2, t, f2);
    RunConcat(ch, s0, inserting, announcing);
    RunConcat(ch, s0, inserting + announcing, [Commit(t)] + [Reply(t)]);
    assert inserting + announcing + ([Commit(t)] + [Reply(t)]) == Ending(t, f.req, eventId);
  }

  // ---- a posting ----

  function Checked(t: nat, req: Request, checks: nat): seq<Action>
  {
    [Begin(t, req)] + [Claim(t)] + [Build(t)] + Checks(t, checks)
  }

  function PostScript(t: nat, req: Request, checks: nat, eventId: string): seq<Action>
  {
    Checked(t, req, checks) + Ending(t, req, eventId)
  }

  lemma EndingIsOf(t: nat, req: Request, eventId: string)
    ensures forall a | a in Ending(t, req, eventId) :: !a.Begin? && !a.DropSnapshots? && a.t == t
  {
  }

  /** The checks pass exactly when every listed account can bear its delta; otherwise nothing is left. */
  lemma ChecksRun(ch: Chart, s: State, t: nat, req: Request, eventId: string)
    requires req.Post? && IsJournal(req.legs) && Resolved(ch, req.legs) && Unhindered(ch, s, t, req, eventId)
    ensures Run(ch, s, Checked(t, req, |ToCheck(ch, req.legs)|)) ==
            if forall a | a in ToCheck(ch, req.legs) :: Bears(ch, s.db, req.legs, a)
            then With(s, t, Claimed(req).(phase := Checking([]), legs := req.legs,
                                           locks := Locked(ToCheck(ch, req.legs))))
            else s
  {
    hide Apply, Run, IsJournal, Bears, Checks, Clear, FreshIds, Unlocked;
    var todo := ToCheck(ch, req.legs);
    var opening := [Begin(t, req)] + [Claim(t)] + [Build(t)];
    var f := Claimed(req).(phase := Checking(todo), legs := req.legs);
    Opens(ch, s, t, req, eventId);
    RunPush(ch, s, [Begin(t, req)] + [Claim(t)], Build(t));
    BuildsPost(ch, s, t, req);
    RunConcat(ch, s, opening, Checks(t, |todo|));
    AllChecks(ch, s, t, f, todo);
    assert {} + Locked(todo) == Locked(todo);
  }

  /** A well-formed posting that nobody holds up commits exactly when every floored account it draws on
      can bear it: then it leaves one transaction, its entries, one event, its key if it has one, and
      one reply; otherwise it leaves nothing. */
  lemma PostCommitsIff(ch: Chart, s: State, t: nat, req: Request, eventId: string)
    requires req.Post? && IsJournal(req.legs) && Resolved(ch, req.legs) && Unhindered(ch, s, t, req, eventId)
    ensures Run(ch, s, PostScript(t, req, |ToCheck(ch, req.legs)|, eventId)) ==
            if forall a | a in ToCheck(ch, req.legs) :: Bears(ch, s.db, req.legs, a)
            then Outcome(s, req, req.legs, eventId) else s
  {
    hide Apply, Run, IsJournal, Bears, Ending, Checked, Outcome, Clear, FreshIds, Unlocked;
    var todo := ToCheck(ch, req.legs);
    ChecksRun(ch, s, t, req, eventId);
    RunConcat(ch, s, Checked(t, req, |todo|), Ending(t, req, eventId));
    EndingIsOf(t, req, eventId);
    if forall a | a in todo :: Bears(ch, s.db, req.legs, a) {
      EndsWell(ch, s, t, Claimed(req).(phase := Checking([]), legs := req.legs, locks := Locked(todo)), eventId);
    } else {
      GoneIsGone(ch, s, t, Ending(t, req, eventId));
    }
  }

  lemma BuildsPost(ch: Chart, s: State, t: nat, req: Request)
    requires t !in s.flights && req.Post? && IsJournal(req.legs) && Resolved(ch, req.legs)
    ensures Apply(ch, With(s, t, Claimed(req)), Build(t)) ==
            With(s, t, Claimed(req).(phase := Checking(ToCheck(ch, req.legs)), legs := req.legs))
  {
    hide IsJournal, ToCheck;
    WithTwice(s, t, Claimed(req), Claimed(req).(phase := Checking(ToCheck(ch, req.legs)), legs := req.legs));
  }

  // ---- a reversal ----

  /** A reversal reads no balance at all: it commits whenever the original is posted and balanced. */
  lemma ReversalCommits(ch: Chart, s: State, t: nat, req: Request, eventId: string)
    requires req.Reverse? && Unhindered(ch, s, t, req, eventId)
    requires StillPosted(s.db.txns, req.target) && IsJournal(TxnLegs(s.db, req.target))
    ensures Run(ch, s, PostScript(t, req, 0, eventId)) ==
            Outcome(s, req, ReversedAll(TxnLegs(s.db, req.target)), eventId)
  {
    hide Apply, Run, IsJournal, Ending, Outcome, Clear, FreshIds, Unlocked;
    var legs := ReversedAll(TxnLegs(s.db, req.target));
    var opening := [Begin(t, req)] + [Claim(t)] + [Build(t)];
    Opens(ch, s, t, req, eventId);
    RunPush(ch, s, [Begin(t, req)] + [Claim(t)], Build(t));
    BuildsReversal(ch, s, t, req);
    ReversalKeepsJournal(TxnLegs(s.db, req.target));
    assert Checked(t, req, 0) == opening;
    RunConcat(ch, s, opening, Ending(t, req, eventId));
    EndsWell(ch, s, t, Claimed(req).(phase := Checking([]), legs := legs), eventId);
  }

  lemma BuildsReversal(ch: Chart, s: State, t: nat, req: Request)
    requires t !in s.flights && req.Reverse?
    requires StillPosted(s.db.txns, req.target) && IsJournal(TxnLegs(s.db, req.target))
    ensures Apply(ch, With(s, t, Claimed(req)), Build(t)) ==
            With(s, t, Claimed(req).(phase := Checking([]), legs := ReversedAll(TxnLegs(s.db, req.target))))
  {
    hide IsJournal, TxnLegs;
    WithTwice(s, t, Claimed(req), Claimed(req).(phase := Checking([]), legs := ReversedAll(TxnLegs(s.db, req.target))));
  }

  /** So right after it a floored account is at its floor if and only if it could give back what the
      original gave it, whatever else is open. What that means for the postings that are open is
      `Floors.ReversalCommitIff`. */
  lemma ReversalFloorIff(ch: Chart, s: State, t: nat, req: Request, eventId: string, account: string)
    requires S.ChartOk(ch) && F.Floored(ch, account)
    requires req.Reverse? && Unhindered(ch, s, t, req, eventId)
    requires StillPosted(s.db.txns, req.target) && IsJournal(TxnLegs(s.db, req.target))
    ensures F.AtFloor(ch, Run(ch, s, PostScript(t, req, 0, eventId)).db.entries, account) <==>
            Balance(s.db.entries, ch[account]) - Delta(ch, TxnLegs(s.db, req.target), account)
            >= ch[account].floor.value
  {
    hide Apply, Run, IsJournal, TxnLegs, Clear, FreshIds;
    ReversalCommits(ch, s, t, req, eventId);
    var legs := ReversedAll(TxnLegs(s.db, req.target));
    var f := Opened(req).(legs := legs, rows := Number(s.nextEntry, req.txnId, legs));
    B.LegsOfNumber(s.nextEntry, req.txnId, legs);
    F.CommitMoves(ch, s.db, f, account);
    ReversalNegates(TxnLegs(s.db, req.target), ch[account].NormalBalance(), account, "");
  }

  // ---- a run that ends below a floor ----

  const CASH := Account("cash", Asset, "usd", Some(0))
  const PAY := Account("pay", Revenue, "usd", None)
  const FOOD := Account("food", Expense, "usd", None)
  const BOOKS: Chart := map["cash" := CASH, "pay" := PAY, "food" := FOOD]

  function TwoEntries(debit: string, credit: string): seq<Entry>
  {
    [Entry(debit, Debit, Money(100, "usd")), Entry(credit, Credit, Money(100, "usd"))]
  }

  const PAID := Request.Post(None, "", "t1", TwoEntries("cash", "pay"), false)
  const SPENT := Request.Post(None, "", "t2", TwoEntries("food", "cash"), false)
  const UNDONE := Request.Reverse(None, "", "t3", "t1")

  lemma TwoEntriesPost(debit: string, credit: string)
    requires debit in BOOKS && credit in BOOKS && debit != credit
    ensures IsJournal(TwoEntries(debit, credit)) && Resolved(BOOKS, TwoEntries(debit, credit))
    ensures Delta(BOOKS, TwoEntries(debit, credit), "cash") ==
            if debit == "cash" then 100 else if credit == "cash" then -100 else 0
  {
    var legs := TwoEntries(debit, credit);
    TwoLegs(legs[0], legs[1], Debit, "cash");
    forall currency ensures Drift(legs, currency) == 0 {
      assert legs == [] + [legs[0]] + [legs[1]];
      SumPush([legs[0]], legs[1], DriftOf(currency));
      SumPush([], legs[0], DriftOf(currency));
    }
  }

  /** Paid 100, spent 100, undo the pay: cash, with a floor of zero, ends at minus 100. */
  lemma ReversalBreaksFloor() returns (actions: seq<Action>)
    ensures S.ChartOk(BOOKS) && F.Floored(BOOKS, "cash")
    ensures !F.AtFloor(BOOKS, Run(BOOKS, INITIAL, actions).db.entries, "cash")
  {
    hide Apply, Run, Bears, IsJournal, Resolved, ToCheck;
    var pay := PostScript(0, PAID, |ToCheck(BOOKS, PAID.legs)|, "e1");
    var spend := PostScript(0, SPENT, |ToCheck(BOOKS, SPENT.legs)|, "e2");
    var undo := PostScript(0, UNDONE, 0, "e3");
    actions := pay + spend + undo;
    var s1 := Outcome(INITIAL, PAID, PAID.legs, "e1");
    var s2 := Outcome(s1, SPENT, SPENT.legs, "e2");
    FirstIsPaid();
    ThenSpent();
    RunConcat(BOOKS, INITIAL, pay, spend);
    RunConcat(BOOKS, INITIAL, pay + spend, undo);
    CashAfter();
    PaidIsThere();
    ReversalFloorIff(BOOKS, s2, 0, UNDONE, "e3", "cash");
    TwoEntriesPost("cash", "pay");
  }

  lemma OnlyCashIsChecked(legs: seq<Entry>, a: string)
    ensures a in ToCheck(BOOKS, legs) ==> a == "cash" && Delta(BOOKS, legs, "cash") < 0
  {
  }

  lemma FirstIsPaid()
    ensures Run(BOOKS, INITIAL, PostScript(0, PAID, |ToCheck(BOOKS, PAID.legs)|, "e1")) ==
            Outcome(INITIAL, PAID, PAID.legs, "e1")
  {
    hide Run, ToCheck, Outcome, PostScript;
    TwoEntriesPost("cash", "pay");
    forall a ensures a !in ToCheck(BOOKS, PAID.legs) {
      OnlyCashIsChecked(PAID.legs, a);
    }
    PostCommitsIff(BOOKS, INITIAL, 0, PAID, "e1");
  }

  lemma PaidRows() returns (rows: seq<EntryRow>)
    ensures rows == [EntryRow(1, "t1", PAID.legs[0]), EntryRow(2, "t1", PAID.legs[1])]
    ensures Outcome(INITIAL, PAID, PAID.legs, "e1").db ==
            Db([TxnRow("t1", Status.Posted, None, None)], rows, [OutboxRow(1, "e1", "t1", false)], map[], [])
    ensures Balance(rows, CASH) == 100 && Sum(rows, TailRow(Debit, "cash", 0)) == 100
  {
    rows := [EntryRow(1, "t1", PAID.legs[0]), EntryRow(2, "t1", PAID.legs[1])];
    assert Number(1, "t1", PAID.legs) == rows;
    assert [] + rows == rows;
    assert MarkedRows([], None) == [];
    assert rows == [] + [rows[0]] + [rows[1]];
    SumPush([rows[0]], rows[1], SignedRow(Debit, "cash"));
    SumPush([], rows[0], SignedRow(Debit, "cash"));
    SumPush([rows[0]], rows[1], TailRow(Debit, "cash", 0));
    SumPush([], rows[0], TailRow(Debit, "cash", 0));
  }

  lemma ThenSpent()
    ensures var s1 := Outcome(INITIAL, PAID, PAID.legs, "e1");
            Run(BOOKS, s1, PostScript(0, SPENT, |ToCheck(BOOKS, SPENT.legs)|, "e2")) ==
            Outcome(s1, SPENT, SPENT.legs, "e2")
  {
    hide Run, ToCheck, PostScript, Sum;
    var rows := PaidRows();
    TwoEntriesPost("food", "cash");
    var s1 := Outcome(INITIAL, PAID, PAID.legs, "e1");
    forall a | a in ToCheck(BOOKS, SPENT.legs) ensures Bears(BOOKS, s1.db, SPENT.legs, a) {
      OnlyCashIsChecked(SPENT.legs, a);
      assert CachedBalance(s1.db, CASH) == 100;
    }
    PostCommitsIff(BOOKS, s1, 0, SPENT, "e2");
  }

  lemma CashAfter()
    ensures var s2 := Outcome(Outcome(INITIAL, PAID, PAID.legs, "e1"), SPENT, SPENT.legs, "e2");
            Balance(s2.db.entries, CASH) == 0
  {
    var rows := PaidRows();
    var s1 := Outcome(INITIAL, PAID, PAID.legs, "e1");
    var f := Opened(SPENT).(legs := SPENT.legs, rows := Number(s1.nextEntry, "t2", SPENT.legs));
    B.LegsOfNumber(s1.nextEntry, "t2", SPENT.legs);
    F.CommitMoves(BOOKS, s1.db, f, "cash");
    TwoEntriesPost("food", "cash");
  }

  lemma PaidIsThere()
    ensures var s2 := Outcome(Outcome(INITIAL, PAID, PAID.legs, "e1"), SPENT, SPENT.legs, "e2");
            StillPosted(s2.db.txns, "t1") && TxnLegs(s2.db, "t1") == PAID.legs && Unhindered(BOOKS, s2, 0, UNDONE, "e3")
            && IsJournal(PAID.legs) && s2.flights == map[]
  {
    hide IsJournal, TxnLegs, Number, MarkedRows;
    var rows := PaidRows();
    var s1 := Outcome(INITIAL, PAID, PAID.legs, "e1");
    var s2 := Outcome(s1, SPENT, SPENT.legs, "e2");
    var later := Number(s1.nextEntry, "t2", SPENT.legs);
    TwoEntriesPost("cash", "pay");
    B.LegsOfNumber(s1.nextEntry, "t2", SPENT.legs);
    RowsOfPaid(rows, later);
    assert s2.db.entries == rows + later;
    LegsOfPaid(s2.db, rows);
    TxnsAfter();
    assert s2.db.txns[0].id == "t1" && s2.db.txns[0].status == Status.Posted;
  }

  lemma RowsOfPaid(rows: seq<EntryRow>, later: seq<EntryRow>)
    requires (forall r | r in rows :: r.txnId == "t1") && (forall r | r in later :: r.txnId == "t2")
    ensures RowsOf(rows + later, "t1") == rows
  {
    FilterConcat(rows, later, OfTxn("t1"));
    FilterAll(rows, OfTxn("t1"));
    FilterNone(later, OfTxn("t1"));
    assert rows + [] == rows;
  }

  lemma LegsOfPaid(db: Db, rows: seq<EntryRow>)
    requires RowsOf(db.entries, "t1") == rows == [EntryRow(1, "t1", PAID.legs[0]), EntryRow(2, "t1", PAID.legs[1])]
    ensures TxnLegs(db, "t1") == PAID.legs
  {
    assert LegsOf(rows) == PAID.legs;
  }

  lemma TxnsAfter()
    ensures var s2 := Outcome(Outcome(INITIAL, PAID, PAID.legs, "e1"), SPENT, SPENT.legs, "e2");
            s2.db.txns == [TxnRow("t1", Status.Posted, None, None), TxnRow("t2", Status.Posted, None, None)]
  {
    var rows := PaidRows();
    var one := [TxnRow("t1", Status.Posted, None, None)];
    assert MarkedRows(one, None) == one;
  }

  // ---- a run after which the balance cache is wrong ----

  const ALSO := Request.Post(None, "", "t2", TwoEntries("cash", "pay"), false)

  /** Pay 100 is inserted and not committed; another 100 commits; cash is snapshotted; then the first
      pay goes through. */
  function Snapshotting(): seq<Action>
  {
    Checked(1, PAID, |ToCheck(BOOKS, PAID.legs)|) + Inserting(1)
    + PostScript(0, ALSO, |ToCheck(BOOKS, ALSO.legs)|, "e2")
    + Announcing(1, PAID, "e1")
  }

  /** The open pay, with ids 1 and 2. */
  function Pending(): State
  {
    With(INITIAL, 1, Claimed(PAID).(phase := EntriesInserted, legs := PAID.legs, rows := Number(1, "t1", PAID.legs)))
    .(nextEntry := 3)
  }

  lemma NothingToCheck(req: Request)
    requires req.Post? && req.legs == TwoEntries("cash", "pay")
    ensures ToCheck(BOOKS, req.legs) == []
  {
    hide ToCheck;
    TwoEntriesPost("cash", "pay");
    forall a ensures a !in ToCheck(BOOKS, req.legs) {
      OnlyCashIsChecked(req.legs, a);
    }
    EmptyByMembers(ToCheck(BOOKS, req.legs));
  }

  lemma EmptyByMembers(s: seq<string>)
    ensures (forall a :: a !in s) ==> s == []
  {
    if s != [] {
      assert s[0] in s;
    }
  }

  lemma FirstIsPending()
    ensures Run(BOOKS, INITIAL, Checked(1, PAID, |ToCheck(BOOKS, PAID.legs)|) + Inserting(1)) == Pending()
  {
    hide Run, Apply, ToCheck, Bears, Inserting, Checked;
    NothingToCheck(PAID);
    TwoEntriesPost("cash", "pay");
    assert Unhindered(BOOKS, INITIAL, 1, PAID, "e1");
    ChecksRun(BOOKS, INITIAL, 1, PAID, "e1");
    var f := Claimed(PAID).(phase := Checking([]), legs := PAID.legs, locks := Locked([]));
    assert Locked([]) == {};
    Inserts(BOOKS, INITIAL, 1, f, "e1");
    RunConcat(BOOKS, INITIAL, Checked(1, PAID, 0), Inserting(1));
    assert Run(BOOKS, INITIAL, Checked(1, PAID, 0)) == With(INITIAL, 1, f);
  }

  /** The second pay has committed under ids 3 and 4. */
  function Passed(): State { Outcome(INITIAL.(nextEntry := 3), ALSO, ALSO.legs, "e2") }

  lemma ThenAlso()
    ensures Run(BOOKS, Pending(), PostScript(0, ALSO, |ToCheck(BOOKS, ALSO.legs)|, "e2")) ==
            With(Passed(), 1, Pending().flights[1])
  {
    hide Run, Apply, ToCheck, Bears, PostScript;
    NothingToCheck(ALSO);
    TwoEntriesPost("cash", "pay");
    assert Unhindered(BOOKS, Pending(), 0, ALSO, "e2");
    PostCommitsIff(BOOKS, Pending(), 0, ALSO, "e2");
  }

  lemma AlsoRows() returns (rows: seq<EntryRow>)
    ensures rows == [EntryRow(3, "t2", ALSO.legs[0]), EntryRow(4, "t2", ALSO.legs[1])]
    ensures Passed().db.entries == rows && Passed().db.snaps == []
            && Passed().db.outbox == [OutboxRow(1, "e2", "t2", false)]
    ensures MaxId(rows, "cash") == 3
  {
    rows := [EntryRow(3, "t2", ALSO.legs[0]), EntryRow(4, "t2", ALSO.legs[1])];
    assert Number(3, "t2", ALSO.legs) == rows;
    assert [] + rows == rows;
    assert rows[..1] == [rows[0]] && rows[..1][..0] == [];
    assert MaxId([], "cash") == 0 && MaxId(rows[..1], "cash") == 3;
  }

  /** The first pay, announced after the second. */
  function Late(): Flight { Announced(Pending().flights[1], OutboxRow(2, "e1", "t1", false)) }

  lemma ThenLate()
    ensures Run(BOOKS, INITIAL, Snapshotting()) == With(Passed(), 1, Late()).(nextOutbox := 3)
  {
    hide Run, Apply, ToCheck, Bears, PostScript, Checked, Inserting, Announcing, Passed;
    var first := Checked(1, PAID, |ToCheck(BOOKS, PAID.legs)|) + Inserting(1);
    var second := PostScript(0, ALSO, |ToCheck(BOOKS, ALSO.legs)|, "e2");
    FirstIsPending();
    ThenAlso();
    var rows := AlsoRows();
    PassedIs();
    Announces(BOOKS, Passed(), 1, Pending().flights[1], "e1");
    RunConcat(BOOKS, INITIAL, first, second);
    RunConcat(BOOKS, INITIAL, first + second, Announcing(1, PAID, "e1"));
  }

  lemma PassedIs()
    ensures Passed().flights == map[] && Passed().nextOutbox == 2
  {
  }

  lemma LateRows()
    ensures var rows := Late().rows;
            && rows == [EntryRow(1, "t1", PAID.legs[0]), EntryRow(2, "t1", PAID.legs[1])]
            && Sum(rows, UpToRow(Debit, "cash", 3)) == 100
  {
    var rows := [EntryRow(1, "t1", PAID.legs[0]), EntryRow(2, "t1", PAID.legs[1])];
    assert Number(1, "t1", PAID.legs) == rows == [] + [rows[0]] + [rows[1]];
    SumPush([rows[0]], rows[1], UpToRow(Debit, "cash", 3));
    SumPush([], rows[0], UpToRow(Debit, "cash", 3));
  }

  /** From the empty system: the cached balance of cash ends up different from the fold of its entries,
      and reconciliation reports it. */
  lemma SnapshotStepsOver() returns (actions: seq<Action>)
    ensures var db := Run(BOOKS, INITIAL, actions).db;
            CachedBalance(db, CASH) != Balance(db.entries, CASH) && S.Reconciles(db, CASH)
  {
    hide Run, Apply, Snapshotting, Passed, Late, TriggerPasses, CachedBalance, Balance, S.Reconciles;
    var s := With(Passed(), 1, Late()).(nextOutbox := 3);
    ThenLate();
    var rows := AlsoRows();
    PassedIs();
    LateRows();
    LateTriggers();
    var snap := [Begin(2, Request.Snapshots)] + [ReadSnapshot(2, "cash")] + [Commit(2)] + [Commit(1)];
    actions := Snapshotting() + snap;
    RunConcat(BOOKS, INITIAL, Snapshotting(), snap);
    SnapshotRuns(s, snap);
    S.UnsafeSnapshotBreaks(BOOKS, s, 1, 2, "cash");
  }

  lemma LateTriggers()
    ensures Late().phase == Finished && Late().event.Some? && !Late().req.Snapshots?
    ensures TriggerPasses(Passed().db, Late())
  {
    hide TriggerPasses;
    var rows := AlsoRows();
    TwoEntriesPost("cash", "pay");
    TriggerAlone(Passed().db, Late(), 1);
  }

  lemma SnapshotRuns(s: State, snap: seq<Action>)
    requires snap == [Begin(2, Request.Snapshots)] + [ReadSnapshot(2, "cash")] + [Commit(2)] + [Commit(1)]
    ensures Run(BOOKS, s, snap) == S.SnapshotThenCommit(BOOKS, s, 2, "cash", 1)
  {
    hide Apply;
    RunOne(BOOKS, s, Begin(2, Request.Snapshots));
    RunPush(BOOKS, s, [Begin(2, Request.Snapshots)], ReadSnapshot(2, "cash"));
    RunPush(BOOKS, s, [Begin(2, Request.Snapshots)] + [ReadSnapshot(2, "cash")], Commit(2));
    RunPush(BOOKS, s, [Begin(2, Request.Snapshots)] + [ReadSnapshot(2, "cash")] + [Commit(2)], Commit(1));
  }
}
