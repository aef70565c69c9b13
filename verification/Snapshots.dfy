/** The balance cache against the fold it must agree with
    (src/ledgerflow/adapters/repositories.py:140-172, 208-231, 282-317). Entry ids are allocated at
    insert and become visible at commit, so they can appear out of order: a snapshot may step over
    an uncommitted lower id. */
module Snapshots {
  import opened Wrappers
  import opened Seqs
  import opened Ledger
  import opened WritePath

  /** Accounts are stored under their primary key. */
  ghost predicate ChartOk(ch: Chart)
  {
    forall id | id in ch :: ch[id].id == id
  }

  function UpTo(ch: Chart, x: SnapRow): EntryRow -> int
    requires x.account in ch
  {
    UpToRow(ch[x.account].NormalBalance(), x.account, x.upTo)
  }

  // ---- what holds in every run ----

  /** `BIGSERIAL`: ids start at one and stay below the sequence. */
  ghost predicate Numbered(s: State)
  {
    && s.nextEntry >= 1
    && (forall r | r in s.db.entries :: 1 <= r.id < s.nextEntry)
    && (forall t | t in s.flights :: forall r | r in s.flights[t].rows :: 1 <= r.id < s.nextEntry)
  }

  /** The row folds a prefix of the committed entries, as they were when it was taken. */
  ghost predicate TakenAt(ch: Chart, entries: seq<EntryRow>, x: SnapRow, n: nat)
  {
    && n <= |entries|
    && x.account in ch
    && x.upTo == MaxId(entries[..n], x.account)
    && x.balance == Balance(entries[..n], ch[x.account])
  }

  ghost predicate Taken(ch: Chart, entries: seq<EntryRow>, x: SnapRow)
  {
    exists n: nat :: TakenAt(ch, entries, x, n)
  }

  ghost predicate TakenInv(ch: Chart, s: State)
  {
    && Numbered(s)
    && (forall x | x in s.db.snaps :: Taken(ch, s.db.entries, x))
    && (forall t | t in s.flights :: forall x | x in s.flights[t].snaps :: Taken(ch, s.db.entries, x))
  }

  lemma TakenGrows(ch: Chart, entries: seq<EntryRow>, later: seq<EntryRow>, x: SnapRow)
    requires Taken(ch, entries, x)
    ensures Taken(ch, entries + later, x)
  {
    var n: nat :| TakenAt(ch, entries, x, n);
    assert (entries + later)[..n] == entries[..n];
    assert TakenAt(ch, entries + later, x, n);
  }

  lemma StatementNumbered(ch: Chart, s: State, t: nat, f: Flight, a: Action)
    requires t in s.flights && f == s.flights[t] && !f.req.Snapshots?
    requires Numbered(s)
    ensures var s' := Statement(ch, s, t, f, a);
            && OnlyFlight(s, s', t) && s.nextEntry <= s'.nextEntry
            && (t in s'.flights ==>
                  && s'.flights[t].snaps == f.snaps
                  && (s'.flights[t].rows == f.rows || forall r | r in s'.flights[t].rows :: s.nextEntry <= r.id)
                  && forall r | r in s'.flights[t].rows :: 1 <= r.id < s'.nextEntry)
  {
  }

  lemma StepKeepsTaken(ch: Chart, s: State, a: Action)
    requires TakenInv(ch, s)
    ensures TakenInv(ch, Apply(ch, s, a))
  {
    var s' := Apply(ch, s, a);
    if a.Begin? || a.DropSnapshots? || a.t !in s.flights || a.Abort? {
    } else if a.ReadSnapshot? {
      if s' != s {
        var x := SnapRow(a.account, MaxId(s.db.entries, a.account), Balance(s.db.entries, ch[a.account]));
        assert s.db.entries[..|s.db.entries|] == s.db.entries;
        assert TakenAt(ch, s.db.entries, x, |s.db.entries|);
      }
    } else if a.Commit? {
      CommitKeepsTaken(ch, s, a.t);
    } else if !s.flights[a.t].req.Snapshots? {
      StatementNumbered(ch, s, a.t, s.flights[a.t], a);
    }
  }

  lemma CommitKeepsTaken(ch: Chart, s: State, t: nat)
    requires TakenInv(ch, s) && t in s.flights
    ensures TakenInv(ch, Apply(ch, s, Commit(t)))
  {
    var f, s' := s.flights[t], Apply(ch, s, Commit(t));
    if s' != s && !f.req.Snapshots? {
      forall x | Taken(ch, s.db.entries, x) ensures Taken(ch, s'.db.entries, x) {
        TakenGrows(ch, s.db.entries, f.rows, x);
      }
    }
  }

  lemma {:induction false} RunKeepsTaken(ch: Chart, actions: seq<Action>)
    ensures TakenInv(ch, Run(ch, INITIAL, actions))
  {
    if actions != [] {
      RunKeepsTaken(ch, actions[..|actions| - 1]);
      StepKeepsTaken(ch, Run(ch, INITIAL, actions[..|actions| - 1]), actions[|actions| - 1]);
    }
  }

  /** A snapshot plus its tail misses exactly the entries committed after it was taken with ids
      at or below its cursor. */
  lemma CacheError(ch: Chart, entries: seq<EntryRow>, x: SnapRow, n: nat)
    requires ChartOk(ch) && TakenAt(ch, entries, x, n)
    ensures var a := ch[x.account];
            x.balance + Sum(entries, TailRow(a.NormalBalance(), a.id, x.upTo)) ==
            Balance(entries, a) - Sum(entries[n..], UpTo(ch, x))
  {
    var a := ch[x.account];
    var early, late := entries[..n], entries[n..];
    var whole, head, tail := SignedRow(a.NormalBalance(), a.id), UpTo(ch, x), TailRow(a.NormalBalance(), a.id, x.upTo);
    assert entries == early + late;
    SumConcat(early, late, head);
    assert a.id == x.account;
    forall r | r in entries ensures whole(r) == head(r) + tail(r) {
    }
    SumSplit(entries, whole, head, tail);
    forall r | r in early ensures whole(r) == head(r) {
      assert r.entry.account == x.account ==> r.id <= x.upTo;
    }
    SumSame(early, whole, head);
  }

  /** `AccountRepository.reconcile`: snapshotted accounts whose recomputed balance differs from
      the cached one plus its tail. */
  ghost predicate Reconciles(db: Db, a: Account)
  {
    var cached := Newest(db.snaps, a.id);
    && cached.Some?
    && Balance(db.entries, a) !=
       cached.value.balance + Sum(db.entries, TailRow(a.NormalBalance(), a.id, cached.value.upTo))
  }

  /** The prefix a snapshot folded. */
  ghost function TakenPrefix(ch: Chart, entries: seq<EntryRow>, x: SnapRow): (n: nat)
    requires Taken(ch, entries, x)
    ensures TakenAt(ch, entries, x, n)
  {
    var n: nat :| TakenAt(ch, entries, x, n);
    n
  }

  /** With no condition on when snapshots are taken, in every run: reconciliation reports exactly
      the snapshotted accounts whose cached read is wrong, which are those whose newest snapshot
      stepped over entries that do not net to zero; an account without snapshots reads right. */
  lemma ReconcileIsExact(ch: Chart, actions: seq<Action>, account: string)
    requires ChartOk(ch) && account in ch
    ensures var db := Run(ch, INITIAL, actions).db;
            var newest := Newest(db.snaps, account);
            && (Reconciles(db, ch[account]) <==> CachedBalance(db, ch[account]) != Balance(db.entries, ch[account]))
            && (newest.Some? ==>
                  && Taken(ch, db.entries, newest.value)
                  && (Reconciles(db, ch[account]) <==>
                      Sum(db.entries[TakenPrefix(ch, db.entries, newest.value)..], UpTo(ch, newest.value)) != 0))
  {
    RunKeepsTaken(ch, actions);
    var s := Run(ch, INITIAL, actions);
    var a, newest := ch[account], Newest(s.db.snaps, account);
    if newest.Some? {
      assert Taken(ch, s.db.entries, newest.value);
      CacheError(ch, s.db.entries, newest.value, TakenPrefix(ch, s.db.entries, newest.value));
    } else {
      SumSame(s.db.entries, SignedRow(a.NormalBalance(), a.id), TailRow(a.NormalBalance(), a.id, 0));
    }
  }

  // ---- the condition under which the cache is always right ----

  /** No uncommitted entry of the account has an id at or below the cursor a snapshot would take. */
  ghost predicate NoPendingBelow(s: State, account: string)
  {
    forall t | t in s.flights ::
      forall r | r in s.flights[t].rows && r.entry.account == account :: r.id > MaxId(s.db.entries, account)
  }

  ghost predicate SafelyTaken(ch: Chart, s: State, actions: seq<Action>)
  {
    actions == []
    || (var front, last := actions[..|actions| - 1], actions[|actions| - 1];
        && SafelyTaken(ch, s, front)
        && (last.ReadSnapshot? ==> NoPendingBelow(Run(ch, s, front), last.account)))
  }

  /** A snapshot no open transaction can invalidate. */
  ghost predicate SnapOk(ch: Chart, s: State, x: SnapRow)
  {
    && x.account in ch
    && x.upTo < s.nextEntry
    && x.balance == Sum(s.db.entries, UpTo(ch, x))
    && forall t | t in s.flights :: forall r | r in s.flights[t].rows && r.entry.account == x.account :: r.id > x.upTo
  }

  ghost predicate CacheInv(ch: Chart, s: State)
  {
    && Numbered(s)
    && (forall x | x in s.db.snaps :: SnapOk(ch, s, x))
    && (forall t | t in s.flights :: forall x | x in s.flights[t].snaps :: SnapOk(ch, s, x))
  }

  lemma CommitKeepsSnap(ch: Chart, s: State, t: nat, f: Flight, x: SnapRow)
    requires ChartOk(ch) && t in s.flights && f == s.flights[t] && !f.req.Snapshots?
    requires SnapOk(ch, s, x)
    ensures SnapOk(ch, DoCommit(s, t, f), x)
  {
    SumConcat(s.db.entries, f.rows, UpTo(ch, x));
    forall r | r in f.rows ensures UpTo(ch, x)(r) == 0 {
      assert r.entry.account == x.account ==> r.id > x.upTo;
    }
    SumZero(f.rows, UpTo(ch, x));
  }

  lemma SafeSnapshotOk(ch: Chart, s: State, account: string)
    requires ChartOk(ch) && Numbered(s) && account in ch && NoPendingBelow(s, account)
    requires MaxId(s.db.entries, account) > 0
    ensures SnapOk(ch, s, SnapRow(account, MaxId(s.db.entries, account), Balance(s.db.entries, ch[account])))
  {
    var x := SnapRow(account, MaxId(s.db.entries, account), Balance(s.db.entries, ch[account]));
    forall r | r in s.db.entries ensures SignedRow(ch[account].NormalBalance(), account)(r) == UpTo(ch, x)(r) {
      assert r.entry.account == account ==> r.id <= x.upTo;
    }
    SumSame(s.db.entries, SignedRow(ch[account].NormalBalance(), account), UpTo(ch, x));
  }

  lemma StatementKeepsCache(ch: Chart, s: State, t: nat, a: Action)
    requires CacheInv(ch, s) && t in s.flights && !s.flights[t].req.Snapshots?
    ensures CacheInv(ch, Statement(ch, s, t, s.flights[t], a))
  {
    var s' := Statement(ch, s, t, s.flights[t], a);
    StatementNumbered(ch, s, t, s.flights[t], a);
    forall x | SnapOk(ch, s, x) ensures SnapOk(ch, s', x) {
    }
  }

  lemma CommitKeepsCache(ch: Chart, s: State, t: nat)
    requires ChartOk(ch) && CacheInv(ch, s) && t in s.flights
    ensures CacheInv(ch, Apply(ch, s, Commit(t)))
  {
    var f, s' := s.flights[t], Apply(ch, s, Commit(t));
    if s' != s && !f.req.Snapshots? {
      forall x | SnapOk(ch, s, x) ensures SnapOk(ch, s', x) {
        CommitKeepsSnap(ch, s, t, f, x);
      }
    }
  }

  lemma StepKeepsCache(ch: Chart, s: State, a: Action)
    requires ChartOk(ch) && CacheInv(ch, s)
    requires a.ReadSnapshot? ==> NoPendingBelow(s, a.account)
    ensures CacheInv(ch, Apply(ch, s, a))
  {
    hide UpTo, Statement, TriggerPasses, Balance;
    var s' := Apply(ch, s, a);
    if a.Begin? || a.DropSnapshots? || a.t !in s.flights || a.Abort? {
    } else if a.ReadSnapshot? {
      if s' != s {
        SafeSnapshotOk(ch, s, a.account);
      }
    } else if a.Commit? {
      CommitKeepsCache(ch, s, a.t);
    } else if !s.flights[a.t].req.Snapshots? {
      StatementKeepsCache(ch, s, a.t, a);
    }
  }

  lemma {:induction false} RunKeepsCache(ch: Chart, s: State, actions: seq<Action>)
    requires ChartOk(ch) && CacheInv(ch, s) && SafelyTaken(ch, s, actions)
    ensures CacheInv(ch, Run(ch, s, actions))
  {
    if actions != [] {
      RunKeepsCache(ch, s, actions[..|actions| - 1]);
      StepKeepsCache(ch, Run(ch, s, actions[..|actions| - 1]), actions[|actions| - 1]);
    }
  }

  lemma CachedIsFold(ch: Chart, s: State, account: string)
    requires ChartOk(ch) && CacheInv(ch, s) && account in ch
    ensures CachedBalance(s.db, ch[account]) == Balance(s.db.entries, ch[account])
  {
    var a, newest := ch[account], Newest(s.db.snaps, account);
    var whole := SignedRow(a.NormalBalance(), a.id);
    if newest.Some? {
      SumSplit(s.db.entries, whole, UpTo(ch, newest.value), TailRow(a.NormalBalance(), a.id, newest.value.upTo));
    } else {
      SumSame(s.db.entries, whole, TailRow(a.NormalBalance(), a.id, 0));
    }
  }

  /** Over every run of postings, reversals, safely taken snapshots and arbitrary deletions of
      snapshot rows, the cached balance is the fold of all committed entries. */
  lemma CacheAgrees(ch: Chart, actions: seq<Action>, account: string)
    requires ChartOk(ch) && account in ch && SafelyTaken(ch, INITIAL, actions)
    ensures var db := Run(ch, INITIAL, actions).db;
            CachedBalance(db, ch[account]) == Balance(db.entries, ch[account])
  {
    RunKeepsCache(ch, INITIAL, actions);
    CachedIsFold(ch, Run(ch, INITIAL, actions), account);
  }

  /** Open a connection, snapshot one account, commit it; then commit another transaction. */
  ghost function SnapshotThenCommit(ch: Chart, s: State, u: nat, account: string, t: nat): State
  {
    Apply(ch, SnapshotAlone(ch, s, u, account), Commit(t))
  }

  ghost function SnapshotAlone(ch: Chart, s: State, u: nat, account: string): State
  {
    Apply(ch, Apply(ch, Apply(ch, s, Begin(u, Request.Snapshots)), ReadSnapshot(u, account)), Commit(u))
  }

  lemma SnapshotAloneIs(ch: Chart, s: State, u: nat, account: string)
    requires account in ch && u !in s.flights && MaxId(s.db.entries, account) > 0
    ensures var x := SnapRow(account, MaxId(s.db.entries, account), Balance(s.db.entries, ch[account]));
            SnapshotAlone(ch, s, u, account) == s.(db := s.db.(snaps := AddSnaps(s.db.snaps, [x])))
  {
    hide Balance, MaxId, AddSnaps;
    var f := Flight(Request.Snapshots, Started, None, {}, [], [], None, []);
    var s0 := Apply(ch, s, Begin(u, Request.Snapshots));
    assert s0 == Advance(s, u, f);
    SnapshotTaken(ch, s0, u, account);
    assert Drop(s0, u).flights == s.flights;
  }

  lemma SnapshotTaken(ch: Chart, s: State, u: nat, account: string)
    requires account in ch && u in s.flights && MaxId(s.db.entries, account) > 0
    requires s.flights[u] == Flight(Request.Snapshots, Started, None, {}, [], [], None, [])
    ensures var x := SnapRow(account, MaxId(s.db.entries, account), Balance(s.db.entries, ch[account]));
            Apply(ch, Apply(ch, s, ReadSnapshot(u, account)), Commit(u)) ==
            Drop(s, u).(db := s.db.(snaps := AddSnaps(s.db.snaps, [x])))
  {
    var x := SnapRow(account, MaxId(s.db.entries, account), Balance(s.db.entries, ch[account]));
    assert [] + [x] == [x];
    var s1 := Apply(ch, s, ReadSnapshot(u, account));
    assert s1 == Advance(s, u, s.flights[u].(snaps := [x]));
    assert Drop(s1, u).flights == Drop(s, u).flights;
  }

  lemma SnapshotThenCommitTables(ch: Chart, s: State, u: nat, account: string, t: nat)
    requires account in ch && u !in s.flights && t in s.flights
    requires !s.flights[t].req.Snapshots? && s.flights[t].phase.Finished? && s.flights[t].event.Some?
    requires TriggerPasses(s.db, s.flights[t]) && MaxId(s.db.entries, account) > 0
    ensures var s' := SnapshotThenCommit(ch, s, u, account, t);
            var x := SnapRow(account, MaxId(s.db.entries, account), Balance(s.db.entries, ch[account]));
            && s'.db.entries == s.db.entries + s.flights[t].rows
            && s'.db.snaps == AddSnaps(s.db.snaps, [x])
  {
    SnapshotAloneIs(ch, s, u, account);
    assert TriggerPasses(SnapshotAlone(ch, s, u, account).db, s.flights[t]);
  }

  /** The condition is needed: snapshot an account while a finished posting still holds lower ids of
      it that do not net to zero, then let that posting commit, and the cache is wrong. */
  lemma UnsafeSnapshotBreaks(ch: Chart, s: State, t: nat, u: nat, account: string)
    requires ChartOk(ch) && account in ch && u !in s.flights && t in s.flights
    requires !s.flights[t].req.Snapshots? && s.flights[t].phase.Finished? && s.flights[t].event.Some?
    requires TriggerPasses(s.db, s.flights[t])
    requires MaxId(s.db.entries, account) > 0
    requires forall x | x in s.db.snaps && x.account == account :: x.upTo < MaxId(s.db.entries, account)
    requires Sum(s.flights[t].rows,
                 UpToRow(ch[account].NormalBalance(), account, MaxId(s.db.entries, account))) != 0
    ensures var db := SnapshotThenCommit(ch, s, u, account, t).db;
            CachedBalance(db, ch[account]) != Balance(db.entries, ch[account]) && Reconciles(db, ch[account])
  {
    var rows, entries := s.flights[t].rows, s.db.entries;
    var x := SnapRow(account, MaxId(entries, account), Balance(entries, ch[account]));
    SnapshotThenCommitTables(ch, s, u, account, t);
    AddNewer(s.db.snaps, x);
    assert (entries + rows)[..|entries|] == entries && (entries + rows)[|entries|..] == rows;
    CacheError(ch, entries + rows, x, |entries|);
  }

  lemma AddNewer(snaps: seq<SnapRow>, x: SnapRow)
    requires forall y | y in snaps && y.account == x.account :: y.upTo < x.upTo
    ensures AddSnaps(snaps, [x]) == snaps + [x]
    ensures Newest(snaps + [x], x.account) == Some(x)
  {
    assert [x][..0] == [];
    assert AddSnaps(snaps, []) == snaps;
    assert (snaps + [x])[..|snaps|] == snaps;
  }

  /** Deleting snapshots removes the named ones and nothing else. */
  lemma SnapshotsDropped(ch: Chart, s: State, dropped: set<(string, nat)>)
    ensures var s' := Apply(ch, s, DropSnapshots(dropped));
            && s' == s.(db := s.db.(snaps := s'.db.snaps))
            && forall x :: x in s'.db.snaps <==> x in s.db.snaps && !((x.account, x.upTo) in dropped)
  {
  }
}
