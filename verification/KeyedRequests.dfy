/** Keyed requests refine a register that the first commit decides
    (src/ledgerflow/api/idempotency.py, src/ledgerflow/adapters/repositories.py:699-771). */
module KeyedRequests {
  import opened Wrappers
  import opened Ledger
  import opened WritePath

  ghost predicate CompletedAs(db: Db, key: Option<KeyId>, fp: string, body: Resource)
  {
    key.Some? ==> key.value in db.keys && db.keys[key.value] == Completed(fp, body)
  }

  /** A committed posting made under this key. */
  ghost predicate Posted(txns: seq<TxnRow>, k: KeyId, id: string)
  {
    exists i :: 0 <= i < |txns| && txns[i].id == id && txns[i].key == Some(k)
  }

  ghost predicate FlightKeys(db: Db, f: Flight)
  {
    && (f.req.Snapshots? ==> f.keyRow.None? && f.phase.Started?)
    && (f.phase.Conflicted? ==> f.req.Key().Some? && f.req.Key().value in db.keys)
    && (f.phase.Replaying? ==> f.req.Key().Some? && CompletedAs(db, f.req.Key(), f.req.fp, f.phase.body))
    && (f.phase.Committed? ==>
          && f.keyRow.None?
          && f.phase.body.txnId == f.req.txnId
          && CompletedAs(db, f.req.Key(), f.req.fp, f.phase.body))
    && (f.keyRow.Some? ==> f.Working() && f.req.Key().Some? && f.req.Key().value !in db.keys)
    && (f.Working() && f.req.Key().Some? ==> f.keyRow.Some?)
    && (f.phase.Finished? && f.keyRow.Some? ==> f.keyRow == Some(Completed(f.req.fp, f.Body())))
  }

  ghost predicate OncePerKey(txns: seq<TxnRow>)
  {
    forall i, j | 0 <= i < j < |txns| && txns[i].key.Some? :: txns[i].key != txns[j].key
  }

  /** The register invariant. */
  ghost predicate KeysInv(s: State)
  {
    && AllCompleted(s.db)
    && (forall t | t in s.flights :: FlightKeys(s.db, s.flights[t]))
    && (forall t, u, k | t in s.flights && u in s.flights && t != u && s.flights[t].Claims(k) ::
          !s.flights[u].Claims(k))
    && (forall i | 0 <= i < |s.db.txns| && s.db.txns[i].key.Some? ::
          && s.db.txns[i].key.value in s.db.keys
          && s.db.keys[s.db.txns[i].key.value].Completed?
          && s.db.keys[s.db.txns[i].key.value].body.txnId == s.db.txns[i].id)
    && OncePerKey(s.db.txns)
    && (forall r | r in s.replies :: CompletedAs(s.db, r.key, r.fp, r.body))
  }

  ghost predicate AllCompleted(db: Db)
  {
    forall k | k in db.keys :: db.keys[k].Completed? && Posted(db.txns, k, db.keys[k].body.txnId)
  }

  /** One statement keeps its own flight in order, and claims a key only when nobody holds it. */
  lemma StatementKeys(ch: Chart, s: State, t: nat, f: Flight, a: Action)
    requires t in s.flights && f == s.flights[t] && !f.req.Snapshots?
    requires AllCompleted(s.db) && FlightKeys(s.db, f)
    ensures var s' := Statement(ch, s, t, f, a);
            && OnlyFlight(s, s', t)
            && (t in s'.flights ==>
                  && s'.replies == s.replies
                  && FlightKeys(s.db, s'.flights[t])
                  && (forall k | s'.flights[t].Claims(k) :: f.Claims(k) || !KeyReserved(s, t, k)))
            && (t !in s'.flights ==>
                  (s'.replies == s.replies
                   || ((f.phase.Committed? || f.phase.Replaying?)
                       && s'.replies == s.replies + [Delivered(f.req.key, f.req.fp, f.phase.body)])))
  {
    hide CachedBalance, ToCheck, Delta, IsJournal, Resolved, TxnLegs, StillPosted;
  }

  lemma StepKeepsKeys(ch: Chart, s: State, a: Action)
    requires KeysInv(s)
    ensures KeysInv(Apply(ch, s, a))
  {
    if a.Begin? || a.DropSnapshots? || a.t !in s.flights || a.Abort? {
    } else if a.Commit? {
      if s.flights[a.t].phase.Finished? && !s.flights[a.t].req.Snapshots? {
        CommitKeepsKeys(s, a.t, s.flights[a.t]);
      }
    } else if !a.ReadSnapshot? && !s.flights[a.t].req.Snapshots? {
      StatementKeepsKeys(ch, s, a.t, a);
    }
  }

  lemma StatementKeepsKeys(ch: Chart, s: State, t: nat, a: Action)
    requires KeysInv(s) && t in s.flights && !s.flights[t].req.Snapshots?
    ensures KeysInv(Statement(ch, s, t, s.flights[t], a))
  {
    StatementKeys(ch, s, t, s.flights[t], a);
  }

  /** The commit writes the claimed key and leaves every other key as it was. */
  lemma CommitWritesKey(s: State, t: nat, f: Flight)
    requires KeysInv(s) && t in s.flights && f == s.flights[t]
    requires f.phase.Finished? && f.event.Some? && !f.req.Snapshots?
    ensures var db' := CommittedDb(s.db, f);
            && OncePerKey(db'.txns)
            && AllCompleted(db')
            && (forall k | k in s.db.keys :: k in db'.keys && db'.keys[k] == s.db.keys[k])
            && CompletedAs(db', f.req.key, f.req.fp, f.Body())
            && (forall k | k in db'.keys :: k in s.db.keys || f.Claims(k))
  {
    var db' := CommittedDb(s.db, f);
    CommittedTxns(s.db, f);
    forall k | k in db'.keys ensures db'.keys[k].Completed? && Posted(db'.txns, k, db'.keys[k].body.txnId) {
      if k in s.db.keys {
        var i :| 0 <= i < |s.db.txns| && s.db.txns[i].id == s.db.keys[k].body.txnId && s.db.txns[i].key == Some(k);
        assert db'.txns[i].id == db'.keys[k].body.txnId;
      } else {
        assert db'.txns[|s.db.txns|].id == db'.keys[k].body.txnId;
      }
    }
  }

  lemma CommitKeepsKeys(s: State, t: nat, f: Flight)
    requires KeysInv(s) && t in s.flights && f == s.flights[t]
    requires f.phase.Finished? && !f.req.Snapshots?
    ensures KeysInv(DoCommit(s, t, f))
  {
    var s' := DoCommit(s, t, f);
    if s' != s {
      CommitWritesKey(s, t, f);
      forall u | u in s'.flights ensures FlightKeys(s'.db, s'.flights[u]) {
        if u != t {
          assert FlightKeys(s.db, s.flights[u]);
        }
      }
      forall i | 0 <= i < |s'.db.txns| && s'.db.txns[i].key.Some?
        ensures && s'.db.txns[i].key.value in s'.db.keys
                && s'.db.keys[s'.db.txns[i].key.value].Completed?
                && s'.db.keys[s'.db.txns[i].key.value].body.txnId == s'.db.txns[i].id
      {
        if i < |s.db.txns| {
          assert s'.db.txns[i].key == s.db.txns[i].key && s'.db.txns[i].id == s.db.txns[i].id;
        }
      }
    }
  }

  lemma {:induction false} RunKeepsKeys(ch: Chart, s: State, actions: seq<Action>)
    requires KeysInv(s)
    ensures KeysInv(Run(ch, s, actions))
    ensures forall k | k in s.db.keys ::
              k in Run(ch, s, actions).db.keys && Run(ch, s, actions).db.keys[k] == s.db.keys[k]
  {
    if actions != [] {
      var front, last := actions[..|actions| - 1], actions[|actions| - 1];
      RunKeepsKeys(ch, s, front);
      StepKeepsKeys(ch, Run(ch, s, front), last);
      DecidedOnce(ch, Run(ch, s, front), last);
    }
  }

  /** Once a key is decided no statement of any transaction changes it. */
  lemma DecidedOnce(ch: Chart, s: State, a: Action)
    requires KeysInv(s)
    ensures forall k | k in s.db.keys :: k in Apply(ch, s, a).db.keys && Apply(ch, s, a).db.keys[k] == s.db.keys[k]
  {
    if !a.Begin? && !a.DropSnapshots? && a.t in s.flights {
      var f := s.flights[a.t];
      assert FlightKeys(s.db, f);
      if !a.Commit? && !a.Abort? && !a.ReadSnapshot? && !f.req.Snapshots? {
        StatementKeys(ch, s, a.t, f, a);
      }
    }
  }

  /** The refinement, step by step: the committed keys are a register that only a commit writes, once
      per key, together with exactly one posting. */
  lemma RegisterStep(ch: Chart, s: State, a: Action)
    requires KeysInv(s)
    ensures var s' := Apply(ch, s, a);
            || (s'.db.keys == s.db.keys)
            || (a.Commit? && a.t in s.flights
                && var f := s.flights[a.t];
                   && !f.req.Snapshots? && f.req.key.Some? && f.req.key.value !in s.db.keys
                   && s'.db.keys == s.db.keys[f.req.key.value := Completed(f.req.fp, f.Body())]
                   && |s'.db.txns| == |s.db.txns| + 1 && s'.db.txns[|s.db.txns|].id == f.req.txnId)
  {
    if !a.Begin? && !a.DropSnapshots? && a.t in s.flights {
      var f := s.flights[a.t];
      assert FlightKeys(s.db, f);
      if a.Commit? {
        if f.phase.Finished? && f.event.Some? && !f.req.Snapshots? {
          CommittedTxns(s.db, f);
        }
      } else if !a.Abort? && !a.ReadSnapshot? && !f.req.Snapshots? {
        StatementKeys(ch, s, a.t, f, a);
      }
    }
  }

  /** The protocol, over every run from an empty system: no committed row is `in_progress`; a key
      belongs to at most one committed posting, and every committed row names one; two
      successes for a key carry one fingerprint and one body, the stored one. */
  lemma FirstCommitDecides(ch: Chart, actions: seq<Action>)
    ensures var s := Run(ch, INITIAL, actions);
            && (forall k | k in s.db.keys :: s.db.keys[k].Completed? && Posted(s.db.txns, k, s.db.keys[k].body.txnId))
            && (forall i, j | 0 <= i < |s.db.txns| && 0 <= j < |s.db.txns| ::
                  s.db.txns[i].key.Some? && s.db.txns[i].key == s.db.txns[j].key ==> i == j)
            && (forall r | r in s.replies && r.key.Some? ::
                  r.key.value in s.db.keys && s.db.keys[r.key.value] == Completed(r.fp, r.body))
            && (forall r, q | r in s.replies && q in s.replies && r.key.Some? && r.key == q.key ::
                  r.fp == q.fp && r.body == q.body)
  {
    RunKeepsKeys(ch, INITIAL, actions);
    var s := Run(ch, INITIAL, actions);
    assert forall i, j | 0 <= i < j < |s.db.txns| && s.db.txns[i].key.Some? :: s.db.txns[i].key != s.db.txns[j].key;
    forall r, q | r in s.replies && q in s.replies && r.key.Some? && r.key == q.key
      ensures r.fp == q.fp && r.body == q.body
    {
      assert CompletedAs(s.db, r.key, r.fp, r.body) && CompletedAs(s.db, q.key, q.fp, q.body);
    }
  }

  /** A conflicted claim never meets the missing row or the lease branches: it replays the stored
      body or rejects a different fingerprint, whatever the lease says. */
  lemma TakeoverUnreachable(ch: Chart, actions: seq<Action>, t: nat, leaseExpired: bool)
    requires t in Run(ch, INITIAL, actions).flights
    requires Run(ch, INITIAL, actions).flights[t].phase.Conflicted?
    ensures var s := Run(ch, INITIAL, actions);
            var f := s.flights[t];
            && !f.req.Snapshots? && f.req.key.Some? && f.req.key.value in s.db.keys
            && s.db.keys[f.req.key.value].Completed?
            && Apply(ch, s, ReadKey(t, leaseExpired)) ==
               if s.db.keys[f.req.key.value].fp == f.req.fp
               then Advance(s, t, f.(phase := Replaying(s.db.keys[f.req.key.value].body)))
               else Drop(s, t)
  {
    RunKeepsKeys(ch, INITIAL, actions);
    assert FlightKeys(Run(ch, INITIAL, actions).db, Run(ch, INITIAL, actions).flights[t]);
  }

  /** Retrying a decided key in any reachable state, by any later connection: the same fingerprint
      gets the stored body and another gets nothing; neither touches the database. */
  lemma RetryReplays(ch: Chart, actions: seq<Action>, t: nat, req: Request, leaseExpired: bool)
    requires t !in Run(ch, INITIAL, actions).flights
    requires !req.Snapshots? && req.key.Some? && req.key.value in Run(ch, INITIAL, actions).db.keys
    ensures var s := Run(ch, INITIAL, actions);
            var row := s.db.keys[req.key.value];
            && row.Completed?
            && Apply(ch, Apply(ch, Apply(ch, Apply(ch, s, Begin(t, req)), Claim(t)),
                  ReadKey(t, leaseExpired)), Reply(t)) ==
               if row.fp == req.fp then s.(replies := s.replies + [Delivered(req.key, req.fp, row.body)]) else s
  {
    RunKeepsKeys(ch, INITIAL, actions);
    RetryFrom(ch, Run(ch, INITIAL, actions), t, req, leaseExpired);
  }

  lemma RetryFrom(ch: Chart, s: State, t: nat, req: Request, leaseExpired: bool)
    requires t !in s.flights && !req.Snapshots? && req.key.Some? && req.key.value in s.db.keys
    requires s.db.keys[req.key.value].Completed?
    ensures var row := s.db.keys[req.key.value];
            Apply(ch, Apply(ch, Apply(ch, Apply(ch, s, Begin(t, req)), Claim(t)),
                  ReadKey(t, leaseExpired)), Reply(t)) ==
            if row.fp == req.fp then s.(replies := s.replies + [Delivered(req.key, req.fp, row.body)]) else s
  {
    var f := Flight(req, Started, None, {}, [], [], None, []);
    var s2 := Apply(ch, Apply(ch, s, Begin(t, req)), Claim(t));
    assert s2 == Advance(s, t, f.(phase := Conflicted));
    var s3 := Apply(ch, s2, ReadKey(t, leaseExpired));
    assert s3.flights - {t} == s.flights;
  }
}
