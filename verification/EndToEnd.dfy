/** The write path and the delivery pipeline joined at the outbox table: from a request to the
    effects of its event (src/ledgerflow/application/services.py:206-310,
    src/ledgerflow/workers/outbox_relay.py:28-58, src/ledgerflow/workers/runner.py:80-163). */
module EndToEnd {
  import opened Wrappers
  import opened Events
  import opened Stream
  import W = WritePath
  import D = Delivery
  import B = Books
  import S = DeliverySafety

  /** One database: the delivery side reads the outbox that the write side commits to. */
  datatype System = System(write: W.State, delivery: D.State)

  datatype Action = Write(statement: W.Action) | Deliver(step: D.Action)

  const INITIAL := System(W.INITIAL, D.INITIAL)

  function Apply(ch: W.Chart, s: System, a: Action): System
  {
    match a
    case Write(statement) =>
      var w := W.Apply(ch, s.write, statement);
      System(w, s.delivery.(outbox := w.db.outbox))
    case Deliver(step) =>
      if step.Append? then s else s.(delivery := D.Apply(s.delivery, step))
  }

  ghost function Run(ch: W.Chart, actions: seq<Action>): System
  {
    if actions == [] then INITIAL
    else Apply(ch, Run(ch, actions[..|actions| - 1]), actions[|actions| - 1])
  }

  // ---- outbox ids ----

  /** `BIGSERIAL` ids of outbox rows, committed and buffered, are all different. */
  ghost predicate Numbered(s: W.State)
  {
    && RowsNumbered(s.db.outbox, s.nextOutbox)
    && (forall t | t in s.flights :: EventNumbered(s.db.outbox, s.nextOutbox, s.flights[t].event))
    && (forall t, u | t in s.flights && u in s.flights && t != u :: OtherId(s.flights[t].event, s.flights[u].event))
  }

  ghost predicate RowsNumbered(outbox: seq<OutboxRow>, next: nat)
  {
    && (forall row | row in outbox :: row.id < next)
    && (forall i, j | 0 <= i < j < |outbox| :: outbox[i].id != outbox[j].id)
  }

  ghost predicate EventNumbered(outbox: seq<OutboxRow>, next: nat, event: Option<OutboxRow>)
  {
    event.Some? ==> event.value.id < next && forall row | row in outbox :: row.id != event.value.id
  }

  ghost predicate OtherId(x: Option<OutboxRow>, y: Option<OutboxRow>)
  {
    x.Some? && y.Some? ==> x.value.id != y.value.id
  }

  lemma StatementNumbered(ch: W.Chart, s: W.State, t: nat, a: W.Action)
    requires t in s.flights && !s.flights[t].req.Snapshots?
    ensures var s' := W.Statement(ch, s, t, s.flights[t], a);
            && W.OnlyFlight(s, s', t) && s.nextOutbox <= s'.nextOutbox
            && (t in s'.flights ==>
                  || s'.flights[t].event == s.flights[t].event
                  || (s'.flights[t].event.Some? && s'.flights[t].event.value.id == s.nextOutbox < s'.nextOutbox))
  {
  }

  lemma StatementKeepsNumbered(ch: W.Chart, s: W.State, t: nat, a: W.Action)
    requires Numbered(s) && t in s.flights && !s.flights[t].req.Snapshots?
    ensures Numbered(W.Statement(ch, s, t, s.flights[t], a))
  {
    StatementNumbered(ch, s, t, a);
  }

  lemma CommitKeepsNumbered(s: W.State, t: nat)
    requires Numbered(s) && t in s.flights && (s.flights[t].phase.Finished? || s.flights[t].req.Snapshots?)
    ensures Numbered(W.DoCommit(s, t, s.flights[t]))
  {
  }

  lemma StepKeepsNumbered(ch: W.Chart, s: W.State, a: W.Action)
    requires Numbered(s)
    ensures Numbered(W.Apply(ch, s, a))
  {
    if a.Begin? || a.DropSnapshots? || a.t !in s.flights || a.Abort? || a.ReadSnapshot? {
    } else if a.Commit? {
      if s.flights[a.t].phase.Finished? || s.flights[a.t].req.Snapshots? {
        CommitKeepsNumbered(s, a.t);
      }
    } else if !s.flights[a.t].req.Snapshots? {
      StatementKeepsNumbered(ch, s, a.t, a);
    }
  }

  // ---- the two halves meet ----

  ghost predicate Inv(s: System)
  {
    && B.BooksInv(s.write) && Numbered(s.write)
    && S.DeliveryInv(s.delivery) && s.delivery.outbox == s.write.db.outbox && s.delivery.past == D.NO_REPLAY
  }

  /** A statement of the write path adds nothing to the outbox, or one row under a new transaction
      id, a new event id and a new row id. */
  lemma WriteAppends(ch: W.Chart, s: W.State, a: W.Action)
    requires B.BooksInv(s) && Numbered(s)
    ensures var o, o' := s.db.outbox, W.Apply(ch, s, a).db.outbox;
            || o' == o
            || (|o'| == |o| + 1 && o' == o + [o'[|o|]]
                && forall x | x in o :: x.id != o'[|o|].id && x.eventId != o'[|o|].eventId && x.txnId != o'[|o|].txnId)
  {
    if a.Begin? || a.DropSnapshots? || a.t !in s.flights {
    } else if a.Commit? {
      var f := s.flights[a.t];
      if f.phase.Finished? && !f.req.Snapshots? && f.event.Some? {
        CommitAppends(s, a.t);
      }
    } else if !a.Abort? && !a.ReadSnapshot? && !s.flights[a.t].req.Snapshots? {
      StatementNumbered(ch, s, a.t, a);
    }
  }

  lemma CommitAppends(s: W.State, t: nat)
    requires B.BooksInv(s) && Numbered(s) && t in s.flights
    requires !s.flights[t].req.Snapshots? && s.flights[t].phase.Finished? && s.flights[t].event.Some?
    ensures var row := s.flights[t].event.value;
            && (forall x | x in s.db.outbox :: x.id != row.id && x.eventId != row.eventId && x.txnId != row.txnId)
  {
    var f := s.flights[t];
    assert B.FlightOk(s.db, f);
    forall x | x in s.db.outbox ensures x.txnId != f.event.value.txnId {
      var i :| 0 <= i < |s.db.outbox| && s.db.outbox[i] == x;
      assert s.db.txns[i].id == x.txnId;
    }
  }

  lemma StepKeepsInv(ch: W.Chart, s: System, a: Action)
    requires Inv(s)
    ensures Inv(Apply(ch, s, a))
  {
    match a
    case Write(statement) =>
      B.StepKeepsBooks(ch, s.write, statement);
      StepKeepsNumbered(ch, s.write, statement);
      WriteAppends(ch, s.write, statement);
      var o, o' := s.write.db.outbox, W.Apply(ch, s.write, statement).db.outbox;
      if o' != o {
        assert s.delivery.(outbox := o') == D.Apply(s.delivery, D.Append(o'[|o|]));
        S.StepKeepsDelivery(s.delivery, D.Append(o'[|o|]));
      } else {
        assert s.delivery.(outbox := o') == s.delivery;
      }
    case Deliver(step) =>
      if !step.Append? {
        S.StepKeepsDelivery(s.delivery, step);
        S.StepGrows(s.delivery, step);
        DeliveryKeepsOutbox(s.delivery, step);
      }
  }

  lemma DeliveryKeepsOutbox(s: D.State, a: D.Action)
    requires !a.Append?
    ensures D.Apply(s, a).outbox == s.outbox
  {
  }

  lemma {:induction false} RunKeepsInv(ch: W.Chart, actions: seq<Action>)
    ensures Inv(Run(ch, actions))
  {
    if actions == [] {
      S.InitialInv();
    } else {
      RunKeepsInv(ch, actions[..|actions| - 1]);
      StepKeepsInv(ch, Run(ch, actions[..|actions| - 1]), actions[|actions| - 1]);
    }
  }

  // ---- the theorem ----

  /** The event of a committed transaction, with nothing else under its transaction id. */
  ghost predicate IsEventOf(outbox: seq<OutboxRow>, id: string, row: OutboxRow)
  {
    && row in outbox && row.txnId == id
    && (forall x | x in outbox && (x.txnId == id || x.eventId == row.eventId) :: x == row)
  }

  lemma EventFor(db: W.Db, id: string) returns (row: OutboxRow)
    requires B.BooksOk(db) && W.HasTxn(db.txns, id)
    ensures IsEventOf(db.outbox, id, row)
  {
    var i :| 0 <= i < |db.txns| && db.txns[i].id == id;
    row := db.outbox[i];
    forall x | x in db.outbox && (x.txnId == id || x.eventId == row.eventId) ensures x == row {
      var j :| 0 <= j < |db.outbox| && db.outbox[j] == x;
      assert db.outbox[j].txnId == db.txns[j].id;
    }
  }

  /** From request to effect, over every run of requests, aborts, relay and worker crashes,
      republications and duplicates: a committed transaction has exactly one event; no group commits
      more than one effect for it; and once all rows are marked and a group of the ledger topic has
      reached the head, the event is handled or dead-lettered there. */
  lemma NoLossNoDoubleEffect(ch: W.Chart, actions: seq<Action>, id: string) returns (row: OutboxRow)
    requires W.HasTxn(Run(ch, actions).write.db.txns, id)
    ensures var s := Run(ch, actions);
            && IsEventOf(s.write.db.outbox, id, row)
            && (forall g: Group :: s.delivery.effects[(g, row.eventId)] <= 1)
            && ((forall x | x in s.write.db.outbox :: x.id in s.delivery.marked) ==>
                  forall g | g in {Normalizer, Webhooks}
                             && D.OffsetOf(s.delivery, g) >= Head(s.delivery.log, LedgerEvents) ::
                    S.Handled(s.delivery, g, row.eventId))
  {
    RunKeepsInv(ch, actions);
    var s := Run(ch, actions);
    row := EventFor(s.write.db, id);
    if forall x | x in s.write.db.outbox :: x.id in s.delivery.marked {
      forall g | g in {Normalizer, Webhooks} && D.OffsetOf(s.delivery, g) >= Head(s.delivery.log, LedgerEvents)
        ensures S.Handled(s.delivery, g, row.eventId)
      {
        S.NothingLostState(s.delivery, g, row);
      }
    }
  }

  lemma EffectHasRow(s: D.State, g: Group, eventId: string) returns (row: OutboxRow)
    requires S.FeedInv(s) && S.TablesOk(s) && s.past == D.NO_REPLAY && s.effects[(g, eventId)] > 0
    ensures row in s.outbox && eventId == if g == Risk then D.NormId(row.eventId) else row.eventId
  {
    hide S.HandledTo, S.RelayOk, S.OutboxOk;
    assert S.Published(s.log, g.Topic(), eventId);
    var o :| OnTopic(s.log, g.Topic(), o) && s.log[o - 1].eventId == eventId;
    var m := s.log[o - 1];
    assert m in s.log && S.Sourced(s.outbox, m);
    row :| row in s.outbox && row.txnId == m.txnId &&
        eventId == if g == Risk then D.NormId(row.eventId) else row.eventId;
  }

  /** Nothing is announced that did not happen: every effect in every group stems from a committed
      transaction. */
  lemma NothingInvented(ch: W.Chart, actions: seq<Action>, g: Group, eventId: string)
    requires Run(ch, actions).delivery.effects[(g, eventId)] > 0
    ensures var s := Run(ch, actions);
            exists row :: row in s.write.db.outbox && W.HasTxn(s.write.db.txns, row.txnId)
                          && eventId == if g == Risk then D.NormId(row.eventId) else row.eventId
  {
    hide S.FeedInv, S.TablesOk, S.WorkersOk, S.Exclusive;
    RunKeepsInv(ch, actions);
    var s := Run(ch, actions);
    var row := EffectHasRow(s.delivery, g, eventId);
    var i :| 0 <= i < |s.write.db.outbox| && s.write.db.outbox[i] == row;
    assert s.write.db.txns[i].id == row.txnId;
  }

  // ---- the two machines, unhindered by each other ----

  /** The requests' share of a run. */
  ghost function Writes(actions: seq<Action>): seq<W.Action>
  {
    if actions == [] then []
    else Writes(actions[..|actions| - 1])
         + if actions[|actions| - 1].Write? then [actions[|actions| - 1].statement] else []
  }

  /** Delivery never gets in the way of requests: the write side runs as it would alone. */
  lemma {:induction false} WritesAlone(ch: W.Chart, actions: seq<Action>)
    ensures Run(ch, actions).write == W.Run(ch, W.INITIAL, Writes(actions))
  {
    hide W.Apply, D.Apply;
    if actions != [] {
      var front, last := actions[..|actions| - 1], actions[|actions| - 1];
      WritesAlone(ch, front);
      if last.Write? {
        assert Writes(actions) == Writes(front) + [last.statement];
        assert Writes(actions)[..|Writes(actions)| - 1] == Writes(front);
      } else {
        assert Writes(actions) == Writes(front) + [] == Writes(front);
      }
    }
  }

  function Delivering(steps: seq<D.Action>): (r: seq<Action>)
    ensures |r| == |steps|
  {
    seq(|steps|, i requires 0 <= i < |steps| => Deliver(steps[i]))
  }

  /** And from any point of a run, whatever relays and workers can do next to the tables they can do here. */
  lemma {:induction false} DeliversAlone(ch: W.Chart, actions: seq<Action>, steps: seq<D.Action>)
    requires forall a | a in steps :: !a.Append?
    ensures var s, s' := Run(ch, actions), Run(ch, actions + Delivering(steps));
            s'.write == s.write && s'.delivery == D.Run(s.delivery, steps)
  {
    hide W.Apply, D.Apply;
    var all := actions + Delivering(steps);
    if steps == [] {
      assert all == actions;
    } else {
      var front := steps[..|steps| - 1];
      assert all[..|all| - 1] == actions + Delivering(front) && steps[|steps| - 1] in steps;
      assert forall a | a in front :: a in steps;
      DeliversAlone(ch, actions, front);
    }
  }
}
