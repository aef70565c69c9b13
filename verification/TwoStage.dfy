/** The second topic, in terms of postings: every described posting that the normalizer is through with
    is scored exactly once, and no two share a score (src/ledgerflow/workers/normalizer.py:21-74). */
module TwoStage {
  import opened Events
  import opened Stream
  import opened Delivery
  import opened DeliverySafety

  /** Distinct events have distinct successors. */
  lemma SuccessorsDiffer(a: string, b: string)
    requires NormId(a) == NormId(b)
    ensures a == b
  {
    assert NormId(a)[..|NormId(a)| - 5] == a && NormId(b)[..|NormId(b)| - 5] == b;
  }

  /** The normalized topic has a message with this id about this transaction. */
  ghost predicate Carries(s: State, eventId: string, txnId: string)
  {
    exists o :: OnTopic(s.log, Normalized, o) && s.log[o - 1].eventId == eventId && s.log[o - 1].txnId == txnId
  }

  /** Where a message of the normalized topic comes from. */
  lemma Origin(s: State, eventId: string, txnId: string) returns (row: OutboxRow)
    requires FeedInv(s) && Carries(s, eventId, txnId)
    ensures row in s.outbox && row.described && row.txnId == txnId && NormId(row.eventId) == eventId
  {
    var o :| OnTopic(s.log, Normalized, o) && s.log[o - 1].eventId == eventId && s.log[o - 1].txnId == txnId;
    assert s.log[o - 1] in s.log && Sourced(s.outbox, s.log[o - 1]);
    row :| row in s.outbox && row.txnId == txnId && row.described && eventId == NormId(row.eventId);
  }

  lemma SameRow(s: State, x: OutboxRow, y: OutboxRow)
    requires FeedInv(s) && x in s.outbox && y in s.outbox && (x.eventId == y.eventId || x.txnId == y.txnId)
    ensures x == y
  {
    var i :| 0 <= i < |s.outbox| && s.outbox[i] == x;
    var j :| 0 <= j < |s.outbox| && s.outbox[j] == y;
  }

  /** One id per transaction, one transaction per id. */
  lemma OneToOne(s: State, e: string, f: string, a: string, b: string)
    requires FeedInv(s) && Carries(s, e, a) && Carries(s, f, b)
    ensures e == f <==> a == b
  {
    var x := Origin(s, e, a);
    var y := Origin(s, f, b);
    if e == f {
      SuccessorsDiffer(x.eventId, y.eventId);
    }
    if e == f || a == b {
      SameRow(s, x, y);
    }
  }

  /** Described postings that have come through to the normalized topic. */
  ghost function Passed(s: State): set<OutboxRow>
  {
    set row | row in s.outbox && row.described && exists e :: Carries(s, e, row.txnId)
  }

  /** Described postings whose normalizer claim is committed. */
  ghost function Normalizes(s: State): set<OutboxRow>
  {
    set row | row in s.outbox && row.described && (Normalizer, row.eventId) in s.claims
  }

  /** The effects that risk has committed. */
  ghost function Scored(s: State): set<(Group, string)> { set x | x in s.effects && x.0 == Risk }

  ghost function ScoreOf(s: State, row: OutboxRow): (x: (Group, string))
    requires row in Passed(s)
    ensures x.0 == Risk && Carries(s, x.1, row.txnId)
  {
    var e :| Carries(s, e, row.txnId);
    (Risk, e)
  }

  ghost function Scores(s: State, rows: set<OutboxRow>): set<(Group, string)>
    requires rows <= Passed(s)
  {
    set row | row in rows :: ScoreOf(s, row)
  }

  lemma {:induction false} ScoresSize(s: State, rows: set<OutboxRow>)
    requires FeedInv(s) && rows <= Passed(s)
    ensures |Scores(s, rows)| == |rows|
    decreases |rows|
  {
    if rows != {} {
      var row :| row in rows;
      var rest := rows - {row};
      ScoresSize(s, rest);
      forall x | x in rest ensures ScoreOf(s, x) != ScoreOf(s, row) {
        OneToOne(s, ScoreOf(s, x).1, ScoreOf(s, row).1, x.txnId, row.txnId);
        if x.txnId == row.txnId { SameRow(s, x, row); }
      }
      assert Scores(s, rows) == Scores(s, rest) + {ScoreOf(s, row)};
    }
  }

  /** At the head of the second topic, and with nothing dead-lettered there, risk has committed exactly
      one effect for each posting that came through, and none for anything else. Every described posting
      that the normalizer has claimed came through. */
  lemma OneScorePerPosting(actions: seq<Action>)
    requires var s := Run(INITIAL, actions);
             OffsetOf(s, Risk) >= Head(s.log, Normalized) && forall x | x in s.dead :: x.0 != Risk
    ensures var s := Run(INITIAL, actions);
            && Normalizes(s) <= Passed(s)
            && |Scored(s)| == |Passed(s)| && (forall x | x in Scored(s) :: s.effects[x] == 1)
            && (forall row | row in Passed(s) :: exists e :: Carries(s, e, row.txnId) && s.effects[(Risk, e)] == 1)
            && (forall x, y, e | x in Passed(s) && y in Passed(s) && Carries(s, e, x.txnId) && Carries(s, e, y.txnId) ::
                  x == y)
  {
    var s := Run(INITIAL, actions);
    InitialInv();
    RunKeepsDelivery(INITIAL, actions);
    RunKeepsPast(INITIAL, actions);
    ScoresAreScored(s);
    ScoresSize(s, Passed(s));
    ClaimedPass(s);
    forall x, y, e | x in Passed(s) && y in Passed(s) && Carries(s, e, x.txnId) && Carries(s, e, y.txnId)
      ensures x == y
    {
      OneToOne(s, e, e, x.txnId, y.txnId);
      SameRow(s, x, y);
    }
  }

  lemma ClaimedPass(s: State)
    requires FeedInv(s) && TablesOk(s)
    ensures Normalizes(s) <= Passed(s)
  {
    forall row | row in Normalizes(s) ensures row in Passed(s) {
      assert Published(s.log, Normalized, NormId(row.eventId));
      var o :| OnTopic(s.log, Normalized, o) && s.log[o - 1].eventId == NormId(row.eventId);
      assert Carries(s, NormId(row.eventId), s.log[o - 1].txnId);
      var x := Origin(s, NormId(row.eventId), s.log[o - 1].txnId);
      SuccessorsDiffer(x.eventId, row.eventId);
      SameRow(s, x, row);
    }
  }

  lemma ScoresAreScored(s: State)
    requires FeedInv(s) && TablesOk(s) && s.past == NO_REPLAY
    requires OffsetOf(s, Risk) >= Head(s.log, Normalized) && forall x | x in s.dead :: x.0 != Risk
    ensures Scores(s, Passed(s)) == Scored(s) && forall x | x in Scored(s) :: s.effects[x] == 1
    ensures forall row | row in Passed(s) :: Carries(s, ScoreOf(s, row).1, row.txnId) && s.effects[ScoreOf(s, row)] == 1
  {
    forall row | row in Passed(s) ensures s.effects[ScoreOf(s, row)] == 1 {
      AtHeadScored(s, ScoreOf(s, row).1, row.txnId);
    }
    forall x | x in Scored(s) ensures x in Scores(s, Passed(s)) && s.effects[x] == 1 {
      assert x in s.claims && Published(s.log, Normalized, x.1);
      var o :| OnTopic(s.log, Normalized, o) && s.log[o - 1].eventId == x.1;
      assert Carries(s, x.1, s.log[o - 1].txnId);
      var row := Origin(s, x.1, s.log[o - 1].txnId);
      assert row in Passed(s);
      OneToOne(s, x.1, ScoreOf(s, row).1, row.txnId, row.txnId);
    }
  }

  lemma AtHeadScored(s: State, e: string, txnId: string)
    requires TablesOk(s) && s.past == NO_REPLAY && Carries(s, e, txnId)
    requires OffsetOf(s, Risk) >= Head(s.log, Normalized) && forall x | x in s.dead :: x.0 != Risk
    ensures s.effects[(Risk, e)] == 1
  {
    var o :| OnTopic(s.log, Normalized, o) && s.log[o - 1].eventId == e && s.log[o - 1].txnId == txnId;
    HeadIsLast(s.log, Normalized);
    assert HandledTo(s, Risk, OffsetOf(s, Risk));
    assert OnTopic(s.log, Risk.Topic(), o) && o <= OffsetOf(s, Risk);
    assert Handled(s, Risk, e);
    assert (Risk, e) !in s.dead;
  }
}
