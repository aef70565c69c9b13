/** The Postgres event stream: an append-only log shared by the topics, and one stored offset per
    consumer group (src/ledgerflow/stream/pg.py). A message's offset is its position in the log,
    counted from one. */
module Stream {
  import opened Seqs

  datatype Topic = LedgerEvents | Normalized

  /** Consumer groups and the topic each one reads. */
  datatype Group = Normalizer | Webhooks | Risk {
    function Topic(): Topic { if Risk? then Normalized else LedgerEvents }
  }

  datatype Message = Message(topic: Topic, eventId: string, txnId: string)

  /** `poll`: offsets of the next messages of a topic after `after`, oldest first. */
  function Poll(log: seq<Message>, topic: Topic, after: nat, limit: nat): seq<nat>
    decreases |log| - after
  {
    if limit == 0 || after >= |log| then []
    else if log[after].topic == topic then [after + 1] + Poll(log, topic, after + 1, limit - 1)
    else Poll(log, topic, after + 1, limit)
  }

  /** `head`: offset of the last message of a topic, zero if there is none. */
  function Head(log: seq<Message>, topic: Topic): nat
  {
    if log == [] then 0
    else if log[|log| - 1].topic == topic then |log|
    else Head(log[..|log| - 1], topic)
  }

  predicate OnTopic(log: seq<Message>, topic: Topic, o: int)
  {
    1 <= o <= |log| && log[o - 1].topic == topic
  }

  /** The messages of the topic right after `after`, none left out in between. */
  ghost predicate Consecutive(log: seq<Message>, topic: Topic, after: nat, offsets: seq<nat>)
  {
    && (forall i | 0 <= i < |offsets| :: after < offsets[i] && OnTopic(log, topic, offsets[i]))
    && (forall i, j | 0 <= i < j < |offsets| :: offsets[i] < offsets[j])
    && (offsets != [] ==> forall o | OnTopic(log, topic, o) && after < o <= offsets[|offsets| - 1] :: o in offsets)
  }

  /** A poll returns the next messages of the topic without a gap. */
  lemma {:induction false} PollIsConsecutive(log: seq<Message>, topic: Topic, after: nat, limit: nat)
    ensures Consecutive(log, topic, after, Poll(log, topic, after, limit))
    ensures |Poll(log, topic, after, limit)| <= limit
    decreases |log| - after
  {
    hide Waiting;
    if limit == 0 || after >= |log| {
    } else if log[after].topic != topic {
      PollIsConsecutive(log, topic, after + 1, limit);
      ConsecutiveSkip(log, topic, after, Poll(log, topic, after + 1, limit));
    } else {
      PollIsConsecutive(log, topic, after + 1, limit - 1);
      ConsecutiveCons(log, topic, after, Poll(log, topic, after + 1, limit - 1));
    }
  }

  predicate InLog(log: seq<Message>, offsets: seq<nat>)
  {
    forall i | 0 <= i < |offsets| :: 1 <= offsets[i] <= |log|
  }

  /** All messages of the topic after `after`. */
  function Waiting(log: seq<Message>, topic: Topic, after: nat): (r: seq<nat>)
    ensures forall i | 0 <= i < |r| :: after < r[i] <= |log|
    decreases |log| - after
  {
    if after >= |log| then []
    else (if log[after].topic == topic then [after + 1] else []) + Waiting(log, topic, after + 1)
  }

  /** A poll returns as many of them as asked for, the first ones. */
  lemma {:induction false} PollIsFirst(log: seq<Message>, topic: Topic, after: nat, limit: nat)
    ensures Poll(log, topic, after, limit) == Take(Waiting(log, topic, after), limit)
    decreases |log| - after
  {
    if limit == 0 || after >= |log| {
    } else if log[after].topic == topic {
      PollIsFirst(log, topic, after + 1, limit - 1);
    } else {
      PollIsFirst(log, topic, after + 1, limit);
      assert [] + Waiting(log, topic, after + 1) == Waiting(log, topic, after + 1);
    }
  }

  /** Every message of the topic is waiting until it is passed. */
  lemma {:induction false} WaitingMeaning(log: seq<Message>, topic: Topic, after: nat, o: nat)
    ensures o in Waiting(log, topic, after) <==> OnTopic(log, topic, o) && after < o
    decreases |log| - after
  {
    if after < |log| {
      WaitingMeaning(log, topic, after + 1, o);
    }
  }

  /** They wait in log order. */
  lemma {:induction false} WaitingAscends(log: seq<Message>, topic: Topic, after: nat, i: nat, j: nat)
    requires i < j < |Waiting(log, topic, after)|
    ensures Waiting(log, topic, after)[i] < Waiting(log, topic, after)[j]
    decreases |log| - after
  {
    var r, rest := Waiting(log, topic, after), Waiting(log, topic, after + 1);
    if log[after].topic != topic {
      assert r == rest;
      WaitingAscends(log, topic, after + 1, i, j);
    } else {
      assert r == [after + 1] + rest;
      if i > 0 { WaitingAscends(log, topic, after + 1, i - 1, j - 1); }
    }
  }

  /** Past the first of them, the others are still waiting. */
  lemma {:induction false} WaitingRest(log: seq<Message>, topic: Topic, after: nat, n: nat)
    requires 0 < n <= |Waiting(log, topic, after)|
    ensures var r := Waiting(log, topic, after); r[n..] == Waiting(log, topic, r[n - 1])
    decreases |log| - after
  {
    var r, rest := Waiting(log, topic, after), Waiting(log, topic, after + 1);
    if log[after].topic != topic {
      assert r == rest;
      WaitingRest(log, topic, after + 1, n);
    } else if n > 1 {
      assert r == [after + 1] + rest;
      WaitingRest(log, topic, after + 1, n - 1);
      assert r[n..] == rest[n - 1..];
    } else {
      assert r == [after + 1] + rest && r[1..] == rest;
    }
  }

  /** Messages of another topic do not matter. */
  lemma {:induction false} WaitingExtends(log: seq<Message>, log': seq<Message>, topic: Topic, after: nat)
    requires log <= log' && forall i | |log| <= i < |log'| :: log'[i].topic != topic
    ensures Waiting(log', topic, after) == Waiting(log, topic, after)
    decreases |log'| - after
  {
    if after < |log'| {
      WaitingExtends(log, log', topic, after + 1);
    }
  }

  /** It comes back empty only at the head. */
  lemma {:induction false} PollEmptyAtHead(log: seq<Message>, topic: Topic, after: nat, limit: nat)
    requires limit > 0 && Poll(log, topic, after, limit) == []
    ensures forall o | OnTopic(log, topic, o) :: o <= after
    decreases |log| - after
  {
    if after < |log| {
      PollEmptyAtHead(log, topic, after + 1, limit);
    }
  }

  lemma ConsecutiveSkip(log: seq<Message>, topic: Topic, after: nat, rest: seq<nat>)
    requires Consecutive(log, topic, after + 1, rest) && !OnTopic(log, topic, after + 1)
    ensures Consecutive(log, topic, after, rest)
  {
  }

  lemma ConsecutiveCons(log: seq<Message>, topic: Topic, after: nat, rest: seq<nat>)
    requires Consecutive(log, topic, after + 1, rest) && OnTopic(log, topic, after + 1)
    ensures Consecutive(log, topic, after, [after + 1] + rest)
  {
    var offsets := [after + 1] + rest;
    forall o | OnTopic(log, topic, o) && after < o <= offsets[|offsets| - 1] ensures o in offsets {
      if o == after + 1 {
        assert offsets[0] == o;
      } else {
        assert o in rest;
      }
    }
  }

  lemma {:induction false} HeadIsLast(log: seq<Message>, topic: Topic)
    ensures Head(log, topic) == 0 || OnTopic(log, topic, Head(log, topic))
    ensures forall o | OnTopic(log, topic, o) :: o <= Head(log, topic)
  {
    if log != [] {
      var front := log[..|log| - 1];
      HeadIsLast(front, topic);
      assert forall o | OnTopic(log, topic, o) && o < |log| :: OnTopic(front, topic, o);
    }
  }

  /** The stream as the source holds it: two tables, changed by its methods. */
  class PostgresStream {
    var log: seq<Message>
    var offsets: map<(Group, Topic), nat>

    constructor ()
      ensures log == [] && offsets == map[]
    {
      log, offsets := [], map[];
    }

    function Offset(group: Group, topic: Topic): nat
      reads this
    {
      if (group, topic) in offsets then offsets[(group, topic)] else 0
    }

    method Publish(m: Message)
      modifies this`log
      ensures log == old(log) + [m]
    {
      log := log + [m];
    }

    /** The query scans the log from the group's offset, keeps one topic, stops at the limit. */
    method PollBatch(topic: Topic, group: Group, limit: nat) returns (batch: seq<nat>)
      ensures batch == Poll(log, topic, Offset(group, topic), limit)
    {
      batch := [];
      var at := Offset(group, topic);
      while at < |log| && |batch| < limit
        invariant Offset(group, topic) <= at && |batch| <= limit
        invariant at <= |log| || batch == []
        invariant Poll(log, topic, Offset(group, topic), limit) == batch + Poll(log, topic, at, limit - |batch|)
        decreases |log| - at
      {
        if log[at].topic == topic {
          batch := batch + [at + 1];
        }
        at := at + 1;
      }
    }

    /** `commit` keeps the greater offset: a late or repeated commit never rewinds the group. */
    method CommitOffset(topic: Topic, group: Group, offset: nat)
      modifies this`offsets
      ensures offsets == old(offsets)[(group, topic) := Max(old(Offset(group, topic)), offset)]
    {
      offsets := offsets[(group, topic) :=
        if (group, topic) in offsets && offsets[(group, topic)] > offset then offsets[(group, topic)] else offset];
    }

    /** `seek` overwrites: moving back is the point. */
    method Seek(topic: Topic, group: Group, offset: nat)
      modifies this`offsets
      ensures offsets == old(offsets)[(group, topic) := offset]
    {
      offsets := offsets[(group, topic) := offset];
    }
  }

  function Max(a: nat, b: nat): nat { if a > b then a else b }
}
