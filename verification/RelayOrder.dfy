/** With one relay, the topic carries the outbox in order: repeats are possible, gaps and swaps are
    not (src/ledgerflow/workers/outbox_relay.py:28-58, src/ledgerflow/adapters/repositories.py:556-582). */
module RelayOrder {
  import opened Seqs
  import opened Events
  import opened Stream
  import opened Delivery

  /** Event ids of one topic in log order. */
  function EventsOn(log: seq<Message>, topic: Topic): seq<string>
  {
    if log == [] then []
    else EventsOn(log[..|log| - 1], topic) + if log[|log| - 1].topic == topic then [log[|log| - 1].eventId] else []
  }

  function EventIds(outbox: seq<OutboxRow>): (r: seq<string>)
    ensures |r| == |outbox|
  {
    seq(|outbox|, i requires 0 <= i < |outbox| => outbox[i].eventId)
  }

  /** One relay process, and rows that become visible in id order. */
  ghost predicate InOrder(s: State, actions: seq<Action>)
  {
    actions == []
    || (var front, last := actions[..|actions| - 1], actions[|actions| - 1];
        && InOrder(s, front)
        && (last.RelayClaim? || last.RelayPublish? || last.RelayPublishFails? || last.RelayMark? || last.RelayCrash? ==>
              last.r == 0)
        && (last.Append? ==> forall row | row in Run(s, front).outbox :: row.id < last.row.id))
  }

  ghost predicate Ascending(outbox: seq<OutboxRow>)
  {
    forall i, j | 0 <= i < j < |outbox| :: outbox[i].id < outbox[j].id && outbox[i].eventId != outbox[j].eventId
  }

  /** The distinct events on the topic are the first ones of the outbox, at least `sent` of them. */
  ghost predicate Prefixed(log: seq<Message>, outbox: seq<OutboxRow>, sent: nat)
  {
    var d := Dedup(EventsOn(log, LedgerEvents));
    sent <= |d| && d <= EventIds(outbox)
  }

  /** The first `m` rows are marked; the relay holds the rows right after them. */
  ghost predicate OrderedAt(s: State, m: nat)
  {
    && m <= |s.outbox|
    && Ascending(s.outbox)
    && s.marked == IdsOf(s.outbox[..m])
    && s.relays.Keys <= {0}
    && (if 0 in s.relays then
          var y := s.relays[0];
          && m + |y.batch| <= |s.outbox| && y.batch == s.outbox[m..m + |y.batch|]
          && y.sent <= |y.batch|
          && Prefixed(s.log, s.outbox, m + y.sent)
        else Prefixed(s.log, s.outbox, m))
  }

  ghost predicate Ordered(s: State) { exists m: nat :: OrderedAt(s, m) }

  lemma EventsPush(log: seq<Message>, x: Message, topic: Topic)
    ensures EventsOn(log + [x], topic) ==
            if x.topic == topic then EventsOn(log, topic) + [x.eventId] else EventsOn(log, topic)
  {
    assert (log + [x])[..|log|] == log;
  }

  /** Publishing the row right behind the sent ones, first time or again, keeps the prefix. */
  lemma PublishKeepsPrefix(log: seq<Message>, outbox: seq<OutboxRow>, sent: nat)
    requires Ascending(outbox) && Prefixed(log, outbox, sent) && sent < |outbox|
    ensures Prefixed(log + [EventOf(outbox[sent])], outbox, sent + 1)
  {
    var events, row := EventsOn(log, LedgerEvents), outbox[sent];
    var d := Dedup(events);
    EventsPush(log, EventOf(row), LedgerEvents);
    DedupPush(events, row.eventId);
    assert EventIds(outbox)[sent] == row.eventId;
    if sent < |d| {
      assert d[sent] == row.eventId;
    } else {
      forall i | 0 <= i < |d| ensures d[i] != row.eventId {
        assert d[i] == EventIds(outbox)[i];
      }
    }
  }

  lemma IdsConcat(a: seq<OutboxRow>, b: seq<OutboxRow>)
    ensures IdsOf(a + b) == IdsOf(a) + IdsOf(b)
  {
  }

  /** No relay holds the row. */
  ghost predicate Free(s: State, row: OutboxRow)
  {
    forall r | r in s.relays :: row !in s.relays[r].batch
  }

  ghost predicate RelaysApart(s: State)
  {
    forall q, r, row | q in s.relays && r in s.relays && row in s.relays[q].batch && row in s.relays[r].batch :: q == r
  }

  lemma StepKeepsApart(s: State, a: Action)
    requires RelaysApart(s)
    ensures RelaysApart(Apply(s, a))
  {
    hide ClaimUnpublished, Free;
    if a.RelayClaim? {
      ClaimIsLowest(s, a.limit);
      assert forall row | row in ClaimUnpublished(s, a.limit) :: Free(s, row);
      ClaimApart(s, a.r, ClaimUnpublished(s, a.limit));
    } else if a.RelayPublish? || a.RelayPublishFails? || a.RelayMark? || a.RelayCrash? || a.Append? {
    } else {
      WorkerStepFrame(s, a);
    }
  }

  lemma ClaimApart(s: State, r: nat, batch: seq<OutboxRow>)
    requires RelaysApart(s) && forall row | row in batch :: Free(s, row)
    ensures r !in s.relays ==> RelaysApart(s.(relays := s.relays[r := Relay(batch, 0, false)]))
  {
  }

  /** No two relays ever hold the same row, in any run. */
  lemma {:induction false} OneRelayPerRow(actions: seq<Action>)
    ensures RelaysApart(Run(INITIAL, actions))
  {
    if actions != [] {
      OneRelayPerRow(actions[..|actions| - 1]);
      StepKeepsApart(Run(INITIAL, actions[..|actions| - 1]), actions[|actions| - 1]);
    }
  }

  /** In any state, with any relays at work: the claim is the lowest unpublished rows that nobody holds,
      in id order, as many as asked for. */
  lemma ClaimIsLowest(s: State, limit: nat)
    ensures var rows := ClaimUnpublished(s, limit);
            && SortedBy(rows, RowId()) && |rows| <= limit
            && (forall row | row in rows :: row in s.outbox && row.id !in s.marked && Free(s, row))
            && (forall row | row in s.outbox && row.id !in s.marked && Free(s, row) && row !in rows ::
                  |rows| == limit)
            && (forall row, taken | row in s.outbox && row.id !in s.marked && Free(s, row) && row !in rows
                                    && taken in rows :: taken.id <= row.id)
  {
    assert forall row :: Free(s, row) <==> !Locked(s, row);
    hide Filter, SortBy, SortedBy, Take, Locked, Free;
    var open, rows := Filter(s.outbox, Claimable(s)), ClaimUnpublished(s, limit);
    FirstOfSorted(open, RowId(), limit);
    forall row, taken | row in s.outbox && row.id !in s.marked && Free(s, row) && row !in rows && taken in rows
      ensures taken.id <= row.id
    {
      assert row in open;
      assert RowId()(taken) <= RowId()(row);
    }
    forall row | row in s.outbox && row.id !in s.marked && Free(s, row) && row !in rows ensures |rows| == limit {
      assert row in open;
    }
  }

  lemma MarkedAreFirst(outbox: seq<OutboxRow>, m: nat)
    requires m <= |outbox| && Ascending(outbox)
    ensures forall row | row in outbox[..m] :: row.id in IdsOf(outbox[..m])
    ensures forall row | row in outbox[m..] :: row.id !in IdsOf(outbox[..m])
    ensures SortedBy(outbox[m..], RowId())
  {
    forall row | row in outbox[m..] ensures row.id !in IdsOf(outbox[..m]) {
      var j :| m <= j < |outbox| && outbox[j] == row;
    }
  }

  /** With nothing locked, the claim takes the rows right after the marked ones. */
  lemma ClaimTakesNext(s: State, m: nat, limit: nat)
    requires m <= |s.outbox| && Ascending(s.outbox) && s.marked == IdsOf(s.outbox[..m]) && s.relays == map[]
    ensures ClaimUnpublished(s, limit) == Take(s.outbox[m..], limit)
  {
    var early, late := s.outbox[..m], s.outbox[m..];
    assert Filter(s.outbox, Claimable(s)) == late by {
      MarkedAreFirst(s.outbox, m);
      assert s.outbox == early + late;
      FilterConcat(early, late, Claimable(s));
      FilterNone(early, Claimable(s));
      FilterAll(late, Claimable(s));
    }
    MarkedAreFirst(s.outbox, m);
    SortOfSorted(late, RowId());
  }

  lemma ClaimOrdered(s: State, m: nat, limit: nat)
    requires OrderedAt(s, m)
    ensures OrderedAt(Apply(s, RelayClaim(0, limit)), m)
  {
    hide Prefixed, ClaimUnpublished, Claimable;
    if 0 !in s.relays {
      assert s.relays == map[];
      ClaimTakesNext(s, m, limit);
      HoldingOrdered(s, m, Apply(s, RelayClaim(0, limit)), Take(s.outbox[m..], limit));
    }
  }

  lemma HoldingOrdered(s: State, m: nat, s': State, batch: seq<OutboxRow>)
    requires OrderedAt(s, m) && s.relays == map[] && m + |batch| <= |s.outbox| && batch == s.outbox[m..m + |batch|]
    requires s' == s || s' == s.(relays := map[0 := Relay(batch, 0, false)])
    ensures OrderedAt(s', m)
  {
  }

  lemma SendOrdered(s: State, m: nat, s': State)
    requires OrderedAt(s, m) && Sending(s, 0)
    requires var y := s.relays[0];
             && s'.outbox == s.outbox && s'.marked == s.marked
             && ((s'.log == s.log + [EventOf(y.batch[y.sent])]
                  && (s'.relays == s.relays[0 := y.(sent := y.sent + 1)]
                      || s'.relays == s.relays[0 := y.(stopped := true)]))
                 || (s'.log == s.log && s'.relays == s.relays[0 := y.(stopped := true)]))
    ensures OrderedAt(s', m)
  {
    var y := s.relays[0];
    assert y.batch[y.sent] == s.outbox[m + y.sent];
    PublishKeepsPrefix(s.log, s.outbox, m + y.sent);
  }

  lemma RelayStepOrdered(s: State, m: nat, a: Action)
    requires OrderedAt(s, m) && (a.RelayPublish? || a.RelayPublishFails?) && a.r == 0
    ensures OrderedAt(Apply(s, a), m)
  {
    if Sending(s, 0) {
      SendOrdered(s, m, Apply(s, a));
    }
  }

  lemma CrashOrdered(s: State, m: nat)
    requires OrderedAt(s, m)
    ensures OrderedAt(Apply(s, RelayCrash(0)), m)
  {
  }

  lemma MarkOrdered(s: State, m: nat)
    requires OrderedAt(s, m)
    ensures Ordered(Apply(s, RelayMark(0)))
  {
    var s' := Apply(s, RelayMark(0));
    if s' != s {
      var y := s.relays[0];
      assert s.outbox[..m + y.sent] == s.outbox[..m] + Take(y.batch, y.sent);
      IdsConcat(s.outbox[..m], Take(y.batch, y.sent));
      assert OrderedAt(s', m + y.sent);
    } else {
      assert OrderedAt(s', m);
    }
  }

  lemma AppendOrdered(s: State, m: nat, row: OutboxRow)
    requires OrderedAt(s, m) && forall x | x in s.outbox :: x.id < row.id
    ensures OrderedAt(Apply(s, Append(row)), m)
  {
    var s' := Apply(s, Append(row));
    if s' != s {
      assert s'.outbox[..m] == s.outbox[..m];
      assert EventIds(s.outbox) <= EventIds(s'.outbox);
    }
  }

  lemma WorkerStepOrdered(s: State, m: nat, a: Action)
    requires OrderedAt(s, m)
    requires !a.RelayClaim? && !a.RelayPublish? && !a.RelayPublishFails? && !a.RelayMark?
             && !a.RelayCrash? && !a.Append?
    ensures OrderedAt(Apply(s, a), m)
  {
    var s' := Apply(s, a);
    WorkerStepFrame(s, a);
    if s'.log != s.log {
      EventsPush(s.log, s'.log[|s.log|], LedgerEvents);
    }
  }

  /** Workers write nothing to the ledger topic. */
  lemma WorkerStepFrame(s: State, a: Action)
    requires !a.RelayClaim? && !a.RelayPublish? && !a.RelayPublishFails? && !a.RelayMark?
             && !a.RelayCrash? && !a.Append?
    ensures var s' := Apply(s, a);
            && s'.outbox == s.outbox && s'.marked == s.marked && s'.relays == s.relays
            && (s'.log == s.log
                || (|s'.log| == |s.log| + 1 && s'.log == s.log + [s'.log[|s.log|]]
                    && s'.log[|s.log|].topic == Normalized))
  {
  }

  lemma {:induction false} RunOrdered(actions: seq<Action>)
    requires InOrder(INITIAL, actions)
    ensures Ordered(Run(INITIAL, actions))
  {
    if actions == [] {
      assert OrderedAt(INITIAL, 0);
    } else {
      var front, a := actions[..|actions| - 1], actions[|actions| - 1];
      RunOrdered(front);
      var s := Run(INITIAL, front);
      var m: nat :| OrderedAt(s, m);
      if a.RelayMark? {
        MarkOrdered(s, m);
      } else if a.Append? {
        AppendOrdered(s, m, a.row);
      } else if a.RelayClaim? {
        ClaimOrdered(s, m, a.limit);
      } else if a.RelayCrash? {
        CrashOrdered(s, m);
      } else if a.RelayPublish? || a.RelayPublishFails? {
        RelayStepOrdered(s, m, a);
      } else {
        WorkerStepOrdered(s, m, a);
      }
    }
  }

  /** At every point of every such run, through publish failures, lost acknowledgements and crashes
      between publish and mark: the ledger topic with repeats removed is a prefix of the outbox, and
      the marked rows are a prefix too, covered by what is on the topic. */
  lemma TopicFollowsOutbox(actions: seq<Action>)
    requires InOrder(INITIAL, actions)
    ensures var s := Run(INITIAL, actions);
            var d := Dedup(EventsOn(s.log, LedgerEvents));
            && d <= EventIds(s.outbox)
            && exists m: nat :: m <= |d| && m <= |s.outbox| && s.marked == IdsOf(s.outbox[..m])
  {
    RunOrdered(actions);
    var m: nat :| OrderedAt(Run(INITIAL, actions), m);
  }
}
