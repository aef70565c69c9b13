/** Nothing lost, nothing done twice: the invariants of the delivery machine, over every run. */
module DeliverySafety {
  import opened Seqs
  import opened Events
  import opened Stream
  import opened Delivery

  // ---- outbox, relays, log ----

  ghost predicate Published(log: seq<Message>, topic: Topic, eventId: string)
  {
    exists o :: OnTopic(log, topic, o) && log[o - 1].eventId == eventId
  }

  ghost predicate OutboxOk(outbox: seq<OutboxRow>)
  {
    forall i, j | 0 <= i < j < |outbox| ::
      outbox[i].id != outbox[j].id && outbox[i].eventId != outbox[j].eventId && outbox[i].txnId != outbox[j].txnId
  }

  /** Every message stems from a committed outbox row; a normalized one from a described posting. */
  ghost predicate Sourced(outbox: seq<OutboxRow>, m: Message)
  {
    exists row :: row in outbox && row.txnId == m.txnId
                  && match m.topic
                     case LedgerEvents => m.eventId == row.eventId
                     case Normalized => row.described && m.eventId == NormId(row.eventId)
  }

  ghost predicate RelayOk(s: State, y: Relay)
  {
    && y.sent <= |y.batch|
    && (forall row | row in y.batch :: row in s.outbox)
    && (forall row | row in y.batch[..y.sent] :: Published(s.log, LedgerEvents, row.eventId))
  }

  ghost predicate FeedInv(s: State)
  {
    && OutboxOk(s.outbox)
    && (forall m | m in s.log :: Sourced(s.outbox, m))
    && (forall r | r in s.relays :: RelayOk(s, s.relays[r]))
    && (forall row | row in s.outbox && row.id in s.marked :: Published(s.log, LedgerEvents, row.eventId))
    && (forall id | id in s.marked :: exists row :: row in s.outbox && row.id == id)
  }

  // ---- workers ----

  /** Dead letters an event already had when it was last replayed. */
  function Stale(p: Past, key: (Group, string)): nat { if key in p.stale then p.stale[key] else 0 }

  /** Claimed, or dead-lettered since its last replay, if any. */
  ghost predicate Handled(s: State, g: Group, eventId: string)
  {
    (g, eventId) in s.claims || s.dead[(g, eventId)] > Stale(s.past, (g, eventId))
  }

  /** The event is on the group's topic above `offset`. */
  ghost predicate Above(log: seq<Message>, g: Group, offset: nat, eventId: string)
  {
    exists o :: OnTopic(log, g.Topic(), o) && offset < o && log[o - 1].eventId == eventId
  }

  /** A replayed event with another copy above `offset`, or one whose replay has not moved the offset. */
  ghost predicate ComesAgain(s: State, g: Group, eventId: string, offset: nat)
  {
    (g, eventId) in s.past.open || ((g, eventId) in s.past.stale && Above(s.log, g, offset, eventId))
  }

  /** Every message of the group's topic at or below the offset is handled or dead-lettered, or was
      released by a replay and comes again. */
  ghost predicate HandledTo(s: State, g: Group, offset: nat)
  {
    && offset <= |s.log|
    && forall o | OnTopic(s.log, g.Topic(), o) && o <= offset ::
         Handled(s, g, s.log[o - 1].eventId) || ComesAgain(s, g, s.log[o - 1].eventId, offset)
  }

  function Done(k: Worker): nat
    requires k.pos <= |k.batch|
  {
    if k.pos == 0 then k.after else k.batch[k.pos - 1]
  }

  ghost predicate WorkerOk(s: State, w: nat)
    requires w in s.workers
  {
    var k := s.workers[w];
    && k.pos < |k.batch| && k.attempt <= MAX_ATTEMPTS
    && Consecutive(s.log, k.group.Topic(), k.after, k.batch)
    && HandledTo(s, k.group, Done(k))
    && AtMessage(s, w)
    && (k.phase.Settled? ==>
          Handled(s, k.group, Current(s, w).eventId) || ComesAgain(s, k.group, Current(s, w).eventId, k.batch[k.pos]))
    && (k.phase.Ready? ==> k.attempt < MAX_ATTEMPTS)
    && (k.phase.Working? ==> Key(s, w) !in s.claims)
    && (k.phase == Working(true) && MustPublish(s, w) ==> Published(s.log, Normalized, NormId(Current(s, w).eventId)))
  }

  /** Dead letters are never removed. */
  ghost predicate PastOk(s: State)
  {
    (forall x | x in s.past.stale :: s.past.stale[x] <= s.dead[x]) && s.past.open <= s.past.stale.Keys
  }

  /** Offsets, claims and effects: offsets never pass an unhandled message, a claim stands for one
      effect of a published event, and a normalized claim for a published successor. */
  ghost predicate TablesOk(s: State)
  {
    && (forall g: Group :: HandledTo(s, g, OffsetOf(s, g)))
    && (forall x | x in s.claims :: Published(s.log, x.0.Topic(), x.1))
    && (forall x :: s.effects[x] == s.past.released[x] + if x in s.claims then 1 else 0)
    && PastOk(s)
    && (forall row | row in s.outbox && row.described && (Normalizer, row.eventId) in s.claims ::
          Published(s.log, Normalized, NormId(row.eventId)))
  }

  ghost predicate WorkersOk(s: State)
  {
    forall w | w in s.workers :: WorkerOk(s, w)
  }

  /** No two open work transactions hold the same claim. */
  ghost predicate Exclusive(s: State)
  {
    forall v, w | v in s.workers && w in s.workers && v != w && AtMessage(s, v) && AtMessage(s, w)
                  && s.workers[v].phase.Working? && s.workers[w].phase.Working? ::
      Key(s, v) != Key(s, w)
  }

  ghost predicate DeliveryInv(s: State) { FeedInv(s) && TablesOk(s) && WorkersOk(s) && Exclusive(s) }

  // ---- the log only grows ----

  lemma PublishedGrows(log: seq<Message>, m: Message)
    ensures forall topic, e | Published(log, topic, e) :: Published(log + [m], topic, e)
    ensures Published(log + [m], m.topic, m.eventId)
  {
    assert OnTopic(log + [m], m.topic, |log| + 1);
    forall topic, e | Published(log, topic, e) ensures Published(log + [m], topic, e) {
      var o :| OnTopic(log, topic, o) && log[o - 1].eventId == e;
      assert OnTopic(log + [m], topic, o);
    }
  }

  lemma SourcedGrows(outbox: seq<OutboxRow>, row: OutboxRow, m: Message)
    requires Sourced(outbox, m)
    ensures Sourced(outbox + [row], m)
  {
    var x :| x in outbox && x.txnId == m.txnId
             && match m.topic
                case LedgerEvents => m.eventId == x.eventId
                case Normalized => x.described && m.eventId == NormId(x.eventId);
    assert x in outbox + [row];
  }

  // ---- feed invariant ----

  lemma LogPushKeepsFeed(s: State, m: Message, relays: map<nat, Relay>)
    requires FeedInv(s) && Sourced(s.outbox, m)
    requires forall r | r in relays :: RelayOk(s.(log := s.log + [m]), relays[r])
    ensures FeedInv(s.(log := s.log + [m], relays := relays))
  {
    PublishedGrows(s.log, m);
  }

  lemma PublishKeepsFeed(s: State, r: nat, relays: map<nat, Relay>)
    requires FeedInv(s) && Sending(s, r)
    requires var y := s.relays[r];
             relays == s.relays[r := y.(sent := y.sent + 1)] || relays == s.relays[r := y.(stopped := true)]
    ensures FeedInv(s.(log := s.log + [EventOf(s.relays[r].batch[s.relays[r].sent])], relays := relays))
  {
    var y := s.relays[r];
    var row := y.batch[y.sent];
    assert RelayOk(s, y) && row in s.outbox;
    PublishedGrows(s.log, EventOf(row));
    forall q | q in relays ensures RelayOk(s.(log := s.log + [EventOf(row)]), relays[q]) {
      assert RelayOk(s, s.relays[q]);
      assert y.batch[..y.sent + 1] == y.batch[..y.sent] + [row];
    }
    LogPushKeepsFeed(s, EventOf(row), relays);
  }

  /** Ids, event ids and transaction ids each identify an outbox row. */
  lemma SameRow(outbox: seq<OutboxRow>, x: OutboxRow, y: OutboxRow)
    requires OutboxOk(outbox) && x in outbox && y in outbox
    requires x.id == y.id || x.eventId == y.eventId || x.txnId == y.txnId
    ensures x == y
  {
  }

  lemma MarkKeepsFeed(s: State, r: nat)
    requires FeedInv(s)
    ensures FeedInv(Apply(s, RelayMark(r)))
  {
    if r in s.relays && !Sending(s, r) {
      var y := s.relays[r];
      assert RelayOk(s, y) && Take(y.batch, y.sent) == y.batch[..y.sent];
      forall row | row in s.outbox && row.id in IdsOf(y.batch[..y.sent])
        ensures Published(s.log, LedgerEvents, row.eventId)
      {
        var x :| x in y.batch[..y.sent] && x.id == row.id;
        SameRow(s.outbox, x, row);
      }
    }
  }

  /** Steps that touch neither the outbox, the marks, the relays nor the log. */
  ghost predicate SameFeed(s: State, s': State)
  {
    s'.outbox == s.outbox && s'.marked == s.marked && s'.relays == s.relays && s'.log == s.log
  }

  lemma SameFeedKeeps(s: State, s': State)
    requires FeedInv(s) && SameFeed(s, s')
    ensures FeedInv(s')
  {
    assert forall r | r in s.relays :: RelayOk(s, s.relays[r]) && RelayOk(s', s.relays[r]);
  }

  lemma WorkerStepSameFeed(s: State, a: Action)
    requires a.PollBatch? || a.Claim? || a.AttemptFails? || a.WorkCommit? ||
              a.DeadLetter? || a.CommitOffset? || a.WorkerCrash?
    ensures SameFeed(s, Apply(s, a))
  {
    if !a.PollBatch? && !a.WorkerCrash? && AtMessage(s, a.w) {
      MessageStepSameFeed(s, a.w);
    }
  }

  lemma MessageStepSameFeed(s: State, w: nat)
    requires AtMessage(s, w)
    ensures SameFeed(s, DoClaim(s, w)) && SameFeed(s, DoDeadLetter(s, w)) && SameFeed(s, DoCommitOffset(s, w))
    ensures forall poison :: SameFeed(s, DoFail(s, w, poison))
    ensures forall acknowledged :: SameFeed(s, DoWorkCommit(s, w, acknowledged))
  {
  }

  lemma RelayStepKeepsFeed(s: State, a: Action)
    requires FeedInv(s) && (a.RelayClaim? || a.RelayPublish? || a.RelayPublishFails? || a.RelayCrash?)
    ensures FeedInv(Apply(s, a))
  {
    if a.RelayPublish? || (a.RelayPublishFails? && a.landed) {
      if Sending(s, a.r) {
        PublishKeepsFeed(s, a.r, Apply(s, a).relays);
      }
    } else {
      var s' := Apply(s, a);
      forall r | r in s'.relays ensures RelayOk(s', s'.relays[r]) {
        if r in s.relays {
          assert RelayOk(s, s.relays[r]);
        }
      }
    }
  }

  lemma StepKeepsFeed(s: State, a: Action)
    requires DeliveryInv(s)
    ensures FeedInv(Apply(s, a))
  {
    if a.Append? {
      AppendKeepsFeed(s, a.row);
    } else if a.RelayMark? {
      MarkKeepsFeed(s, a.r);
    } else if a.RelayClaim? || a.RelayPublish? || a.RelayPublishFails? || a.RelayCrash? {
      RelayStepKeepsFeed(s, a);
    } else if a.PublishNormalized? {
      if AtMessage(s, a.w) {
        assert WorkerOk(s, a.w);
        PublishNormalizedKeepsFeed(s, a.w);
      }
    } else {
      WorkerStepSameFeed(s, a);
      SameFeedKeeps(s, Apply(s, a));
    }
  }

  lemma AppendKeepsFeed(s: State, row: OutboxRow)
    requires FeedInv(s)
    ensures FeedInv(Apply(s, Append(row)))
  {
    forall m | m in s.log ensures Sourced(s.outbox + [row], m) {
      SourcedGrows(s.outbox, row, m);
    }
  }

  lemma PublishNormalizedKeepsFeed(s: State, w: nat)
    requires FeedInv(s) && AtMessage(s, w) && WorkerOk(s, w)
    ensures FeedInv(DoPublishNormalized(s, w))
  {
    if DoPublishNormalized(s, w) != s {
      var m := Message(Normalized, NormId(Current(s, w).eventId), Current(s, w).txnId);
      NormSourced(s, w);
      PublishedGrows(s.log, m);
      forall r | r in s.relays ensures RelayOk(s.(log := s.log + [m]), s.relays[r]) {
        assert RelayOk(s, s.relays[r]);
      }
      LogPushKeepsFeed(s, m, s.relays);
    }
  }

  /** The normalizer only reads ledger events, so what it publishes stems from a described posting. */
  lemma NormSourced(s: State, w: nat)
    requires OutboxOk(s.outbox) && forall m | m in s.log :: Sourced(s.outbox, m)
    requires AtMessage(s, w) && WorkerOk(s, w) && MustPublish(s, w)
    ensures Sourced(s.outbox, Message(Normalized, NormId(Current(s, w).eventId), Current(s, w).txnId))
  {
    var m := Current(s, w);
    assert OnTopic(s.log, LedgerEvents, s.workers[w].batch[s.workers[w].pos]);
    assert m in s.log && m.topic == LedgerEvents && Sourced(s.outbox, m);
    var row :| row in s.outbox && row.txnId == m.txnId && m.eventId == row.eventId;
    var x :| x in s.outbox && x.txnId == m.txnId && x.described;
    SameRow(s.outbox, row, x);
  }

  // ---- work invariant ----

  ghost predicate Grows(s: State, s': State)
  {
    && s.log <= s'.log && s.claims <= s'.claims && s.dead <= s'.dead && s'.past == s.past
    && (forall topic, e | Published(s.log, topic, e) :: Published(s'.log, topic, e))
  }

  lemma AboveGrows(log: seq<Message>, log': seq<Message>, g: Group, offset: nat, eventId: string)
    requires log <= log'
    ensures Above(log, g, offset, eventId) ==> Above(log', g, offset, eventId)
  {
    if Above(log, g, offset, eventId) {
      var o :| OnTopic(log, g.Topic(), o) && offset < o && log[o - 1].eventId == eventId;
      assert OnTopic(log', g.Topic(), o);
    }
  }

  lemma HandledToGrows(s: State, s': State, g: Group, offset: nat)
    requires Grows(s, s') && HandledTo(s, g, offset)
    ensures HandledTo(s', g, offset)
  {
    forall o | OnTopic(s'.log, g.Topic(), o) && o <= offset
      ensures Handled(s', g, s'.log[o - 1].eventId) || ComesAgain(s', g, s'.log[o - 1].eventId, offset)
    {
      assert OnTopic(s.log, g.Topic(), o) && s'.log[o - 1] == s.log[o - 1];
      AboveGrows(s.log, s'.log, g, offset, s.log[o - 1].eventId);
    }
  }

  lemma ConsecutiveGrows(log: seq<Message>, log': seq<Message>, topic: Topic, after: nat, batch: seq<nat>)
    requires log <= log' && Consecutive(log, topic, after, batch)
    ensures Consecutive(log', topic, after, batch)
  {
    assert forall o | 1 <= o <= |log| :: OnTopic(log', topic, o) <==> OnTopic(log, topic, o);
    assert batch != [] ==> OnTopic(log, topic, batch[|batch| - 1]);
  }

  /** A worker that did not move stays in order while the rest of the system grows. */
  lemma WorkerGrows(s: State, s': State, w: nat)
    requires w in s.workers && WorkerOk(s, w) && Grows(s, s')
    requires w in s'.workers && s'.workers[w] == s.workers[w]
    requires s.workers[w].phase.Working? ==> Key(s, w) !in s'.claims
    requires Described(s'.outbox, Current(s, w).txnId) ==> Described(s.outbox, Current(s, w).txnId)
    ensures WorkerOk(s', w) && Key(s', w) == Key(s, w) && Current(s', w) == Current(s, w)
  {
    var k := s.workers[w];
    HandledToGrows(s, s', k.group, Done(k));
    AboveGrows(s.log, s'.log, k.group, k.batch[k.pos], Current(s, w).eventId);
    ConsecutiveGrows(s.log, s'.log, k.group.Topic(), k.after, k.batch);
  }

  lemma LogGrowsTables(s: State, s': State)
    requires TablesOk(s) && Grows(s, s')
    requires s'.outbox == s.outbox && s'.offsets == s.offsets && s'.claims == s.claims && s'.effects == s.effects
    ensures TablesOk(s')
  {
    forall g: Group ensures HandledTo(s', g, OffsetOf(s', g)) {
      HandledToGrows(s, s', g, OffsetOf(s, g));
    }
  }

  // ---- the tables ----

  lemma ClaimedIsKnown(s: State, eventId: string)
    requires (forall m | m in s.log :: Sourced(s.outbox, m)) && Published(s.log, LedgerEvents, eventId)
    ensures exists x :: x in s.outbox && x.eventId == eventId
  {
    var o :| OnTopic(s.log, LedgerEvents, o) && s.log[o - 1].eventId == eventId;
    assert s.log[o - 1] in s.log && Sourced(s.outbox, s.log[o - 1]);
  }

  lemma AppendKeepsTables(s: State, row: OutboxRow)
    requires TablesOk(s) && FeedInv(s)
    ensures TablesOk(Apply(s, Append(row)))
  {
    var s' := Apply(s, Append(row));
    if s' != s {
      GrowsRefl(s, s');
      forall g: Group ensures HandledTo(s', g, OffsetOf(s', g)) {
        HandledToGrows(s, s', g, OffsetOf(s, g));
      }
      if (Normalizer, row.eventId) in s.claims {
        ClaimedIsKnown(s, row.eventId);
      }
    }
  }

  /** The committed message's row, if described, is the one the normalizer had to publish for. */
  lemma CommittedIsPublished(s: State, w: nat, row: OutboxRow)
    requires OutboxOk(s.outbox) && forall m | m in s.log :: Sourced(s.outbox, m)
    requires AtMessage(s, w) && WorkerOk(s, w) && s.workers[w].phase.Working?
    requires MustPublish(s, w) ==> s.workers[w].phase.published
    requires row in s.outbox && row.described && (Normalizer, row.eventId) == Key(s, w)
    ensures Published(s.log, Normalized, NormId(row.eventId))
  {
    var m := Current(s, w);
    assert OnTopic(s.log, LedgerEvents, s.workers[w].batch[s.workers[w].pos]);
    assert m in s.log && Sourced(s.outbox, m);
    var x :| x in s.outbox && x.txnId == m.txnId && m.eventId == x.eventId;
    SameRow(s.outbox, x, row);
  }

  /** The transaction that commits held the only open claim, so its effect is the first. */
  lemma WorkCommitKeepsTables(s: State, w: nat, acknowledged: bool)
    requires TablesOk(s) && AtMessage(s, w) && WorkerOk(s, w)
    requires OutboxOk(s.outbox) && forall m | m in s.log :: Sourced(s.outbox, m)
    ensures TablesOk(DoWorkCommit(s, w, acknowledged))
  {
    var s' := DoWorkCommit(s, w, acknowledged);
    if s' != s {
      var k := s.workers[w];
      GrowsRefl(s, s');
      forall g: Group ensures HandledTo(s', g, OffsetOf(s', g)) {
        HandledToGrows(s, s', g, OffsetOf(s, g));
      }
      assert OnTopic(s.log, k.group.Topic(), k.batch[k.pos]);
      forall row | row in s.outbox && row.described && (Normalizer, row.eventId) in s'.claims
        ensures Published(s'.log, Normalized, NormId(row.eventId))
      {
        if (Normalizer, row.eventId) == Key(s, w) {
          CommittedIsPublished(s, w, row);
        }
      }
    }
  }

  /** The next message of the batch is the next of the topic, so acknowledging it leaves no gap. */
  lemma HandledToNext(s: State, w: nat)
    requires w in s.workers && WorkerOk(s, w) && s.workers[w].phase.Settled?
    ensures HandledTo(s, s.workers[w].group, s.workers[w].batch[s.workers[w].pos])
  {
    var k := s.workers[w];
    var here := k.batch[k.pos];
    forall o | OnTopic(s.log, k.group.Topic(), o) && o <= here
      ensures Handled(s, k.group, s.log[o - 1].eventId) || ComesAgain(s, k.group, s.log[o - 1].eventId, here)
    {
      var e := s.log[o - 1].eventId;
      if o > Done(k) {
        NothingBetween(s.log, k, o);
      } else if !Handled(s, k.group, e) && (k.group, e) !in s.past.open {
        assert ComesAgain(s, k.group, e, Done(k)) && Above(s.log, k.group, Done(k), e);
        var again :| OnTopic(s.log, k.group.Topic(), again) && Done(k) < again && s.log[again - 1].eventId == e;
        if again <= here {
          NothingBetween(s.log, k, again);
        }
      }
    }
  }

  lemma NothingBetween(log: seq<Message>, k: Worker, o: int)
    requires k.pos < |k.batch| && Consecutive(log, k.group.Topic(), k.after, k.batch)
    requires OnTopic(log, k.group.Topic(), o) && o <= k.batch[k.pos]
    ensures o <= Done(k) || o == k.batch[k.pos]
  {
    if o > k.after {
      var j :| 0 <= j < |k.batch| && k.batch[j] == o;
    }
  }

  lemma CommitOffsetKeepsTables(s: State, w: nat)
    requires TablesOk(s) && AtMessage(s, w) && WorkerOk(s, w)
    ensures TablesOk(DoCommitOffset(s, w))
  {
    var s' := DoCommitOffset(s, w);
    if s' != s {
      var k := s.workers[w];
      GrowsRefl(s, s');
      HandledToNext(s, w);
      HandledToGrows(s, s', k.group, k.batch[k.pos]);
      forall g: Group ensures HandledTo(s', g, OffsetOf(s', g)) {
        HandledToGrows(s, s', g, OffsetOf(s, g));
      }
    }
  }

  lemma GrowsRefl(s: State, s': State)
    requires s'.log == s.log && s.claims <= s'.claims && s.dead <= s'.dead && s'.past == s.past
    ensures Grows(s, s')
  {
  }

  /** Every step lets the log, the claims and the dead letters grow. */
  lemma StepGrows(s: State, a: Action)
    ensures Grows(s, Apply(s, a))
  {
    var s' := Apply(s, a);
    if s'.log != s.log {
      PublishedGrows(s.log, s'.log[|s.log|]);
    }
  }

  lemma StepKeepsTables(s: State, a: Action)
    requires DeliveryInv(s)
    ensures TablesOk(Apply(s, a))
  {
    if a.Append? {
      AppendKeepsTables(s, a.row);
    } else if a.WorkCommit? && AtMessage(s, a.w) {
      assert WorkerOk(s, a.w);
      WorkCommitKeepsTables(s, a.w, a.acknowledged);
    } else if a.CommitOffset? && AtMessage(s, a.w) {
      assert WorkerOk(s, a.w);
      CommitOffsetKeepsTables(s, a.w);
    } else {
      QuietStepKeepsTables(s, a);
    }
  }

  lemma QuietStepKeepsTables(s: State, a: Action)
    requires TablesOk(s)
    requires !a.Append? && !((a.WorkCommit? || a.CommitOffset?) && AtMessage(s, a.w))
    ensures TablesOk(Apply(s, a))
  {
    hide TablesOk, Published, Apply;
    StepGrows(s, a);
    QuietStepFrame(s, a);
    LogGrowsTables(s, Apply(s, a));
  }

  lemma QuietStepFrame(s: State, a: Action)
    requires !a.Append? && !((a.WorkCommit? || a.CommitOffset?) && AtMessage(s, a.w))
    ensures var s' := Apply(s, a);
            s'.outbox == s.outbox && s'.offsets == s.offsets && s'.claims == s.claims && s'.effects == s.effects
  {
    hide ClaimUnpublished, Poll, ClaimBlocked, Described;
  }

  // ---- the workers ----

  /** Workers that do not move stay in order; nobody's claim is committed under them. */
  lemma OthersStay(s: State, s': State, w: nat)
    requires WorkersOk(s) && Grows(s, s')
    requires s'.workers.Keys <= s.workers.Keys + {w}
    requires forall v | v in s'.workers && v != w :: s'.workers[v] == s.workers[v]
    requires forall v | v in s'.workers && v != w && AtMessage(s, v) && s.workers[v].phase.Working? ::
                Key(s, v) !in s'.claims
    requires s'.outbox == s.outbox
    requires w in s'.workers ==> WorkerOk(s', w)
    ensures WorkersOk(s')
  {
    forall v | v in s'.workers ensures WorkerOk(s', v) {
      if v != w {
        assert WorkerOk(s, v);
        WorkerGrows(s, s', v);
      }
    }
  }

  /** Messages never change, so keys of workers that do not move stay apart. */
  lemma StaysExclusive(s: State, s': State, w: nat)
    requires Exclusive(s) && s.log <= s'.log
    requires forall v | v in s.workers :: AtMessage(s, v)
    requires s'.workers.Keys <= s.workers.Keys + {w}
    requires forall v | v in s'.workers && v != w :: s'.workers[v] == s.workers[v]
    requires w in s'.workers && AtMessage(s', w) && s'.workers[w].phase.Working? ==>
               forall v | v in s.workers && v != w && s.workers[v].phase.Working? :: Key(s, v) != Key(s', w)
    ensures Exclusive(s')
  {
    assert forall v | v in s'.workers && v != w :: AtMessage(s, v) && AtMessage(s', v) && Key(s', v) == Key(s, v);
  }

  lemma SameWorkersExclusive(s: State, s': State)
    requires Exclusive(s) && s.log <= s'.log && s'.workers == s.workers
    requires forall v | v in s.workers :: AtMessage(s, v)
    ensures Exclusive(s')
  {
    assert forall v | v in s.workers :: AtMessage(s', v) && Key(s', v) == Key(s, v);
  }

  lemma AllAtMessage(s: State)
    requires WorkersOk(s)
    ensures forall v | v in s.workers :: AtMessage(s, v) && s.workers[v].attempt <= MAX_ATTEMPTS
  {
    assert forall v | v in s.workers :: WorkerOk(s, v);
  }

  lemma MessageStepKeepsExclusive(s: State, a: Action)
    requires a.Claim? || a.PublishNormalized? || a.AttemptFails? || a.WorkCommit? || a.DeadLetter?
    requires Exclusive(s) && AtMessage(s, a.w)
    requires forall v | v in s.workers :: AtMessage(s, v) && s.workers[v].attempt <= MAX_ATTEMPTS
    ensures Exclusive(Apply(s, a))
  {
    MessageStepHandles(s, a);
    StaysExclusive(s, Apply(s, a), a.w);
  }

  lemma StepKeepsExclusive(s: State, a: Action)
    requires Exclusive(s)
    requires forall v | v in s.workers :: AtMessage(s, v) && s.workers[v].attempt <= MAX_ATTEMPTS
    ensures Exclusive(Apply(s, a))
  {
    if a.Append? {
      SameWorkersExclusive(s, Apply(s, a));
    } else if a.RelayClaim? || a.RelayPublish? || a.RelayPublishFails? || a.RelayMark? || a.RelayCrash? {
      FeedStepFrame(s, a);
      StepGrows(s, a);
      SameWorkersExclusive(s, Apply(s, a));
    } else if a.PollBatch? || a.CommitOffset? || a.WorkerCrash? {
      StaysExclusive(s, Apply(s, a), a.w);
    } else if AtMessage(s, a.w) {
      MessageStepKeepsExclusive(s, a);
    }
  }

  lemma AppendKeepsWorkers(s: State, row: OutboxRow)
    requires WorkersOk(s) && FeedInv(s)
    ensures WorkersOk(Apply(s, Append(row)))
  {
    var s' := Apply(s, Append(row));
    if s' != s {
      GrowsRefl(s, s');
      forall w | w in s'.workers ensures WorkerOk(s', w) {
        assert WorkerOk(s, w) && Current(s, w) in s.log;
        assert Sourced(s.outbox, Current(s, w));
        WorkerGrows(s, s', w);
      }
    }
  }

  /** Steps of the feed move no worker. */
  lemma FeedStepFrame(s: State, a: Action)
    requires a.RelayClaim? || a.RelayPublish? || a.RelayPublishFails? || a.RelayMark? || a.RelayCrash?
    ensures var s' := Apply(s, a);
            s'.workers == s.workers && s'.claims == s.claims && s'.outbox == s.outbox
  {
  }

  lemma FeedStepKeepsWorkers(s: State, a: Action)
    requires WorkersOk(s)
    requires a.RelayClaim? || a.RelayPublish? || a.RelayPublishFails? || a.RelayMark? || a.RelayCrash?
    ensures WorkersOk(Apply(s, a))
  {
    StepGrows(s, a);
    FeedStepFrame(s, a);
    FrameKeepsWorkers(s, Apply(s, a));
  }

  lemma FrameKeepsWorkers(s: State, s': State)
    requires WorkersOk(s) && Grows(s, s')
    requires s'.workers == s.workers && s'.claims == s.claims && s'.outbox == s.outbox
    ensures WorkersOk(s')
  {
    forall w | w in s'.workers ensures WorkerOk(s', w) {
      assert WorkerOk(s, w);
      WorkerGrows(s, s', w);
    }
  }

  lemma PollKeepsWorkers(s: State, w: nat, g: Group, limit: nat)
    requires WorkersOk(s) && HandledTo(s, g, OffsetOf(s, g))
    ensures WorkersOk(Apply(s, PollBatch(w, g, limit)))
  {
    var s' := Apply(s, PollBatch(w, g, limit));
    if s' != s {
      GrowsRefl(s, s');
      PollIsConsecutive(s.log, g.Topic(), OffsetOf(s, g), limit);
      HandledToGrows(s, s', g, OffsetOf(s, g));
      assert OnTopic(s.log, g.Topic(), s'.workers[w].batch[0]);
      AllAtMessage(s);
      assert forall v | v in s.workers :: WorkerOk(s, v);
      OthersStay(s, s', w);
    }
  }

  /** What a step on the current message, other than moving on, does to its worker and the tables. */
  ghost predicate Handles(s: State, s': State, w: nat)
    requires AtMessage(s, w)
  {
    && s'.outbox == s.outbox && s.log <= s'.log && w in s'.workers
    && s'.workers == s.workers[w := s'.workers[w]]
    && var k, k' := s.workers[w], s'.workers[w];
       && k'.group == k.group && k'.after == k.after && k'.batch == k.batch && k'.pos == k.pos
       && k'.attempt <= MAX_ATTEMPTS && (k'.phase.Ready? ==> s' == s || k'.attempt < MAX_ATTEMPTS)
       && (k'.phase.Settled? ==> s' == s || Key(s, w) in s'.claims || s'.dead == s.dead + multiset{Key(s, w)})
       && (k'.phase.Working? ==>
             s'.claims == s.claims && (k.phase.Working? || (Key(s, w) !in s.claims && !ClaimBlocked(s, w))))
       && (k'.phase == Working(true) && s' != s && MustPublish(s, w) ==>
             Published(s'.log, Normalized, NormId(Current(s, w).eventId)))
       && (s'.claims != s.claims ==> k.phase.Working? && s'.claims == s.claims + {Key(s, w)})
  }

  lemma ClaimHandles(s: State, w: nat)
    requires AtMessage(s, w) && s.workers[w].attempt <= MAX_ATTEMPTS
    ensures Handles(s, DoClaim(s, w), w)
  {
  }

  lemma PublishHandles(s: State, w: nat)
    requires AtMessage(s, w) && s.workers[w].attempt <= MAX_ATTEMPTS
    ensures Handles(s, DoPublishNormalized(s, w), w)
  {
    if DoPublishNormalized(s, w) != s {
      PublishedGrows(s.log, DoPublishNormalized(s, w).log[|s.log|]);
    }
  }

  lemma FailHandles(s: State, w: nat, poison: bool)
    requires AtMessage(s, w) && s.workers[w].attempt <= MAX_ATTEMPTS
    ensures Handles(s, DoFail(s, w, poison), w)
  {
  }

  lemma WorkCommitHandles(s: State, w: nat, acknowledged: bool)
    requires AtMessage(s, w) && s.workers[w].attempt <= MAX_ATTEMPTS
    ensures Handles(s, DoWorkCommit(s, w, acknowledged), w)
  {
  }

  lemma DeadLetterHandles(s: State, w: nat)
    requires AtMessage(s, w) && s.workers[w].attempt <= MAX_ATTEMPTS
    ensures Handles(s, DoDeadLetter(s, w), w)
  {
  }

  lemma MessageStepHandles(s: State, a: Action)
    requires a.Claim? || a.PublishNormalized? || a.AttemptFails? || a.WorkCommit? || a.DeadLetter?
    requires AtMessage(s, a.w) && s.workers[a.w].attempt <= MAX_ATTEMPTS
    ensures Handles(s, Apply(s, a), a.w)
  {
    match a
    case Claim(w) => ClaimHandles(s, w);
    case PublishNormalized(w) => PublishHandles(s, w);
    case AttemptFails(w, poison) => FailHandles(s, w, poison);
    case WorkCommit(w, acknowledged) => WorkCommitHandles(s, w, acknowledged);
    case DeadLetter(w) => DeadLetterHandles(s, w);
  }

  lemma MovedWorkerOk(s: State, s': State, w: nat)
    requires AtMessage(s, w) && WorkerOk(s, w) && Grows(s, s') && s' != s && PastOk(s)
    requires s'.outbox == s.outbox && w in s'.workers
    requires var k, k' := s.workers[w], s'.workers[w];
             && k'.group == k.group && k'.after == k.after && k'.batch == k.batch && k'.pos == k.pos
             && k'.attempt <= MAX_ATTEMPTS && (k'.phase.Ready? ==> k'.attempt < MAX_ATTEMPTS)
             && (k'.phase.Settled? ==> Key(s, w) in s'.claims || s'.dead == s.dead + multiset{Key(s, w)})
             && (k'.phase.Working? ==> Key(s, w) !in s'.claims)
             && (k'.phase == Working(true) && MustPublish(s, w) ==>
                   Published(s'.log, Normalized, NormId(Current(s, w).eventId)))
    ensures WorkerOk(s', w) && Key(s', w) == Key(s, w)
  {
    var k := s.workers[w];
    HandledToGrows(s, s', k.group, Done(k));
    ConsecutiveGrows(s.log, s'.log, k.group.Topic(), k.after, k.batch);
  }

  lemma NextMessageOk(s: State, w: nat)
    requires AtMessage(s, w) && WorkerOk(s, w)
    ensures w in DoCommitOffset(s, w).workers ==> WorkerOk(DoCommitOffset(s, w), w)
  {
    var s', k := DoCommitOffset(s, w), s.workers[w];
    if s' != s && w in s'.workers {
      GrowsRefl(s, s');
      HandledToNext(s, w);
      HandledToGrows(s, s', k.group, k.batch[k.pos]);
      assert OnTopic(s.log, k.group.Topic(), k.batch[k.pos + 1]);
    }
  }

  lemma OthersUnclaimed(s: State, s': State, w: nat)
    requires WorkersOk(s) && Exclusive(s) && AtMessage(s, w) && Handles(s, s', w)
    ensures forall v | v in s'.workers && v != w && AtMessage(s, v) && s.workers[v].phase.Working? ::
                Key(s, v) !in s'.claims
  {
    forall v | v in s'.workers && v != w && AtMessage(s, v) && s.workers[v].phase.Working?
      ensures Key(s, v) !in s'.claims
    {
      assert WorkerOk(s, v);
    }
  }

  lemma HandlesKeepsWorkers(s: State, s': State, w: nat)
    requires WorkersOk(s) && Exclusive(s) && AtMessage(s, w) && PastOk(s)
    requires Handles(s, s', w) && Grows(s, s') && s' != s
    ensures WorkersOk(s')
  {
    hide HandledTo, Consecutive, Described, Published, ClaimBlocked;
    assert WorkerOk(s, w);
    MovedWorkerOk(s, s', w);
    OthersUnclaimed(s, s', w);
    OthersStay(s, s', w);
  }

  lemma MessageStepKeepsWorkers(s: State, a: Action)
    requires a.Claim? || a.PublishNormalized? || a.AttemptFails? || a.WorkCommit? || a.DeadLetter?
    requires WorkersOk(s) && Exclusive(s) && AtMessage(s, a.w) && PastOk(s)
    ensures WorkersOk(Apply(s, a))
  {
    if Apply(s, a) != s {
      assert WorkerOk(s, a.w);
      StepGrows(s, a);
      MessageStepHandles(s, a);
      HandlesKeepsWorkers(s, Apply(s, a), a.w);
    }
  }

  lemma CommitOffsetKeepsWorkers(s: State, w: nat)
    requires WorkersOk(s) && AtMessage(s, w)
    ensures WorkersOk(DoCommitOffset(s, w))
  {
    hide HandledTo, Consecutive, Described;
    var s' := DoCommitOffset(s, w);
    if s' != s {
      assert WorkerOk(s, w);
      NextMessageOk(s, w);
      GrowsRefl(s, s');
      forall v | v in s'.workers && v != w && AtMessage(s, v) && s.workers[v].phase.Working?
        ensures Key(s, v) !in s'.claims
      {
        assert WorkerOk(s, v);
      }
      OthersStay(s, s', w);
    }
  }

  lemma StepKeepsWorkers(s: State, a: Action)
    requires DeliveryInv(s)
    ensures WorkersOk(Apply(s, a))
  {
    if a.Append? {
      AppendKeepsWorkers(s, a.row);
    } else if a.RelayClaim? || a.RelayPublish? || a.RelayPublishFails? || a.RelayMark? || a.RelayCrash? {
      FeedStepKeepsWorkers(s, a);
    } else if a.PollBatch? {
      PollKeepsWorkers(s, a.w, a.group, a.limit);
    } else if a.WorkerCrash? {
      WorkerCrashKeepsWorkers(s, a.w);
    } else if AtMessage(s, a.w) {
      if a.CommitOffset? {
        CommitOffsetKeepsWorkers(s, a.w);
      } else {
        MessageStepKeepsWorkers(s, a);
      }
    }
  }

  lemma WorkerCrashKeepsWorkers(s: State, w: nat)
    requires WorkersOk(s)
    ensures WorkersOk(Apply(s, WorkerCrash(w)))
  {
    var s' := Apply(s, WorkerCrash(w));
    GrowsRefl(s, s');
    assert forall v | v in s.workers :: WorkerOk(s, v);
    OthersStay(s, s', w);
  }

  lemma StepKeepsDelivery(s: State, a: Action)
    requires DeliveryInv(s)
    ensures DeliveryInv(Apply(s, a))
  {
    AllAtMessage(s);
    StepKeepsFeed(s, a);
    StepKeepsTables(s, a);
    StepKeepsWorkers(s, a);
    StepKeepsExclusive(s, a);
  }

  lemma {:induction false} RunKeepsDelivery(s: State, actions: seq<Action>)
    requires DeliveryInv(s)
    ensures DeliveryInv(Run(s, actions))
  {
    if actions != [] {
      RunKeepsDelivery(s, actions[..|actions| - 1]);
      StepKeepsDelivery(Run(s, actions[..|actions| - 1]), actions[|actions| - 1]);
    }
  }

  // ---- the theorems ----

  lemma InitialInv()
    ensures DeliveryInv(INITIAL)
  {
  }

  /** Over every run, with any number of relays and workers and a crash between any two steps:
      each group commits at most one effect per event, exactly when its claim is committed;
      everything at or below a group's offset has a claim or a dead letter; a row is marked only
      when its event is on the topic; and nothing is on a topic without a committed row behind it. */
  lemma NothingTwiceNothingSkipped(actions: seq<Action>, g: Group, eventId: string)
    ensures var s := Run(INITIAL, actions);
            && s.effects[(g, eventId)] == (if (g, eventId) in s.claims then 1 else 0)
            && (forall o | OnTopic(s.log, g.Topic(), o) && o <= OffsetOf(s, g) ::
                  Acknowledged(s, g, s.log[o - 1].eventId))
            && (forall row | row in s.outbox && row.id in s.marked :: Published(s.log, LedgerEvents, row.eventId))
            && (forall m | m in s.log :: Sourced(s.outbox, m))
  {
    InitialInv();
    RunKeepsDelivery(INITIAL, actions);
    RunKeepsPast(INITIAL, actions);
    var s := Run(INITIAL, actions);
    assert HandledTo(s, g, OffsetOf(s, g));
  }

  /** Claimed or in the dead-letter table. */
  ghost predicate Acknowledged(s: State, g: Group, eventId: string)
  {
    (g, eventId) in s.claims || (g, eventId) in s.dead
  }

  lemma {:induction false} RunKeepsPast(s: State, actions: seq<Action>)
    ensures Run(s, actions).past == s.past
  {
    if actions != [] {
      RunKeepsPast(s, actions[..|actions| - 1]);
      StepGrows(Run(s, actions[..|actions| - 1]), actions[|actions| - 1]);
    }
  }

  /** Nothing lost: once every row is marked and a group has reached the head of the ledger topic,
      that group has handled or dead-lettered every committed event. */
  lemma NothingLost(actions: seq<Action>, g: Group, row: OutboxRow)
    requires var s := Run(INITIAL, actions);
             && g in {Normalizer, Webhooks} && row in s.outbox && row.id in s.marked
             && OffsetOf(s, g) >= Head(s.log, LedgerEvents)
    ensures Handled(Run(INITIAL, actions), g, row.eventId)
  {
    InitialInv();
    RunKeepsDelivery(INITIAL, actions);
    RunKeepsPast(INITIAL, actions);
    NothingLostState(Run(INITIAL, actions), g, row);
  }

  lemma NothingLostState(s: State, g: Group, row: OutboxRow)
    requires FeedInv(s) && TablesOk(s)
    requires g in {Normalizer, Webhooks} && row in s.outbox && row.id in s.marked
    requires OffsetOf(s, g) >= Head(s.log, LedgerEvents) && (g, row.eventId) !in s.past.open
    ensures Handled(s, g, row.eventId)
  {
    assert Published(s.log, LedgerEvents, row.eventId);
    var o :| OnTopic(s.log, LedgerEvents, o) && s.log[o - 1].eventId == row.eventId;
    HeadIsLast(s.log, LedgerEvents);
    assert HandledTo(s, g, OffsetOf(s, g));
  }

  /** Two stages: a committed normalizer claim of a described posting has its successor on the
      normalized topic; however often that was published, risk commits at most one effect for it,
      and has handled or dead-lettered it once it reaches the head. */
  lemma TwoStageDelivery(actions: seq<Action>, row: OutboxRow)
    requires var s := Run(INITIAL, actions);
             row in s.outbox && row.described && (Normalizer, row.eventId) in s.claims
    ensures var s := Run(INITIAL, actions);
            && Published(s.log, Normalized, NormId(row.eventId))
            && s.effects[(Risk, NormId(row.eventId))] <= 1
            && (OffsetOf(s, Risk) >= Head(s.log, Normalized) ==> Handled(s, Risk, NormId(row.eventId)))
  {
    InitialInv();
    RunKeepsDelivery(INITIAL, actions);
    RunKeepsPast(INITIAL, actions);
    TwoStageState(Run(INITIAL, actions), row);
  }

  lemma TwoStageState(s: State, row: OutboxRow)
    requires TablesOk(s) && row in s.outbox && row.described && (Normalizer, row.eventId) in s.claims
    requires (Risk, NormId(row.eventId)) !in s.past.open
    ensures Published(s.log, Normalized, NormId(row.eventId))
    ensures s.effects[(Risk, NormId(row.eventId))] <= s.past.released[(Risk, NormId(row.eventId))] + 1
    ensures OffsetOf(s, Risk) >= Head(s.log, Normalized) ==> Handled(s, Risk, NormId(row.eventId))
  {
    assert Published(s.log, Normalized, NormId(row.eventId));
    var o :| OnTopic(s.log, Normalized, o) && s.log[o - 1].eventId == NormId(row.eventId);
    HeadIsLast(s.log, Normalized);
    assert HandledTo(s, Risk, OffsetOf(s, Risk));
    if OffsetOf(s, Risk) >= Head(s.log, Normalized) {
      assert OnTopic(s.log, Risk.Topic(), o) && o <= OffsetOf(s, Risk);
      assert Handled(s, Risk, s.log[o - 1].eventId);
    }
  }

  /** A crash forgets what the process held in memory, and nothing else: not what it published, nor
      anything committed, nor the other processes. */
  lemma CrashForgets(s: State, p: nat)
    ensures var s' := Apply(s, RelayCrash(p));
            && p !in s'.relays && s' == s.(relays := s'.relays)
            && forall q | q != p ::
                 (q in s'.relays <==> q in s.relays) && (q in s.relays ==> s'.relays[q] == s.relays[q])
    ensures var s' := Apply(s, WorkerCrash(p));
            && p !in s'.workers && s' == s.(workers := s'.workers)
            && forall q | q != p ::
                 (q in s'.workers <==> q in s.workers) && (q in s.workers ==> s'.workers[q] == s.workers[q])
  {
  }

  /** Offsets, the log and the committed work never move back. */
  lemma {:induction false} NeverBack(s: State, actions: seq<Action>, g: Group)
    ensures var s' := Run(s, actions);
            OffsetOf(s, g) <= OffsetOf(s', g) && s.log <= s'.log && s.claims <= s'.claims && s.dead <= s'.dead
  {
    if actions != [] {
      var front, last := actions[..|actions| - 1], actions[|actions| - 1];
      NeverBack(s, front, g);
      StepGrows(Run(s, front), last);
      StepOffset(Run(s, front), last, g);
    }
  }

  lemma StepOffset(s: State, a: Action, g: Group)
    ensures OffsetOf(s, g) <= OffsetOf(Apply(s, a), g)
  {
    if a.CommitOffset? && AtMessage(s, a.w) {
      assert OffsetOf(s, g) <= OffsetOf(DoCommitOffset(s, a.w), g);
    }
  }
}
