/** Replays: rewind a group over a range of its topic, releasing the claims in the range
    (src/ledgerflow/api/routers/resources.py:295-328, src/ledgerflow/stream/pg.py:107-122). The claims
    are deleted in one transaction and the offset is moved on another connection after it. */
module Replay {
  import opened Seqs
  import opened Events
  import opened Stream
  import opened Delivery
  import opened DeliverySafety
  import W = Workers

  /** The group's keys of the messages in (from, head]. */
  function RangeKeys(log: seq<Message>, g: Group, topic: Topic, from: nat): set<(Group, string)>
  {
    set o | 1 <= o <= |log| && OnTopic(log, topic, o) && from < o <= Head(log, topic) :: (g, log[o - 1].eventId)
  }

  /** First step of `create_replay`: delete the claims in the range. */
  function Release(s: State, g: Group, topic: Topic, from: nat): State
  {
    var range := RangeKeys(s.log, g, topic, from);
    s.(claims := s.claims - range,
       past := Past(s.past.released + multiset(s.claims * range),
                    s.past.stale + (map k | k in range :: s.dead[k]),
                    s.past.open + range))
  }

  /** Second step: `seek`. The replay of the range is under way, no longer open. */
  function Rewind(s: State, g: Group, topic: Topic, from: nat): State
  {
    s.(offsets := s.offsets[(g, topic) := from],
       past := s.past.(open := s.past.open - RangeKeys(s.log, g, topic, from)))
  }

  /** `create_replay`, both steps. */
  function CreateReplay(s: State, g: Group, topic: Topic, from: nat): State
  {
    Rewind(Release(s, g, topic, from), g, topic, from)
  }

  lemma RangeMeaning(log: seq<Message>, g: Group, from: nat)
    ensures forall k :: k in RangeKeys(log, g, g.Topic(), from) <==> k.0 == g && Above(log, g, from, k.1)
  {
    HeadIsLast(log, g.Topic());
    forall k: (Group, string) | k.0 == g && Above(log, g, from, k.1) ensures k in RangeKeys(log, g, g.Topic(), from) {
      var o :| OnTopic(log, g.Topic(), o) && from < o && log[o - 1].eventId == k.1;
      assert k == (g, log[o - 1].eventId);
    }
    forall k | k in RangeKeys(log, g, g.Topic(), from) ensures k.0 == g && Above(log, g, from, k.1) {
      var o :| 1 <= o <= |log| && OnTopic(log, g.Topic(), o) && from < o && k == (g, log[o - 1].eventId);
    }
  }

  // ---- the deletion alone ----

  /** What the deletion does to the keys: only the group's keys in the range move. */
  ghost predicate Released(s: State, s': State, g: Group, from: nat)
  {
    && s' == s.(claims := s'.claims, past := s'.past)
    && (forall k: (Group, string) | !(k.0 == g && Above(s.log, g, from, k.1)) ::
          && (k in s'.claims <==> k in s.claims)
          && Stale(s'.past, k) == Stale(s.past, k) && (k in s'.past.stale <==> k in s.past.stale)
          && (k in s'.past.open <==> k in s.past.open)
          && s'.past.released[k] == s.past.released[k])
    && (forall e | Above(s.log, g, from, e) ::
          && (g, e) !in s'.claims && (g, e) in s'.past.open
          && (g, e) in s'.past.stale && s'.past.stale[(g, e)] == s.dead[(g, e)]
          && s'.past.released[(g, e)] == s.past.released[(g, e)] + if (g, e) in s.claims then 1 else 0)
  }

  lemma ReleaseReleases(s: State, g: Group, from: nat)
    ensures Released(s, Release(s, g, g.Topic(), from), g, from)
  {
    RangeMeaning(s.log, g, from);
    hide Above, RangeKeys;
  }

  lemma HandledToReleased(s: State, s': State, g: Group, from: nat, h: Group, offset: nat)
    requires Released(s, s', g, from) && HandledTo(s, h, offset)
    ensures HandledTo(s', h, offset)
  {
    forall o | OnTopic(s'.log, h.Topic(), o) && o <= offset
      ensures Handled(s', h, s'.log[o - 1].eventId) || ComesAgain(s', h, s'.log[o - 1].eventId, offset)
    {
      assert Handled(s, h, s.log[o - 1].eventId) || ComesAgain(s, h, s.log[o - 1].eventId, offset);
    }
  }

  lemma WorkerReleased(s: State, s': State, g: Group, from: nat, w: nat)
    requires Released(s, s', g, from) && w in s.workers && WorkerOk(s, w)
    ensures WorkerOk(s', w)
  {
    hide HandledTo, Above, Consecutive, Published;
    HandledToReleased(s, s', g, from, s.workers[w].group, Done(s.workers[w]));
    assert Current(s', w) == Current(s, w) && Key(s', w) == Key(s, w);
  }

  lemma TablesReleased(s: State, s': State, g: Group, from: nat)
    requires Released(s, s', g, from) && TablesOk(s)
    ensures TablesOk(s')
  {
    forall h: Group ensures HandledTo(s', h, OffsetOf(s', h)) {
      HandledToReleased(s, s', g, from, h, OffsetOf(s, h));
    }
    hide HandledTo, Above;
    forall x ensures s'.effects[x] == s'.past.released[x] + if x in s'.claims then 1 else 0 {
      assert s.effects[x] == s.past.released[x] + if x in s.claims then 1 else 0;
    }
  }

  /** The deletion is safe at any time, with any workers running: what it released stays open. */
  lemma ReleaseKeepsInv(s: State, g: Group, from: nat)
    requires DeliveryInv(s)
    ensures DeliveryInv(Release(s, g, g.Topic(), from))
  {
    var s' := Release(s, g, g.Topic(), from);
    ReleaseReleases(s, g, from);
    SameFeedKeeps(s, s');
    TablesReleased(s, s', g, from);
    forall w | w in s'.workers ensures WorkerOk(s', w) {
      assert WorkerOk(s, w);
      WorkerReleased(s, s', g, from, w);
    }
    SameWorkersExclusive(s, s') by { AllAtMessage(s); }
  }

  // ---- the seek ----

  /** The last message a worker will have acknowledged once it is through with what it has settled. */
  function Reach(k: Worker): nat
    requires k.pos < |k.batch|
  {
    if k.phase.Settled? then k.batch[k.pos] else Done(k)
  }

  /** The message comes again beyond everything the worker has behind it. */
  ghost predicate Beyond(log: seq<Message>, k: Worker, o: int)
    requires k.pos < |k.batch| && 1 <= o <= |log|
  {
    Above(log, k.group, Reach(k), log[o - 1].eventId)
  }

  ghost predicate WorkerAllows(log: seq<Message>, k: Worker, from: nat)
  {
    k.pos < |k.batch| && forall o | OnTopic(log, k.group.Topic(), o) && from < o <= Reach(k) :: Beyond(log, k, o)
  }

  /** No worker of the group has a message of the range behind it that does not come again further on.
      A group with no worker running is replayable, and so is one whose workers are at or below `from`. */
  ghost predicate Replayable(s: State, g: Group, from: nat)
  {
    forall w | w in s.workers && s.workers[w].group == g :: WorkerAllows(s.log, s.workers[w], from)
  }

  /** What the seek does: the group's offset moves, its keys in the range are no longer open. */
  ghost predicate Rewound(s: State, s': State, g: Group, from: nat)
  {
    && s' == s.(offsets := s'.offsets, past := s.past.(open := s'.past.open))
    && (forall k: (Group, string) :: k in s'.past.open <==>
          k in s.past.open && !(k.0 == g && Above(s.log, g, from, k.1)))
    && OffsetOf(s', g) == from && (forall h: Group | h != g :: OffsetOf(s', h) == OffsetOf(s, h))
  }

  lemma RewindRewinds(s: State, g: Group, from: nat)
    ensures Rewound(s, Rewind(s, g, g.Topic(), from), g, from)
  {
    RangeMeaning(s.log, g, from);
    hide Above, RangeKeys;
  }

  lemma OtherGroupRewound(s: State, s': State, g: Group, from: nat, h: Group, offset: nat)
    requires Rewound(s, s', g, from) && HandledTo(s, h, offset) && h != g
    ensures HandledTo(s', h, offset)
  {
    forall o | OnTopic(s'.log, h.Topic(), o) && o <= offset
      ensures Handled(s', h, s'.log[o - 1].eventId) || ComesAgain(s', h, s'.log[o - 1].eventId, offset)
    {
      assert Handled(s, h, s.log[o - 1].eventId) || ComesAgain(s, h, s.log[o - 1].eventId, offset);
    }
  }

  /** Below `low` everything stays accounted for, if what lies between `from` and `low` comes again. */
  lemma GroupRewound(s: State, s': State, g: Group, from: nat, offset: nat, low: nat)
    requires Rewound(s, s', g, from) && PastOk(s) && HandledTo(s, g, offset) && low <= offset
    requires forall o | OnTopic(s.log, g.Topic(), o) && from < o <= low :: Above(s.log, g, low, s.log[o - 1].eventId)
    ensures HandledTo(s', g, low)
  {
    forall o | OnTopic(s'.log, g.Topic(), o) && o <= low
      ensures Handled(s', g, s'.log[o - 1].eventId) || ComesAgain(s', g, s'.log[o - 1].eventId, low)
    {
      var e := s.log[o - 1].eventId;
      assert Handled(s, g, e) || ComesAgain(s, g, e, offset);
      StillAbove(s.log, g, offset, low, e);
      if Above(s.log, g, from, e) {
        AboveLow(s.log, g, from, low, e);
      }
    }
  }

  lemma StillAbove(log: seq<Message>, g: Group, offset: nat, low: nat, e: string)
    requires low <= offset
    ensures Above(log, g, offset, e) ==> Above(log, g, low, e)
  {
  }

  lemma AboveLow(log: seq<Message>, g: Group, from: nat, low: nat, e: string)
    requires Above(log, g, from, e)
    requires forall o | OnTopic(log, g.Topic(), o) && from < o <= low :: Above(log, g, low, log[o - 1].eventId)
    ensures Above(log, g, low, e)
  {
    var o :| OnTopic(log, g.Topic(), o) && from < o && log[o - 1].eventId == e;
  }

  lemma WorkerRewound(s: State, s': State, g: Group, from: nat, w: nat)
    requires Rewound(s, s', g, from) && PastOk(s) && w in s.workers && WorkerOk(s, w)
    requires s.workers[w].group == g ==> WorkerAllows(s.log, s.workers[w], from)
    ensures WorkerOk(s', w)
  {
    var k := s.workers[w];
    if k.group == g {
      DoneRewound(s, s', from, w);
      if k.phase.Settled? {
        SettledRewound(s, s', from, w);
      }
    } else {
      OtherGroupRewound(s, s', g, from, k.group, Done(k));
    }
    hide HandledTo, Above, Consecutive, Published;
    assert Current(s', w) == Current(s, w) && Key(s', w) == Key(s, w);
  }

  lemma DoneRewound(s: State, s': State, from: nat, w: nat)
    requires w in s.workers && WorkerOk(s, w) && PastOk(s) && Rewound(s, s', s.workers[w].group, from)
    requires WorkerAllows(s.log, s.workers[w], from)
    ensures HandledTo(s', s.workers[w].group, Done(s.workers[w]))
  {
    var k := s.workers[w];
    assert OnTopic(s.log, k.group.Topic(), k.batch[k.pos]) && Done(k) < k.batch[k.pos];
    forall o | OnTopic(s.log, k.group.Topic(), o) && from < o <= Done(k)
      ensures Above(s.log, k.group, Done(k), s.log[o - 1].eventId)
    {
      assert Beyond(s.log, k, o);
      StillAbove(s.log, k.group, Reach(k), Done(k), s.log[o - 1].eventId);
    }
    GroupRewound(s, s', k.group, from, Done(k), Done(k));
  }

  lemma SettledRewound(s: State, s': State, from: nat, w: nat)
    requires w in s.workers && WorkerOk(s, w) && PastOk(s) && Rewound(s, s', s.workers[w].group, from)
    requires WorkerAllows(s.log, s.workers[w], from) && s.workers[w].phase.Settled?
    ensures var k, e := s.workers[w], Current(s, w).eventId;
            Handled(s', k.group, e) || ComesAgain(s', k.group, e, k.batch[k.pos])
  {
    var k := s.workers[w];
    var here, e := k.batch[k.pos], Current(s, w).eventId;
    assert OnTopic(s.log, k.group.Topic(), here);
    if Above(s.log, k.group, from, e) {
      var o :| OnTopic(s.log, k.group.Topic(), o) && from < o && s.log[o - 1].eventId == e;
      if o <= here {
        assert Beyond(s.log, k, o);
      } else {
        assert Above(s.log, k.group, here, e);
      }
    }
  }

  lemma TablesRewound(s: State, s': State, g: Group, from: nat)
    requires Rewound(s, s', g, from) && TablesOk(s) && from <= OffsetOf(s, g)
    ensures TablesOk(s')
  {
    forall h: Group ensures HandledTo(s', h, OffsetOf(s', h)) {
      if h == g {
        GroupRewound(s, s', g, from, OffsetOf(s, g), from);
      } else {
        OtherGroupRewound(s, s', g, from, h, OffsetOf(s, h));
      }
    }
    hide HandledTo, Above;
  }

  lemma RewindKeepsInv(s: State, g: Group, from: nat)
    requires DeliveryInv(s) && Replayable(s, g, from) && from <= OffsetOf(s, g)
    ensures DeliveryInv(Rewind(s, g, g.Topic(), from))
  {
    var s' := Rewind(s, g, g.Topic(), from);
    RewindRewinds(s, g, from);
    SameFeedKeeps(s, s');
    TablesRewound(s, s', g, from);
    forall w | w in s'.workers ensures WorkerOk(s', w) {
      assert WorkerOk(s, w);
      WorkerRewound(s, s', g, from, w);
    }
    SameWorkersExclusive(s, s') by { AllAtMessage(s); }
  }

  // ---- the whole replay ----

  /** A replayable group can be replayed from any offset it has passed, while everything else goes on. */
  lemma ReplayKeepsInv(s: State, g: Group, from: nat)
    requires DeliveryInv(s) && Replayable(s, g, from) && from <= OffsetOf(s, g)
    ensures DeliveryInv(CreateReplay(s, g, g.Topic(), from))
  {
    ReleaseKeepsInv(s, g, from);
    assert Replayable(Release(s, g, g.Topic(), from), g, from);
    RewindKeepsInv(Release(s, g, g.Topic(), from), g, from);
  }

  /** The event has been handled or dead-lettered since the replay. */
  ghost predicate Anew(s: State, t: State, g: Group, e: string)
  {
    (g, e) in t.claims || t.dead[(g, e)] > s.dead[(g, e)]
  }

  ghost predicate AtHead(s: State, g: Group) { OffsetOf(s, g) >= Head(s.log, g.Topic()) }

  /** A replay, its two steps with any run between them, then any run of relays and any number of
      workers of any group: each event of the range has at most one more effect, exactly one more once
      it is claimed again; a claimed event outside the range is not handled again; and when the group
      is back at the head, every event of the range has been handled or dead-lettered anew. */
  lemma ReplayDelivers(s: State, g: Group, from: nat, between: seq<Action>, later: seq<Action>, e: string)
    requires DeliveryInv(s) && from <= OffsetOf(s, g)
    requires Replayable(Run(Release(s, g, g.Topic(), from), between), g, from)
    ensures var t := Run(Rewind(Run(Release(s, g, g.Topic(), from), between), g, g.Topic(), from), later);
            && DeliveryInv(t)
            && s.effects[(g, e)] <= t.effects[(g, e)] <= s.effects[(g, e)] + 1
            && (Above(s.log, g, from, e) ==>
                  t.effects[(g, e)] == s.effects[(g, e)] + if (g, e) in t.claims then 1 else 0)
            && (!Above(s.log, g, from, e) && (g, e) in s.claims ==> t.effects[(g, e)] == s.effects[(g, e)])
            && (Above(s.log, g, from, e) && AtHead(t, g) ==> Anew(s, t, g, e))
  {
    hide DeliveryInv, Replayable, Above, Apply;
    var s0 := Release(s, g, g.Topic(), from);
    var m := Run(s0, between);
    var s1 := Rewind(m, g, g.Topic(), from);
    var t := Run(s1, later);
    ReleaseKeepsInv(s, g, from);
    ReleaseReleases(s, g, from);
    RunKeepsDelivery(s0, between);
    RunKeepsPast(s0, between);
    NeverBack(s0, between, g);
    RewindKeepsInv(m, g, from);
    RewindRewinds(m, g, from);
    RunKeepsDelivery(s1, later);
    RunKeepsPast(s1, later);
    NeverBack(s1, later, g);
    AboveGrows(s.log, m.log, g, from, e);
    CountAnew(s, s0, s1, t, g, from, e);
  }

  lemma CountAnew(s: State, s0: State, s1: State, t: State, g: Group, from: nat, e: string)
    requires DeliveryInv(s) && DeliveryInv(t) && Released(s, s0, g, from) && t.past.released == s0.past.released
    requires s0.claims <= t.claims && s.log <= t.log && t.past == s1.past && t.past.stale == s0.past.stale
    requires Above(s.log, g, from, e) ==> (g, e) !in s1.past.open
    ensures s.effects[(g, e)] <= t.effects[(g, e)] <= s.effects[(g, e)] + 1
    ensures Above(s.log, g, from, e) ==> t.effects[(g, e)] == s.effects[(g, e)] + if (g, e) in t.claims then 1 else 0
    ensures !Above(s.log, g, from, e) && (g, e) in s.claims ==> t.effects[(g, e)] == s.effects[(g, e)]
    ensures Above(s.log, g, from, e) && AtHead(t, g) ==> Anew(s, t, g, e)
  {
    hide FeedInv, WorkersOk, Exclusive;
    EffectsCount(s, s0, t, g, from, e);
    if Above(s.log, g, from, e) && AtHead(t, g) {
      HandledAnew(s, t, g, from, e);
    }
  }

  lemma EffectsCount(s: State, s0: State, t: State, g: Group, from: nat, e: string)
    requires Released(s, s0, g, from) && t.past.released == s0.past.released && s0.claims <= t.claims
    requires TablesOk(s) && TablesOk(t)
    ensures s.effects[(g, e)] <= t.effects[(g, e)] <= s.effects[(g, e)] + 1
    ensures Above(s.log, g, from, e) ==> t.effects[(g, e)] == s.effects[(g, e)] + if (g, e) in t.claims then 1 else 0
    ensures !Above(s.log, g, from, e) && (g, e) in s.claims ==> t.effects[(g, e)] == s.effects[(g, e)]
  {
    hide HandledTo, Above;
    assert s.effects[(g, e)] == s.past.released[(g, e)] + if (g, e) in s.claims then 1 else 0;
    assert t.effects[(g, e)] == t.past.released[(g, e)] + if (g, e) in t.claims then 1 else 0;
  }

  lemma HandledAnew(s: State, t: State, g: Group, from: nat, e: string)
    requires s.log <= t.log && TablesOk(t) && Above(s.log, g, from, e) && AtHead(t, g)
    requires (g, e) !in t.past.open && (g, e) in t.past.stale && t.past.stale[(g, e)] == s.dead[(g, e)]
    ensures Anew(s, t, g, e)
  {
    var o :| OnTopic(s.log, g.Topic(), o) && from < o && s.log[o - 1].eventId == e;
    assert OnTopic(t.log, g.Topic(), o);
    HeadIsLast(t.log, g.Topic());
    assert HandledTo(t, g, OffsetOf(t, g));
  }

  /** The two steps in a row. */
  lemma ReplayAtOnce(s: State, g: Group, from: nat, actions: seq<Action>, e: string)
    requires DeliveryInv(s) && Replayable(s, g, from) && from <= OffsetOf(s, g)
    ensures var t := Run(CreateReplay(s, g, g.Topic(), from), actions);
            && DeliveryInv(t)
            && s.effects[(g, e)] <= t.effects[(g, e)] <= s.effects[(g, e)] + 1
            && (Above(s.log, g, from, e) ==>
                  t.effects[(g, e)] == s.effects[(g, e)] + if (g, e) in t.claims then 1 else 0)
            && (Above(s.log, g, from, e) && AtHead(t, g) ==> Anew(s, t, g, e))
  {
    hide DeliveryInv, Above, WorkerAllows, Apply;
    var r := Release(s, g, g.Topic(), from);
    assert Run(r, []) == r;
    assert Replayable(r, g, from);
    ReplayDelivers(s, g, from, [], actions, e);
  }

  // ---- exactly which groups can be replayed ----

  lemma RunOne(s: State, a: Action)
    ensures Run(s, [a]) == Apply(s, a)
  {
    assert [a][..0] == [];
    assert Run(s, []) == s;
  }

  /** The worker is through with its message without handling it. */
  ghost predicate LetGo(s: State, t: State, w: nat)
    requires AtMessage(s, w)
  {
    && w in t.workers
    && t == s.(workers := s.workers[w := t.workers[w]], dead := t.dead)
    && t.workers[w] == s.workers[w].(attempt := t.workers[w].attempt, phase := Settled)
    && (t.dead == s.dead || (!s.workers[w].phase.Settled? && t.dead == s.dead + multiset{Key(s, w)}))
  }

  lemma Fails(s: State, w: nat, poison: bool)
    requires AtMessage(s, w) && (s.workers[w].phase.Working? || (s.workers[w].phase.Ready? && !poison))
    requires s.workers[w].phase.Ready? ==> s.workers[w].attempt < MAX_ATTEMPTS
    ensures var k := s.workers[w];
            Apply(s, AttemptFails(w, poison)) ==
            WithWorker(s, w, AfterFailure(k, if k.phase.Working? then k.attempt else k.attempt + 1, poison))
  {
  }

  lemma DeadLetters(s: State, w: nat)
    requires AtMessage(s, w) && s.workers[w].phase.Failing?
    ensures LetGo(s, Apply(s, DeadLetter(w)), w)
  {
  }

  lemma LetGoLater(s: State, m: State, t: State, w: nat)
    requires AtMessage(s, w) && AtMessage(m, w) && !s.workers[w].phase.Settled? && LetGo(m, t, w)
    requires m == WithWorker(s, w, m.workers[w])
    requires m.workers[w] == s.workers[w].(attempt := m.workers[w].attempt, phase := m.workers[w].phase)
    ensures LetGo(s, t, w)
  {
    assert Key(m, w) == Key(s, w);
  }

  /** Attempts can fail until the message is dead-lettered, from wherever the worker is. */
  lemma {:induction false} GivesUp(s: State, w: nat) returns (actions: seq<Action>)
    requires AtMessage(s, w) && (s.workers[w].phase.Ready? ==> s.workers[w].attempt < MAX_ATTEMPTS)
    ensures LetGo(s, Run(s, actions), w)
    decreases if s.workers[w].phase.Ready? then 2 + MAX_ATTEMPTS - s.workers[w].attempt
              else if s.workers[w].phase.Working? then 1 else 0
  {
    hide Apply, LetGo;
    var k := s.workers[w];
    if k.phase.Settled? {
      actions := [];
      AlreadyLetGo(s, w);
    } else if k.phase.Failing? {
      actions := [DeadLetter(w)];
      DeadLetters(s, w);
      RunOne(s, DeadLetter(w));
    } else {
      var a := AttemptFails(w, k.phase.Working?);
      Fails(s, w, k.phase.Working?);
      var m := Apply(s, a);
      StillAt(s, m, w);
      var rest := GivesUp(m, w);
      actions := [a] + rest;
      RunOne(s, a);
      W.RunConcat(s, [a], rest);
      LetGoLater(s, m, Run(m, rest), w);
    }
  }

  lemma StillAt(s: State, m: State, w: nat)
    requires AtMessage(s, w) && w in m.workers && m == WithWorker(s, w, m.workers[w])
    requires m.workers[w].pos == s.workers[w].pos && m.workers[w].batch == s.workers[w].batch
    ensures AtMessage(m, w)
  {
  }

  lemma AlreadyLetGo(s: State, w: nat)
    requires AtMessage(s, w) && s.workers[w].phase.Settled?
    ensures Run(s, []) == s && LetGo(s, s, w)
  {
    assert s.workers[w := s.workers[w]] == s.workers;
  }

  /** The worker gives up on its message, acknowledges it and dies. */
  ghost predicate Skipped(s: State, t: State, w: nat)
    requires AtMessage(s, w)
  {
    var k := s.workers[w];
    && t == s.(offsets := t.offsets, workers := s.workers - {w}, dead := t.dead)
    && OffsetOf(t, k.group) == Max(OffsetOf(s, k.group), k.batch[k.pos])
    && (t.dead == s.dead || (!k.phase.Settled? && t.dead == s.dead + multiset{Key(s, w)}))
  }

  lemma Skips(s: State, w: nat) returns (actions: seq<Action>)
    requires AtMessage(s, w) && (s.workers[w].phase.Ready? ==> s.workers[w].attempt < MAX_ATTEMPTS)
    ensures Skipped(s, Run(s, actions), w)
  {
    hide Run;
    var given := GivesUp(s, w);
    var m := Run(s, given);
    actions := given + [CommitOffset(w)] + [WorkerCrash(w)];
    W.RunConcat(s, given + [CommitOffset(w)], [WorkerCrash(w)]);
    W.RunConcat(s, given, [CommitOffset(w)]);
    RunOne(m, CommitOffset(w));
    RunOne(Apply(m, CommitOffset(w)), WorkerCrash(w));
    AcknowledgesAndDies(s, m, w);
  }

  lemma AcknowledgesAndDies(s: State, m: State, w: nat)
    requires AtMessage(s, w) && LetGo(s, m, w)
    ensures Skipped(s, Apply(Apply(m, CommitOffset(w)), WorkerCrash(w)), w)
  {
    var t := Apply(Apply(m, CommitOffset(w)), WorkerCrash(w));
    assert AtMessage(m, w) && t.workers == s.workers - {w};
  }

  lemma NotThisKey(log: seq<Message>, g: Group, offset: nat, e: string, o: int)
    requires !Above(log, g, offset, e) && OnTopic(log, g.Topic(), o) && offset < o
    ensures log[o - 1].eventId != e
  {
  }

  /** A group can come to the head without handling an event that is not above its offset. */
  lemma {:induction false} SkipsToHead(s: State, g: Group, w: nat, e: string) returns (actions: seq<Action>)
    requires w !in s.workers && !Above(s.log, g, OffsetOf(s, g), e)
    ensures var t := Run(s, actions);
            && AtHead(t, g) && t.claims == s.claims && t.dead[(g, e)] == s.dead[(g, e)]
    decreases |s.log| - OffsetOf(s, g)
  {
    hide Apply, Above, Poll;
    var off, topic := OffsetOf(s, g), g.Topic();
    var batch := Poll(s.log, topic, off, 1);
    if batch == [] {
      actions := [];
      PollEmptyAtHead(s.log, topic, off, 1);
      HeadIsLast(s.log, topic);
      assert Run(s, []) == s;
    } else {
      PollIsConsecutive(s.log, topic, off, 1);
      assert OnTopic(s.log, topic, batch[0]) && off < batch[0];
      var poll := Action.PollBatch(w, g, 1);
      Polls(s, w, g);
      var m := Apply(s, poll);
      var skip := Skips(m, w);
      var t := Run(m, skip);
      NotThisKey(s.log, g, off, e, batch[0]);
      assert Key(m, w) == (g, s.log[batch[0] - 1].eventId);
      AboveLower(s.log, g, off, OffsetOf(t, g), e);
      var rest := SkipsToHead(t, g, w, e);
      actions := [poll] + skip + rest;
      RunOne(s, poll);
      W.RunConcat(s, [poll], skip);
      W.RunConcat(s, [poll] + skip, rest);
    }
  }

  lemma Polls(s: State, w: nat, g: Group)
    requires w !in s.workers && Poll(s.log, g.Topic(), OffsetOf(s, g), 1) != []
    ensures var batch := Poll(s.log, g.Topic(), OffsetOf(s, g), 1);
            var m := Apply(s, Action.PollBatch(w, g, 1));
            && m == WithWorker(s, w, Worker(g, OffsetOf(s, g), batch, 0, 0, Ready))
            && AtMessage(m, w) && m.workers - {w} == s.workers
  {
    PollIsConsecutive(s.log, g.Topic(), OffsetOf(s, g), 1);
    var batch := Poll(s.log, g.Topic(), OffsetOf(s, g), 1);
    assert OnTopic(s.log, g.Topic(), batch[0]);
  }

  lemma AboveLower(log: seq<Message>, g: Group, low: nat, high: nat, e: string)
    requires low <= high && !Above(log, g, low, e)
    ensures !Above(log, g, high, e)
  {
  }

  /** A worker with a message of the range behind it that does not come again: it acknowledges its next
      message, and from there the group can reach the head with that event released and never handled. */
  lemma ReplayLoses(s: State, g: Group, from: nat, w: nat, o: int) returns (actions: seq<Action>)
    requires DeliveryInv(s) && from <= OffsetOf(s, g)
    requires w in s.workers && s.workers[w].group == g && s.workers[w].pos < |s.workers[w].batch|
    requires OnTopic(s.log, g.Topic(), o) && from < o <= Reach(s.workers[w]) && !Beyond(s.log, s.workers[w], o)
    ensures var t := Run(CreateReplay(s, g, g.Topic(), from), actions);
            AtHead(t, g) && !Anew(s, t, g, s.log[o - 1].eventId)
  {
    var s1 := CreateReplay(s, g, g.Topic(), from);
    var k, e := s.workers[w], s.log[o - 1].eventId;
    assert WorkerOk(s, w);
    ReplayClears(s, g, from, o);
    var skip := Skips(s1, w);
    var t := Run(s1, skip);
    assert Skipped(s1, t, w);
    BehindIsNotKey(s, s1, w, e);
    AboveLower(s.log, g, Reach(k), OffsetOf(t, g), e);
    var rest := SkipsToHead(t, g, w, e);
    actions := skip + rest;
    W.RunConcat(s1, skip, rest);
  }

  lemma ReplayClears(s: State, g: Group, from: nat, o: int)
    requires OnTopic(s.log, g.Topic(), o) && from < o
    ensures var s1 := CreateReplay(s, g, g.Topic(), from);
            && (g, s.log[o - 1].eventId) !in s1.claims && s1.dead == s.dead
            && s1.log == s.log && s1.workers == s.workers
            && OffsetOf(s1, g) == from
  {
    ReleaseReleases(s, g, from);
    RewindRewinds(Release(s, g, g.Topic(), from), g, from);
    assert Above(s.log, g, from, s.log[o - 1].eventId);
  }

  lemma BehindIsNotKey(s: State, s1: State, w: nat, e: string)
    requires w in s.workers && WorkerOk(s, w) && s1.log == s.log && s1.workers == s.workers
    requires !Above(s.log, s.workers[w].group, Reach(s.workers[w]), e)
    ensures AtMessage(s1, w) && (s.workers[w].phase.Settled? || Key(s1, w) != (s.workers[w].group, e))
    ensures Reach(s.workers[w]) <= s.workers[w].batch[s.workers[w].pos]
  {
    var k := s.workers[w];
    assert OnTopic(s.log, k.group.Topic(), k.batch[k.pos]) && Done(k) < k.batch[k.pos];
    if !k.phase.Settled? {
      NotThisKey(s.log, k.group, Done(k), e, k.batch[k.pos]);
    }
  }

  /** The simplest such case: a worker that has settled a message above the new offset undoes the seek
      with its next commit. The group is back up, over messages that are all unclaimed. */
  lemma BusyWorkerUndoesSeek(s: State, g: Group, from: nat, w: nat)
    requires AtMessage(s, w) && s.workers[w].group == g && s.workers[w].phase.Settled?
    requires from < s.workers[w].batch[s.workers[w].pos]
    ensures var t := Apply(CreateReplay(s, g, g.Topic(), from), CommitOffset(w));
            && OffsetOf(t, g) == s.workers[w].batch[s.workers[w].pos]
            && forall o | OnTopic(t.log, g.Topic(), o) && from < o <= OffsetOf(t, g) ::
                 (g, t.log[o - 1].eventId) !in t.claims
  {
    hide CreateReplay;
    var s1 := CreateReplay(s, g, g.Topic(), from);
    var here := s.workers[w].batch[s.workers[w].pos];
    ReplayMoves(s, g, from);
    Commits(s1, w);
    forall o | OnTopic(s.log, g.Topic(), o) && from < o ensures (g, s.log[o - 1].eventId) !in s1.claims {
      ReplayClears(s, g, from, o);
    }
  }

  lemma ReplayMoves(s: State, g: Group, from: nat)
    ensures var s1 := CreateReplay(s, g, g.Topic(), from);
            s1.log == s.log && s1.workers == s.workers && OffsetOf(s1, g) == from
  {
  }

  lemma Commits(s: State, w: nat)
    requires AtMessage(s, w) && s.workers[w].phase.Settled?
    ensures var k, t := s.workers[w], Apply(s, CommitOffset(w));
            && t.log == s.log && t.claims == s.claims
            && OffsetOf(t, k.group) == Max(OffsetOf(s, k.group), k.batch[k.pos])
  {
  }

  /** Whatever runs after the replay, the group cannot come back to the head with an event of the range
      neither handled nor dead-lettered anew. */
  ghost predicate LosesNothing(s: State, g: Group, from: nat)
  {
    forall actions, e ::
      Above(s.log, g, from, e) && AtHead(Run(CreateReplay(s, g, g.Topic(), from), actions), g) ==>
        Anew(s, Run(CreateReplay(s, g, g.Topic(), from), actions), g, e)
  }

  /** Exactly the replayable groups can be replayed safely. */
  lemma ReplaySafeIff(s: State, g: Group, from: nat)
    requires DeliveryInv(s) && from <= OffsetOf(s, g)
    ensures LosesNothing(s, g, from) <==> Replayable(s, g, from)
  {
    if Replayable(s, g, from) {
      forall actions, e | Above(s.log, g, from, e) && AtHead(Run(CreateReplay(s, g, g.Topic(), from), actions), g)
        ensures Anew(s, Run(CreateReplay(s, g, g.Topic(), from), actions), g, e)
      {
        ReplayAtOnce(s, g, from, actions, e);
      }
    } else {
      hide CreateReplay, Run, DeliveryInv, Above;
      var w :| w in s.workers && s.workers[w].group == g && !WorkerAllows(s.log, s.workers[w], from);
      HasMessage(s, w);
      var o :| OnTopic(s.log, g.Topic(), o) && from < o <= Reach(s.workers[w]) && !Beyond(s.log, s.workers[w], o);
      var actions := ReplayLoses(s, g, from, w, o);
      InTheRange(s.log, g, from, o);
    }
  }

  lemma HasMessage(s: State, w: nat)
    requires DeliveryInv(s) && w in s.workers
    ensures s.workers[w].pos < |s.workers[w].batch|
  {
    assert WorkerOk(s, w);
  }

  lemma InTheRange(log: seq<Message>, g: Group, from: nat, o: int)
    requires OnTopic(log, g.Topic(), o) && from < o
    ensures Above(log, g, from, log[o - 1].eventId)
  {
  }

  const ROW := OutboxRow(1, "e", "t", false)
  const SENT := Message(LedgerEvents, "e", "t")

  function Settling(phase: Phase, attempt: nat): State
  {
    INITIAL.(outbox := [ROW], log := [SENT], workers := map[0 := Worker(Webhooks, 0, [1], 0, attempt, phase)])
  }

  /** From the empty system: one event is published, a worker takes it, handles it and has yet to commit
      its offset; the group is replayed from the start; the worker commits. The group is at the head,
      with the event released and not handled again. */
  lemma UnquietReplay() returns (before: seq<Action>)
    ensures var s := Run(INITIAL, before);
            var t := Apply(CreateReplay(s, Webhooks, LedgerEvents, 0), CommitOffset(0));
            && Above(s.log, Webhooks, 0, "e") && (Webhooks, "e") in s.claims
            && AtHead(t, Webhooks) && !Anew(s, t, Webhooks, "e")
  {
    hide Run;
    var feed := [Append(ROW)] + [RelayClaim(0, 1)] + [RelayPublish(0)] + [RelayCrash(0)];
    Feeds(feed);
    var work := [Action.PollBatch(0, Webhooks, 1)] + [Claim(0)] + [WorkCommit(0, true)];
    Works(work);
    before := feed + work;
    W.RunConcat(INITIAL, feed, work);
    var s := Run(INITIAL, before);
    assert OnTopic(s.log, LedgerEvents, 1);
    ReplayClears(s, Webhooks, 0, 1);
    assert AtMessage(CreateReplay(s, Webhooks, LedgerEvents, 0), 0);
  }

  lemma RunFour(s: State, a: Action, b: Action, c: Action, d: Action)
    ensures Run(s, [a] + [b] + [c] + [d]) == Apply(Apply(Apply(Apply(s, a), b), c), d)
  {
    hide Apply;
    RunOne(s, a);
    RunOne(Apply(s, a), b);
    RunOne(Apply(Apply(s, a), b), c);
    RunOne(Apply(Apply(Apply(s, a), b), c), d);
    W.RunConcat(s, [a], [b]);
    W.RunConcat(s, [a] + [b], [c]);
    W.RunConcat(s, [a] + [b] + [c], [d]);
  }

  lemma Feeds(feed: seq<Action>)
    requires feed == [Append(ROW)] + [RelayClaim(0, 1)] + [RelayPublish(0)] + [RelayCrash(0)]
    ensures Run(INITIAL, feed) == INITIAL.(outbox := [ROW], log := [SENT])
  {
    hide Run, Apply;
    RunFour(INITIAL, Append(ROW), RelayClaim(0, 1), RelayPublish(0), RelayCrash(0));
    var s1 := INITIAL.(outbox := [ROW]);
    AppendsRow();
    TakesRow(s1);
    SendsRow(s1.(relays := map[0 := Relay([ROW], 0, false)]));
  }

  lemma AppendsRow()
    ensures Apply(INITIAL, Append(ROW)) == INITIAL.(outbox := [ROW])
  {
    assert INITIAL.outbox + [ROW] == [ROW];
  }

  lemma TakesRow(s: State)
    requires s.outbox == [ROW] && s.marked == {} && s.relays == map[]
    ensures Apply(s, RelayClaim(0, 1)) == s.(relays := map[0 := Relay([ROW], 0, false)])
  {
    FilterAll([ROW], Claimable(s));
    SortOfSorted([ROW], RowId());
    assert ClaimUnpublished(s, 1) == [ROW];
  }

  lemma SendsRow(s: State)
    requires s.log == [] && s.relays == map[0 := Relay([ROW], 0, false)]
    ensures Apply(Apply(s, RelayPublish(0)), RelayCrash(0)) == s.(log := [SENT], relays := map[])
  {
    assert Apply(s, RelayPublish(0)).log == [SENT];
    assert Apply(s, RelayPublish(0)).relays - {0} == map[];
  }

  lemma Works(work: seq<Action>)
    requires work == [Action.PollBatch(0, Webhooks, 1)] + [Claim(0)] + [WorkCommit(0, true)]
    ensures Run(INITIAL.(outbox := [ROW], log := [SENT]), work) ==
            Settling(Settled, 1).(claims := {(Webhooks, "e")}, effects := multiset{(Webhooks, "e")})
  {
    hide Run, Apply;
    var s0 := INITIAL.(outbox := [ROW], log := [SENT]);
    RunOne(s0, Action.PollBatch(0, Webhooks, 1));
    W.RunConcat(s0, [Action.PollBatch(0, Webhooks, 1)], [Claim(0)]);
    RunOne(Settling(Ready, 0), Claim(0));
    W.RunConcat(s0, [Action.PollBatch(0, Webhooks, 1)] + [Claim(0)], [WorkCommit(0, true)]);
    RunOne(Settling(Working(false), 1), WorkCommit(0, true));
    TakesMessage(s0);
    ClaimsMessage();
    CommitsWork();
  }

  lemma TakesMessage(s: State)
    requires s == INITIAL.(outbox := [ROW], log := [SENT])
    ensures Apply(s, Action.PollBatch(0, Webhooks, 1)) == Settling(Ready, 0)
  {
    assert Poll([SENT], LedgerEvents, 0, 1) == [1];
  }

  lemma ClaimsMessage()
    ensures Apply(Settling(Ready, 0), Claim(0)) == Settling(Working(false), 1)
  {
    assert AtMessage(Settling(Ready, 0), 0) && !ClaimBlocked(Settling(Ready, 0), 0);
  }

  lemma CommitsWork()
    ensures Apply(Settling(Working(false), 1), WorkCommit(0, true)) ==
            Settling(Settled, 1).(claims := {(Webhooks, "e")}, effects := multiset{(Webhooks, "e")})
  {
    assert AtMessage(Settling(Working(false), 1), 0);
  }

  // ---- ids outside the range ----

  /** No worker of the group is running. */
  ghost predicate Quiet(s: State, g: Group)
  {
    forall w | w in s.workers :: s.workers[w].group != g
  }

  lemma QuietIsReplayable(s: State, g: Group, from: nat)
    requires Quiet(s, g)
    ensures Replayable(s, g, from)
  {
  }

  ghost predicate StartsAbove(s: State, g: Group, from: nat)
  {
    && OffsetOf(s, g) >= from
    && forall w | w in s.workers && s.workers[w].group == g :: s.workers[w].after >= from
  }

  lemma StepStartsAbove(s: State, a: Action, g: Group, from: nat)
    requires StartsAbove(s, g, from)
    ensures StartsAbove(Apply(s, a), g, from)
  {
    hide ClaimUnpublished, Poll, ClaimBlocked, Described;
    StepOffset(s, a, g);
  }

  /** A step adds an effect only for the message its worker is at. */
  lemma StepEffect(s: State, a: Action, g: Group, from: nat, e: string)
    requires DeliveryInv(s) && StartsAbove(s, g, from)
    requires Apply(s, a).effects[(g, e)] != s.effects[(g, e)]
    ensures Above(s.log, g, from, e)
  {
    hide FeedInv, TablesOk, Exclusive, WorkerOk, Apply;
    EffectIsCommit(s, a, (g, e));
    assert WorkerOk(s, a.w);
    AtInRange(s, a.w, g, from);
  }

  lemma EffectIsCommit(s: State, a: Action, key: (Group, string))
    requires Apply(s, a).effects[key] != s.effects[key]
    ensures a.WorkCommit? && AtMessage(s, a.w) && Key(s, a.w) == key
  {
    hide ClaimUnpublished, Poll, ClaimBlocked, Described;
  }

  lemma AtInRange(s: State, w: nat, g: Group, from: nat)
    requires w in s.workers && WorkerOk(s, w) && s.workers[w].group == g && s.workers[w].after >= from
    ensures AtMessage(s, w) && Above(s.log, g, from, Current(s, w).eventId)
  {
    hide HandledTo;
    assert OnTopic(s.log, g.Topic(), s.workers[w].batch[s.workers[w].pos]);
  }

  lemma {:induction false} RunEffects(s: State, actions: seq<Action>, g: Group, from: nat, e: string)
    requires DeliveryInv(s) && StartsAbove(s, g, from)
    ensures DeliveryInv(Run(s, actions)) && StartsAbove(Run(s, actions), g, from)
    ensures Run(s, actions).effects[(g, e)] == s.effects[(g, e)] || Above(Run(s, actions).log, g, from, e)
  {
    if actions != [] {
      var front, a := actions[..|actions| - 1], actions[|actions| - 1];
      RunEffects(s, front, g, from, e);
      var t := Run(s, front);
      StepKeepsDelivery(t, a);
      StepStartsAbove(t, a, g, from);
      StepGrows(t, a);
      if Apply(t, a).effects[(g, e)] != t.effects[(g, e)] {
        StepEffect(t, a, g, from, e);
      }
      AboveGrows(t.log, Apply(t, a).log, g, from, e);
    }
  }

  /** An id that is not published above `from`, before or during the replay of a quiescent group, is not
      handled again, claimed or not. */
  lemma OnlyTheRange(s: State, g: Group, from: nat, actions: seq<Action>, e: string)
    requires DeliveryInv(s) && Quiet(s, g) && from <= OffsetOf(s, g)
    requires !Above(Run(CreateReplay(s, g, g.Topic(), from), actions).log, g, from, e)
    ensures Run(CreateReplay(s, g, g.Topic(), from), actions).effects[(g, e)] == s.effects[(g, e)]
  {
    QuietIsReplayable(s, g, from);
    ReplayKeepsInv(s, g, from);
    RunEffects(CreateReplay(s, g, g.Topic(), from), actions, g, from, e);
  }

  // ---- a crash between the two steps ----

  /** The deletion committed and the seek never came: the offset stands, and an event of the range that
      is not published again above it is never handled again, although its claim is gone. */
  lemma CutOffSkipsTheRange(s: State, g: Group, from: nat, actions: seq<Action>, e: string)
    requires DeliveryInv(s) && Quiet(s, g) && Above(s.log, g, from, e)
    requires !Above(Run(Release(s, g, g.Topic(), from), actions).log, g, OffsetOf(s, g), e)
    ensures var t := Run(Release(s, g, g.Topic(), from), actions);
            && DeliveryInv(t) && OffsetOf(t, g) >= OffsetOf(s, g)
            && (g, e) !in t.claims && t.effects[(g, e)] == s.effects[(g, e)]
  {
    var r := Release(s, g, g.Topic(), from);
    var t := Run(r, actions);
    ReleaseKeepsInv(s, g, from);
    ReleaseReleases(s, g, from);
    RunEffects(r, actions, g, OffsetOf(s, g), e);
    RunKeepsPast(r, actions);
    NeverBack(r, actions, g);
    EffectsCount(s, r, t, g, from, e);
  }

  /** Repeating the request repairs it, whatever ran in between: once the group is replayable, the second
      replay covers the whole range of the first, and at the head every event of it has been handled or
      dead-lettered anew. */
  lemma RepeatRepairs(s: State, g: Group, from: nat, between: seq<Action>, later: seq<Action>, e: string)
    requires DeliveryInv(s) && from <= OffsetOf(s, g) && Above(s.log, g, from, e)
    requires Replayable(Run(Release(s, g, g.Topic(), from), between), g, from)
    ensures var m := Run(Release(s, g, g.Topic(), from), between);
            var t := Run(CreateReplay(m, g, g.Topic(), from), later);
            && DeliveryInv(t) && (g, e) !in t.past.open
            && m.effects[(g, e)] <= t.effects[(g, e)] <= m.effects[(g, e)] + 1
            && (AtHead(t, g) ==> Anew(m, t, g, e))
  {
    var r := Release(s, g, g.Topic(), from);
    var m := Run(r, between);
    ReleaseKeepsInv(s, g, from);
    RunKeepsDelivery(r, between);
    NeverBack(r, between, g);
    AboveGrows(s.log, m.log, g, from, e);
    ReplayAtOnce(m, g, from, later, e);
    ReleaseReleases(m, g, from);
    RewindRewinds(Release(m, g, g.Topic(), from), g, from);
    RunKeepsPast(CreateReplay(m, g, g.Topic(), from), later);
  }

  // ---- as the program does it ----

  /** The request handler, on the tables and the stream; it may die between the two steps. */
  method Create(p: W.Pipeline, group: Group, topic: Topic, from: nat, dies: bool) returns (head: nat)
    modifies p`db, p.stream`offsets
    ensures head == Head(p.stream.log, topic)
    ensures p.Idle() == if dies then Release(old(p.Idle()), group, topic, from)
                        else CreateReplay(old(p.Idle()), group, topic, from)
  {
    head := Head(p.stream.log, topic);
    var range := RangeKeys(p.stream.log, group, topic, from);
    p.db := p.db.(claims := p.db.claims - range,
                  past := Past(p.db.past.released + multiset(p.db.claims * range),
                               p.db.past.stale + (map k | k in range :: p.db.dead[k]),
                               p.db.past.open + range));
    if !dies {
      p.stream.Seek(topic, group, from);
      p.db := p.db.(past := p.db.past.(open := p.db.past.open - range));
    }
  }

  /** Replay and drain, one after the other: the group ends at the head, with every event of the
      range handled or dead-lettered anew and nothing else touched, however the attempts go. */
  method CreateAndDrain(p: W.Pipeline, group: Group, from: nat, limit: nat, fates: W.Fates)
    requires limit > 0
    requires DeliveryInv(p.Idle()) && from <= OffsetOf(p.Idle(), group)
    modifies p`db, p.stream
    ensures DeliveryInv(p.Idle()) && p.AtHead(group)
    ensures forall e | Above(old(p.stream.log), group, from, e) ::
              && Anew(old(p.Idle()), p.Idle(), group, e)
              && p.db.effects[(group, e)] == old(p.db).effects[(group, e)] + if (group, e) in p.db.claims then 1 else 0
    ensures forall e | !Above(p.stream.log, group, from, e) :: p.db.effects[(group, e)] == old(p.db).effects[(group, e)]
  {
    ghost var s := p.Idle();
    var head := Create(p, group, group.Topic(), from, false);
    ghost var s1 := p.Idle();
    var processed := p.Drain(group, limit, fates);
    ghost var t := p.Idle();
    ghost var actions :| Run(s1, actions) == t;
    QuietIsReplayable(s, group, from);
    forall e
      ensures Above(s.log, group, from, e) ==>
                && Anew(s, t, group, e)
                && t.effects[(group, e)] == s.effects[(group, e)] + if (group, e) in t.claims then 1 else 0
      ensures !Above(t.log, group, from, e) ==> t.effects[(group, e)] == s.effects[(group, e)]
    {
      ReplayAtOnce(s, group, from, actions, e);
      if !Above(t.log, group, from, e) {
        OnlyTheRange(s, group, from, actions, e);
      }
    }
    ReplayAtOnce(s, group, from, actions, "");
  }
}
