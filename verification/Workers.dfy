/** The relay and the consumer loop as the programs they are, run one at a time the way `drain_all`
    does, and proved to be runs of the delivery machine
    (src/ledgerflow/workers/runner.py:80-163, src/ledgerflow/workers/outbox_relay.py:28-69,
    src/ledgerflow/workers/normalizer.py:21-74, src/ledgerflow/workers/__init__.py:35-63). */
module Workers {
  import opened Seqs
  import opened Events
  import opened Stream
  import opened Delivery
  import S = DeliverySafety

  /** How one attempt on a message goes, if it gets to the handler at all. */
  datatype Fate =
    | Succeeds
    | Raises(poison: bool, late: bool)   // inside the handler, `late` when after its publish
    | NoConnection                       // before the claim
    | Unacknowledged                     // committed, but the commit call raised

  /** How one publish goes; `Unsure` raised after the row was stored. */
  datatype Landing = Acked | Lost | Unsure

  /** By offset and attempt. */
  type Fates = (nat, nat) -> Fate

  datatype Outcome = Returned | Failed(poison: bool)

  /** The tables of the event repository: outbox rows and their marks, claims, the handlers'
      committed effects, dead letters. */
  datatype Tables = Tables(outbox: seq<OutboxRow>, marked: set<nat>, claims: set<(Group, string)>,
                           effects: multiset<(Group, string)>, dead: multiset<(Group, string)>, past: Past)

  // ---- what the attempts on one message add up to ----

  /** Whether processing a message adds an effect, and whether it ends in the dead-letter table. */
  datatype Verdict = Verdict(effect: bool, dead: bool)

  function Judge(fates: Fates, offset: nat, attempt: nat, claimed: bool): Verdict
    decreases MAX_ATTEMPTS - attempt
  {
    if attempt >= MAX_ATTEMPTS then Verdict(false, true)
    else
      match fates(offset, attempt + 1)
      case NoConnection => Judge(fates, offset, attempt + 1, claimed)
      case Raises(poison, _) =>
        if claimed then Verdict(false, false)
        else if poison then Verdict(false, true)
        else Judge(fates, offset, attempt + 1, claimed)
      case Succeeds => Verdict(!claimed, false)
      case Unacknowledged =>
        if claimed then Verdict(false, false)
        else Verdict(true, Judge(fates, offset, attempt + 1, true).dead)
  }

  function Judged(db: Tables, key: (Group, string), v: Verdict): Tables
  {
    var d := if v.effect then db.(claims := db.claims + {key}, effects := db.effects + multiset{key}) else db;
    if v.dead then d.(dead := d.dead + multiset{key}) else d
  }

  /** A group's messages judged one after the other. */
  ghost function JudgedAll(db: Tables, log: seq<Message>, group: Group, batch: seq<nat>, fates: Fates): Tables
    requires InLog(log, batch)
  {
    if batch == [] then db
    else
      var front, o := batch[..|batch| - 1], batch[|batch| - 1];
      JudgedNext(JudgedAll(db, log, group, front, fates), log, group, o, fates)
  }

  ghost function JudgedNext(db: Tables, log: seq<Message>, group: Group, o: nat, fates: Fates): Tables
    requires 1 <= o <= |log|
  {
    var key := (group, log[o - 1].eventId);
    Judged(db, key, Judge(fates, o, 0, key in db.claims))
  }

  lemma {:induction false} JudgedFrame(db: Tables, log: seq<Message>, group: Group, batch: seq<nat>, fates: Fates)
    requires InLog(log, batch)
    ensures var d := JudgedAll(db, log, group, batch, fates);
            d == db.(claims := d.claims, effects := d.effects, dead := d.dead)
    ensures batch == [] ==> JudgedAll(db, log, group, batch, fates) == db
  {
    if batch != [] {
      JudgedFrame(db, log, group, batch[..|batch| - 1], fates);
    }
  }

  lemma JudgedPush(db: Tables, log: seq<Message>, now: seq<Message>, group: Group, batch: seq<nat>, i: nat,
                   fates: Fates)
    requires log <= now && i < |batch| && InLog(log, batch)
    ensures JudgedAll(db, log, group, batch[..i + 1], fates) ==
            JudgedNext(JudgedAll(db, log, group, batch[..i], fates), now, group, batch[i], fates)
  {
    assert batch[..i + 1][..i] == batch[..i];
  }

  lemma {:induction false} JudgedConcat(db: Tables, log: seq<Message>, group: Group, first: seq<nat>,
                                        second: seq<nat>, fates: Fates)
    requires InLog(log, first) && InLog(log, second) && InLog(log, first + second)
    ensures JudgedAll(db, log, group, first + second, fates) ==
            JudgedAll(JudgedAll(db, log, group, first, fates), log, group, second, fates)
  {
    if second == [] {
      assert first + second == first;
    } else {
      var front := second[..|second| - 1];
      assert (first + second)[..|first + second| - 1] == first + front;
      JudgedConcat(db, log, group, first, front, fates);
    }
  }

  lemma {:induction false} JudgedExtends(db: Tables, log: seq<Message>, log': seq<Message>, group: Group,
                                         batch: seq<nat>, fates: Fates)
    requires log <= log' && InLog(log, batch) && InLog(log', batch)
    ensures JudgedAll(db, log', group, batch, fates) == JudgedAll(db, log, group, batch, fates)
  {
    if batch != [] {
      JudgedExtends(db, log, log', group, batch[..|batch| - 1], fates);
    }
  }

  /** If every attempt succeeds, each event is claimed, takes effect once if it was new, and none is
      dead-lettered. */
  lemma {:induction false} AllSucceed(db: Tables, log: seq<Message>, group: Group, batch: seq<nat>, fates: Fates)
    requires InLog(log, batch) && forall o: nat, n: nat :: fates(o, n).Succeeds?
    ensures var d := JudgedAll(db, log, group, batch, fates);
            && d.dead == db.dead && db.claims <= d.claims
            && (forall i | 0 <= i < |batch| :: (group, log[batch[i] - 1].eventId) in d.claims)
            && (forall x :: d.effects[x] == db.effects[x] + if x in d.claims && x !in db.claims then 1 else 0)
  {
    if batch != [] {
      var front, o := batch[..|batch| - 1], batch[|batch| - 1];
      assert batch == front + [o];
      AllSucceed(db, log, group, front, fates);
    }
  }

  lemma Drained(db: Tables, log: seq<Message>, group: Group, after: nat, fates: Fates)
    ensures var d := JudgedAll(db, log, group, Waiting(log, group.Topic(), after), fates);
            && d == db.(claims := d.claims, effects := d.effects, dead := d.dead)
            && ((forall o, n :: fates(o, n).Succeeds?) ==> d.dead == db.dead)
  {
    JudgedFrame(db, log, group, Waiting(log, group.Topic(), after), fates);
    if forall o, n :: fates(o, n).Succeeds? {
      AllSucceed(db, log, group, Waiting(log, group.Topic(), after), fates);
    }
  }

  /** An attempt that reaches the handler and neither commits nor gives up. */
  predicate Transient(fate: Fate) { fate.NoConnection? || (fate.Raises? && !fate.poison) }

  /** The verdict from the middle of the retry loop. */
  ghost function Verdicts(fates: Fates, offset: nat, attempt: nat, claimed: bool, effect: bool, poisoned: bool): Verdict
  {
    if poisoned then Verdict(effect, true)
    else
      var v := Judge(fates, offset, attempt, claimed);
      Verdict(effect || v.effect, v.dead)
  }

  predicate FirstCommit(fates: Fates, offset: nat, attempt: nat, n: nat)
  {
    && (fates(offset, n).Succeeds? || fates(offset, n).Unacknowledged?)
    && forall i: nat | attempt < i < n :: Transient(fates(offset, i))
  }

  /** A new message takes effect exactly when some attempt commits before a poisoned one; a message
      that is already claimed never does; and nothing is skipped without a claim or a dead letter. */
  lemma {:induction false} JudgeMeaning(fates: Fates, offset: nat, attempt: nat, claimed: bool)
    ensures var v := Judge(fates, offset, attempt, claimed);
            && (v.effect <==>
                !claimed && exists n :: attempt < n <= MAX_ATTEMPTS && FirstCommit(fates, offset, attempt, n))
            && (v.effect || v.dead || claimed)
            && (claimed ==> (v.dead <==> NoMore(fates, offset, attempt)))
    decreases MAX_ATTEMPTS - attempt
  {
    if attempt < MAX_ATTEMPTS {
      JudgeMeaning(fates, offset, attempt + 1, claimed || fates(offset, attempt + 1).Unacknowledged?);
      var next := fates(offset, attempt + 1);
      if !claimed && Transient(next) && Judge(fates, offset, attempt + 1, claimed).effect {
        var n :| attempt + 1 < n <= MAX_ATTEMPTS && FirstCommit(fates, offset, attempt + 1, n);
        assert FirstCommit(fates, offset, attempt, n);
      }
      if n :| attempt < n <= MAX_ATTEMPTS && FirstCommit(fates, offset, attempt, n) {
        assert n == attempt + 1 || FirstCommit(fates, offset, attempt + 1, n);
      }
      if next.Succeeds? || next.Unacknowledged? {
        assert FirstCommit(fates, offset, attempt, attempt + 1);
      }
    }
  }

  /** Attempt `n` gives up, and those before it came to nothing. */
  predicate FirstPoison(fates: Fates, offset: nat, attempt: nat, n: nat)
  {
    && fates(offset, n).Raises? && fates(offset, n).poison
    && forall i: nat | attempt < i < n :: Transient(fates(offset, i))
  }

  /** Attempt `n` commits without our knowing, and none after it gets a connection to find out. */
  predicate NeverLearns(fates: Fates, offset: nat, attempt: nat, n: nat)
  {
    FirstCommit(fates, offset, attempt, n) && fates(offset, n).Unacknowledged? && NoMore(fates, offset, n)
  }

  predicate NoMore(fates: Fates, offset: nat, attempt: nat)
  {
    forall i | attempt < i <= MAX_ATTEMPTS :: fates(offset, i).NoConnection?
  }

  predicate AllTransient(fates: Fates, offset: nat, attempt: nat)
  {
    forall i | attempt < i <= MAX_ATTEMPTS :: Transient(fates(offset, i))
  }

  /** A transient attempt decides nothing. */
  lemma ShiftEnds(fates: Fates, offset: nat, attempt: nat)
    requires attempt < MAX_ATTEMPTS && Transient(fates(offset, attempt + 1))
    ensures AllTransient(fates, offset, attempt) <==> AllTransient(fates, offset, attempt + 1)
    ensures forall n | attempt < n :: FirstPoison(fates, offset, attempt, n) <==>
                                      attempt + 1 < n && FirstPoison(fates, offset, attempt + 1, n)
    ensures forall n | attempt < n :: NeverLearns(fates, offset, attempt, n) <==>
                                      attempt + 1 < n && NeverLearns(fates, offset, attempt + 1, n)
  {
    forall n | attempt < n ensures FirstCommit(fates, offset, attempt, n) <==>
                                   attempt + 1 < n && FirstCommit(fates, offset, attempt + 1, n)
    {
    }
  }

  /** A new message is dead-lettered exactly when an attempt gives up before any commits, when all come
      to nothing, or when one commits and none after it learns of it. */
  lemma {:induction false} DeadLetterMeaning(fates: Fates, offset: nat, attempt: nat)
    ensures Judge(fates, offset, attempt, false).dead <==>
            || AllTransient(fates, offset, attempt)
            || (exists n :: attempt < n <= MAX_ATTEMPTS && FirstPoison(fates, offset, attempt, n))
            || (exists n :: attempt < n <= MAX_ATTEMPTS && NeverLearns(fates, offset, attempt, n))
    decreases MAX_ATTEMPTS - attempt
  {
    if attempt < MAX_ATTEMPTS {
      var next, later := fates(offset, attempt + 1), attempt + 1;
      if Transient(next) {
        DeadLetterMeaning(fates, offset, later);
        ShiftEnds(fates, offset, attempt);
        if n :| later < n <= MAX_ATTEMPTS && FirstPoison(fates, offset, later, n) {
          assert FirstPoison(fates, offset, attempt, n);
        }
        if n :| later < n <= MAX_ATTEMPTS && NeverLearns(fates, offset, later, n) {
          assert NeverLearns(fates, offset, attempt, n);
        }
        if n :| attempt < n <= MAX_ATTEMPTS && FirstPoison(fates, offset, attempt, n) {
          assert FirstPoison(fates, offset, later, n);
        }
        if n :| attempt < n <= MAX_ATTEMPTS && NeverLearns(fates, offset, attempt, n) {
          assert NeverLearns(fates, offset, later, n);
        }
      } else if next.Unacknowledged? {
        JudgeMeaning(fates, offset, attempt + 1, true);
        assert NeverLearns(fates, offset, attempt, attempt + 1) <==> NoMore(fates, offset, attempt + 1);
      } else if next.Raises? {
        assert FirstPoison(fates, offset, attempt, attempt + 1);
      }
    }
  }

  /** Three attempts, no fewer and no more. */
  lemma ThreeAttempts(fates: Fates, offset: nat)
    requires Transient(fates(offset, 1)) && Transient(fates(offset, 2))
    ensures fates(offset, 3).Succeeds? ==> Judge(fates, offset, 0, false) == Verdict(true, false)
    ensures Transient(fates(offset, 3)) ==> Judge(fates, offset, 0, false) == Verdict(false, true)
  {
    assert Judge(fates, offset, 0, false) == Judge(fates, offset, 1, false) == Judge(fates, offset, 2, false);
  }

  // ---- steps of the machine with one worker ----

  /** The machine can get from one state to the other. */
  ghost predicate Reaches(s: State, s': State)
  {
    exists actions :: Run(s, actions) == s'
  }

  lemma ReachesSelf(s: State)
    ensures Reaches(s, s)
  {
    assert Run(s, []) == s;
  }

  lemma ReachesStep(s: State, a: Action)
    ensures Reaches(s, Apply(s, a))
  {
    assert [a][..0] == [];
    assert Run(s, [a]) == Apply(s, a);
  }

  lemma {:induction false} RunConcat(s: State, first: seq<Action>, second: seq<Action>)
    ensures Run(s, first + second) == Run(Run(s, first), second)
  {
    if second == [] {
      assert first + second == first;
    } else {
      var front := second[..|second| - 1];
      assert (first + second)[..|first + second| - 1] == first + front;
      RunConcat(s, first, front);
    }
  }

  lemma ReachesTrans(a: State, b: State, c: State)
    requires Reaches(a, b) && Reaches(b, c)
    ensures Reaches(a, c)
  {
    var first :| Run(a, first) == b;
    var second :| Run(b, second) == c;
    RunConcat(a, first, second);
  }

  ghost predicate Solo(s: State, k: Worker)
  {
    s.workers == map[0 := k] && k.pos < |k.batch| && 1 <= k.batch[k.pos] <= |s.log|
  }

  ghost function MessageOf(s: State, k: Worker): Message
    requires Solo(s, k)
  {
    s.log[k.batch[k.pos] - 1]
  }

  ghost function KeyOf(s: State, k: Worker): (Group, string)
    requires Solo(s, k)
  {
    (k.group, MessageOf(s, k).eventId)
  }

  ghost function With(s: State, k: Worker): State { s.(workers := map[0 := k]) }

  lemma SoloClaim(s: State, k: Worker)
    requires Solo(s, k) && k.phase.Ready? && k.attempt < MAX_ATTEMPTS
    ensures Reaches(s, With(s, k.(attempt := k.attempt + 1,
                                  phase := if KeyOf(s, k) in s.claims then Settled else Working(false))))
  {
    hide Run, Poll, ClaimUnpublished;
    ReachesStep(s, Claim(0));
    assert AtMessage(s, 0) && !ClaimBlocked(s, 0);
  }

  lemma SoloFail(s: State, k: Worker, poison: bool)
    requires Solo(s, k)
    requires k.phase.Working? || (k.phase.Ready? && k.attempt < MAX_ATTEMPTS && !poison)
    ensures Reaches(s, With(s, AfterFailure(k, if k.phase.Working? then k.attempt else k.attempt + 1, poison)))
  {
    hide Run, Poll, ClaimUnpublished;
    ReachesStep(s, AttemptFails(0, poison));
    assert AtMessage(s, 0);
  }

  lemma SoloPublish(s: State, k: Worker)
    requires Solo(s, k) && k.phase == Working(false)
    requires k.group == Normalizer && Described(s.outbox, MessageOf(s, k).txnId)
    ensures var m := MessageOf(s, k);
            Reaches(s, With(s, k.(phase := Working(true)))
                       .(log := s.log + [Message(Normalized, NormId(m.eventId), m.txnId)]))
  {
    hide Run, Poll, ClaimUnpublished;
    ReachesStep(s, PublishNormalized(0));
    assert AtMessage(s, 0) && MustPublish(s, 0);
  }

  lemma SoloCommit(s: State, k: Worker, acknowledged: bool)
    requires Solo(s, k) && k.phase.Working?
    requires k.group == Normalizer && Described(s.outbox, MessageOf(s, k).txnId) ==> k.phase.published
    ensures Reaches(s, With(s, if acknowledged then k.(phase := Settled) else AfterFailure(k, k.attempt, false))
                       .(claims := s.claims + {KeyOf(s, k)}, effects := s.effects + multiset{KeyOf(s, k)}))
  {
    hide Run, Poll, ClaimUnpublished;
    assert AtMessage(s, 0) && Key(s, 0) == KeyOf(s, k);
    assert MustPublish(s, 0) ==> k.phase.published;
    ReachesStep(s, WorkCommit(0, acknowledged));
  }

  lemma SoloDeadLetter(s: State, k: Worker)
    requires Solo(s, k) && k.phase.Failing?
    ensures Reaches(s, With(s, k.(phase := Settled)).(dead := s.dead + multiset{KeyOf(s, k)}))
  {
    hide Run, Poll, ClaimUnpublished;
    ReachesStep(s, DeadLetter(0));
    assert AtMessage(s, 0);
  }

  lemma SoloAdvance(s: State, k: Worker)
    requires Solo(s, k) && k.phase.Settled?
    ensures Reaches(s, s.(offsets := s.offsets[(k.group, k.group.Topic()) := Max(OffsetOf(s, k.group), k.batch[k.pos])],
                          workers := if k.pos + 1 == |k.batch| then map[]
                                     else map[0 := k.(pos := k.pos + 1, attempt := 0, phase := Ready)]))
  {
    hide Run, Poll, ClaimUnpublished;
    ReachesStep(s, CommitOffset(0));
    assert AtMessage(s, 0);
    assert s.workers - {0} == map[];
  }

  lemma SoloPoll(s: State, group: Group, limit: nat)
    requires s.workers == map[]
    requires Poll(s.log, group.Topic(), OffsetOf(s, group), limit) != []
    ensures var batch := Poll(s.log, group.Topic(), OffsetOf(s, group), limit);
            Reaches(s, With(s, Worker(group, OffsetOf(s, group), batch, 0, 0, Ready)))
  {
    ReachesStep(s, Action.PollBatch(0, group, limit));
  }

  // ---- steps with one relay ----

  ghost predicate SoloRelay(s: State, y: Relay)
  {
    s.relays == map[0 := y] && !y.stopped && y.sent < |y.batch|
  }

  lemma RelayTakes(s: State, limit: nat)
    requires s.relays == map[] && ClaimUnpublished(s, limit) != []
    ensures Reaches(s, s.(relays := map[0 := Relay(ClaimUnpublished(s, limit), 0, false)]))
  {
    ReachesStep(s, RelayClaim(0, limit));
  }

  lemma RelaySends(s: State, y: Relay)
    requires SoloRelay(s, y)
    ensures Reaches(s, s.(log := s.log + [EventOf(y.batch[y.sent])], relays := map[0 := y.(sent := y.sent + 1)]))
  {
    hide Run, Poll, ClaimUnpublished;
    ReachesStep(s, RelayPublish(0));
    assert s.relays[0 := y.(sent := y.sent + 1)] == map[0 := y.(sent := y.sent + 1)];
  }

  lemma RelayStops(s: State, y: Relay, landed: bool)
    requires SoloRelay(s, y)
    ensures Reaches(s, s.(log := if landed then s.log + [EventOf(y.batch[y.sent])] else s.log,
                          relays := map[0 := y.(stopped := true)]))
  {
    ReachesStep(s, RelayPublishFails(0, landed));
    assert s.relays[0 := y.(stopped := true)] == map[0 := y.(stopped := true)];
  }

  lemma RelayMarks(s: State, y: Relay)
    requires s.relays == map[0 := y] && y.sent <= |y.batch| && (y.stopped || y.sent == |y.batch|)
    ensures Reaches(s, s.(marked := s.marked + IdsOf(y.batch[..y.sent]), relays := map[]))
  {
    assert Take(y.batch, y.sent) == y.batch[..y.sent];
    assert s.relays - {0} == map[];
    ReachesStep(s, RelayMark(0));
  }

  lemma NothingClaimable(s: State, limit: nat)
    requires s.relays == map[] && limit > 0 && ClaimUnpublished(s, limit) == []
    ensures forall row | row in s.outbox :: row.id in s.marked
  {
    var rows := Filter(s.outbox, Claimable(s));
    assert |SortBy(rows, RowId())| == |rows| == 0;
    forall row | row in s.outbox ensures row.id in s.marked {
      assert row !in rows;
    }
  }

  lemma MarksShrink(outbox: seq<OutboxRow>, marked: set<nat>, rows: seq<OutboxRow>, row: OutboxRow)
    requires row in rows && row in outbox && row.id !in marked
    ensures IdsOf(outbox) - (marked + IdsOf(rows)) < IdsOf(outbox) - marked
  {
    assert row.id in IdsOf(outbox) - marked && row.id in IdsOf(rows);
  }

  predicate AllMarked(db: Tables) { forall row | row in db.outbox :: row.id in db.marked }

  lemma StaysMarked(db: Tables, db': Tables)
    requires db'.outbox == db.outbox && db.marked <= db'.marked && AllMarked(db)
    ensures AllMarked(db')
  {
  }

  lemma ReachesKeepsInv(s: State, s': State)
    requires S.DeliveryInv(s) && Reaches(s, s')
    ensures S.DeliveryInv(s') && s'.past == s.past
  {
    var actions :| Run(s, actions) == s';
    S.RunKeepsDelivery(s, actions);
    S.RunKeepsPast(s, actions);
  }

  lemma HeadMeansHandled(s: State)
    requires S.FeedInv(s) && S.TablesOk(s)
    requires (forall row | row in s.outbox :: row.id in s.marked) && s.past.open == {}
    requires forall g: Group :: OffsetOf(s, g) >= Head(s.log, g.Topic())
    ensures forall row | row in s.outbox ::
              && S.Handled(s, Webhooks, row.eventId) && S.Handled(s, Normalizer, row.eventId)
              && (row.described && (Normalizer, row.eventId) in s.claims ==> S.Handled(s, Risk, NormId(row.eventId)))
  {
    forall row | row in s.outbox
      ensures && S.Handled(s, Webhooks, row.eventId) && S.Handled(s, Normalizer, row.eventId)
              && (row.described && (Normalizer, row.eventId) in s.claims ==> S.Handled(s, Risk, NormId(row.eventId)))
    {
      S.NothingLostState(s, Webhooks, row);
      S.NothingLostState(s, Normalizer, row);
      if row.described && (Normalizer, row.eventId) in s.claims {
        S.TwoStageState(s, row);
      }
    }
  }

  lemma {:induction false} RelayedLength(landing: nat -> Landing, log: seq<Message>, rows: seq<OutboxRow>, sent: nat)
    requires sent <= |rows|
    ensures |Sent(log, rows, sent)| == |log| + sent
    ensures |Relayed(landing, log, rows, sent)| ==
            |log| + sent + if sent < |rows| && landing(sent).Unsure? then 1 else 0
  {
    if sent > 0 {
      RelayedLength(landing, log, rows, sent - 1);
    }
  }

  lemma ClaimedIsOpen(s: State, limit: nat)
    ensures forall row | row in ClaimUnpublished(s, limit) :: row in s.outbox && row.id !in s.marked
  {
  }

  ghost predicate AllAcked(landing: (nat, nat) -> Landing) { forall pass, i :: landing(pass, i).Acked? }

  ghost predicate NoneAcked(landing: (nat, nat) -> Landing) { forall pass, i :: !landing(pass, i).Acked? }

  ghost predicate NoneFails(fates: Group -> Fates) { forall g, o, n :: fates(g)(o, n).Succeeds? }

  lemma SucceedIn(fates: Group -> Fates, group: Group)
    ensures NoneFails(fates) ==> forall o, n :: fates(group)(o, n).Succeeds?
  {
  }

  /** What happens to the publishes and the attempts in pass `n` of `drain_all`. */
  function LandingIn(landing: (nat, nat, nat) -> Landing, n: nat): (nat, nat) -> Landing
  {
    (pass: nat, i: nat) => landing(n, pass, i)
  }

  function FatesIn(fates: (nat, Group) -> Fates, n: nat): Group -> Fates { (g: Group) => fates(n, g) }

  /** Leading publishes of a batch that are acknowledged. */
  ghost predicate SentFirst(landing: nat -> Landing, rows: seq<OutboxRow>, sent: nat)
  {
    && sent <= |rows|
    && (forall i | 0 <= i < sent :: landing(i).Acked?)
    && (sent < |rows| ==> !landing(sent).Acked?)
  }

  /** The log after the first `sent` rows of a batch were published to it. */
  ghost function Sent(log: seq<Message>, rows: seq<OutboxRow>, sent: nat): seq<Message>
    requires sent <= |rows|
  {
    if sent == 0 then log else Sent(log, rows, sent - 1) + [EventOf(rows[sent - 1])]
  }

  /** ... and after a pass that got that far: the next row may have been stored although its publish
      raised. */
  ghost function Relayed(landing: nat -> Landing, log: seq<Message>, rows: seq<OutboxRow>, sent: nat): seq<Message>
    requires sent <= |rows|
  {
    var l := Sent(log, rows, sent);
    if sent < |rows| && landing(sent).Unsure? then l + [EventOf(rows[sent])] else l
  }

  lemma HeadPush(log: seq<Message>, m: Message, topic: Topic)
    ensures Head(log + [m], topic) == if m.topic == topic then |log| + 1 else Head(log, topic)
  {
    assert (log + [m])[..|log|] == log;
  }

  /** Offsets a worker can still acknowledge: above `after`, within the log, ascending. */
  ghost predicate Ahead(after: nat, batch: seq<nat>, head: nat)
  {
    && (forall i | 0 <= i < |batch| :: after < batch[i] <= head)
    && (forall i, j | 0 <= i < j < |batch| :: batch[i] < batch[j])
  }

  lemma AheadInLog(log: seq<Message>, topic: Topic, after: nat, batch: seq<nat>)
    requires Consecutive(log, topic, after, batch)
    ensures Ahead(after, batch, |log|) && Ahead(after, batch, Head(log, topic))
  {
    HeadIsLast(log, topic);
    assert forall i | 0 <= i < |batch| :: OnTopic(log, topic, batch[i]);
  }

  /** What a poll brings. */
  lemma PolledBatch(log: seq<Message>, topic: Topic, after: nat, limit: nat)
    requires limit > 0
    ensures var batch, all := Poll(log, topic, after, limit), Waiting(log, topic, after);
            && |batch| == (if limit < |all| then limit else |all|) && batch == all[..|batch|]
            && Ahead(after, batch, |log|) && InLog(log, all)
            && (batch == [] ==> after >= Head(log, topic))
  {
    hide Head, Poll, Waiting;
    PollIsFirst(log, topic, after, limit);
    PollIsConsecutive(log, topic, after, limit);
    AheadInLog(log, topic, after, Poll(log, topic, after, limit));
    if Poll(log, topic, after, limit) == [] {
      HeadIsLast(log, topic);
      PollEmptyAtHead(log, topic, after, limit);
    }
  }

  lemma ExtendsTrans(group: Group, log: seq<Message>, before: seq<Message>, log': seq<Message>)
    ensures Extends(group, log, log)
    ensures Extends(group, log, before) && Extends(group, before, log') ==> Extends(group, log, log') && before <= log'
  {
  }

  /** The tables, the log, and a group's offset. */
  datatype Feed = Feed(db: Tables, log: seq<Message>, at: nat)

  /** From one to the other, the group has consumed the first `n` messages waiting for it. */
  ghost predicate Consumed(group: Group, fates: Fates, x: Feed, y: Feed, n: nat)
  {
    var all := Waiting(x.log, group.Topic(), x.at);
    && n <= |all| && InLog(x.log, all)
    && y.db == JudgedAll(x.db, x.log, group, all[..n], fates)
    && y.at == (if n == 0 then x.at else all[n - 1])
    && Extends(group, x.log, y.log)
  }

  lemma ConsumedNone(group: Group, fates: Fates, x: Feed)
    ensures Consumed(group, fates, x, x, 0)
  {
  }

  /** What is left is waiting still. */
  lemma ConsumedRest(group: Group, fates: Fates, x: Feed, y: Feed, n: nat)
    requires Consumed(group, fates, x, y, n)
    ensures Waiting(y.log, group.Topic(), y.at) == Waiting(x.log, group.Topic(), x.at)[n..]
  {
    hide Head, JudgedAll, Waiting;
    if n > 0 {
      WaitingRest(x.log, group.Topic(), x.at, n);
    }
    WaitingExtends(x.log, y.log, group.Topic(), y.at);
  }

  /** One more round. */
  lemma ConsumedMore(group: Group, fates: Fates, x: Feed, y: Feed, z: Feed, n: nat, m: nat)
    requires Consumed(group, fates, x, y, n) && Consumed(group, fates, y, z, m)
    ensures Consumed(group, fates, x, z, n + m)
  {
    hide Head, JudgedAll, Waiting;
    var all := Waiting(x.log, group.Topic(), x.at);
    ConsumedRest(group, fates, x, y, n);
    assert all[n..][..m] == all[n..n + m] && all[..n + m] == all[..n] + all[n..n + m];
    JudgedConcat(x.db, x.log, group, all[..n], all[n..n + m], fates);
    JudgedExtends(y.db, x.log, y.log, group, all[n..n + m], fates);
  }

  /** The group is through. */
  lemma ConsumedAll(group: Group, fates: Fates, x: Feed, y: Feed, n: nat)
    requires Consumed(group, fates, x, y, n) && Waiting(y.log, group.Topic(), y.at) == []
    ensures var all := Waiting(x.log, group.Topic(), x.at);
            && n == |all| && InLog(x.log, all) && y.db == JudgedAll(x.db, x.log, group, all, fates)
    ensures y.db == x.db.(claims := y.db.claims, effects := y.db.effects, dead := y.db.dead)
    ensures (forall o, n :: fates(o, n).Succeeds?) ==> y.db.dead == x.db.dead
    ensures Extends(group, x.log, y.log)
  {
    hide Head, JudgedAll, Waiting;
    var all := Waiting(x.log, group.Topic(), x.at);
    ConsumedRest(group, fates, x, y, n);
    assert all[..|all|] == all;
    Drained(x.db, x.log, group, x.at, fates);
  }

  /** What running a group's consumer does to the log: only the normalizer writes, and never to the
      ledger topic. */
  ghost predicate Extends(group: Group, log: seq<Message>, log': seq<Message>)
  {
    && log <= log' && (group != Normalizer ==> log' == log)
    && (forall i | |log| <= i < |log'| :: log'[i].topic == Normalized)
    && Head(log', LedgerEvents) == Head(log, LedgerEvents)
  }

  /** The tables around the stream, and the code that runs on them. */
  class Pipeline {
    const stream: PostgresStream
    var db: Tables

    constructor (stream: PostgresStream)
      ensures this.stream == stream && db == Tables([], {}, {}, multiset{}, multiset{}, NO_REPLAY)
    {
      this.stream := stream;
      db := Tables([], {}, {}, multiset{}, multiset{}, NO_REPLAY);
    }

    function AsFeed(group: Group): Feed
      reads this, stream
    {
      Feed(db, stream.log, stream.Offset(group, group.Topic()))
    }

    /** The machine's state, with the local variables of whatever is running. */
    function View(workers: map<nat, Worker>, relays: map<nat, Relay>): State
      reads this, stream
    {
      State(db.outbox, db.marked, relays, stream.log, stream.offsets, db.claims, db.effects, db.dead, db.past, workers)
    }

    function Idle(): State
      reads this, stream
    {
      View(map[], map[])
    }

    /** The group has acknowledged everything on its topic. */
    ghost predicate AtHead(group: Group)
      reads this, stream
    {
      OffsetOf(Idle(), group) >= Head(stream.log, group.Topic())
    }

    /** `handle`: only the normalizer writes to the stream, when the transaction has a descriptor. */
    method Handle(group: Group, m: Message, ghost k: Worker) returns (ghost done: Worker)
      requires Solo(View(map[0 := k], map[]), k) && k.phase == Working(false) && k.group == group
      requires m == stream.log[k.batch[k.pos] - 1]
      modifies stream`log
      ensures Reaches(old(View(map[0 := k], map[])), View(map[0 := done], map[]))
      ensures done == k.(phase := Working(group == Normalizer && Described(db.outbox, m.txnId)))
      ensures stream.log == old(stream.log) +
                if done.phase.published then [Message(Normalized, m.eventId + ":norm", m.txnId)] else []
      ensures Extends(group, old(stream.log), stream.log)
    {
      ghost var s := View(map[0 := k], map[]);
      ReachesSelf(s);
      done := k;
      assert stream.log == stream.log + [];
      if group == Normalizer && Described(db.outbox, m.txnId) {
        SoloPublish(s, k);
        HeadPush(stream.log, Message(Normalized, NormId(m.eventId), m.txnId), LedgerEvents);
        stream.Publish(Message(Normalized, NormId(m.eventId), m.txnId));
        done := k.(phase := Working(true));
      }
    }

    /** The claim is ours: handle, then commit claim and effect together, or roll both back. */
    method Work(group: Group, m: Message, fate: Fate, ghost k: Worker) returns (outcome: Outcome)
      requires Solo(View(map[0 := k], map[]), k) && k.phase == Working(false) && k.group == group
      requires m == stream.log[k.batch[k.pos] - 1] && !fate.NoConnection?
      modifies `db, stream`log
      ensures Reaches(old(View(map[0 := k], map[])),
                      View(map[0 := if outcome.Returned? then k.(phase := Settled)
                                    else AfterFailure(k, k.attempt, outcome.poison)], map[]))
      ensures outcome == if fate.Succeeds? then Returned else Failed(fate.Raises? && fate.poison)
      ensures db == Judged(old(db), (group, m.eventId), Verdict(!fate.Raises?, false))
      ensures |stream.log| >= |old(stream.log)| && stream.log[k.batch[k.pos] - 1] == m
      ensures Extends(group, old(stream.log), stream.log)
    {
      hide Run;
      ghost var s, w := View(map[0 := k], map[]), k;
      ReachesSelf(s);
      if !fate.Raises? || fate.late {
        w := Handle(group, m, k);
      }
      ghost var t := View(map[0 := w], map[]);
      if fate.Raises? {
        SoloFail(t, w, fate.poison);
        outcome := Failed(fate.poison);
      } else {
        SoloCommit(t, w, fate.Succeeds?);
        db := db.(claims := db.claims + {(group, m.eventId)}, effects := db.effects + multiset{(group, m.eventId)});
        outcome := if fate.Succeeds? then Returned else Failed(false);
      }
      ReachesTrans(s, t, View(map[0 := if outcome.Returned? then k.(phase := Settled)
                                       else AfterFailure(k, k.attempt, outcome.poison)], map[]));
    }

    /** One `with unit_of_work()` block of `process_one`: a claim already there means a duplicate. */
    method Attempt(group: Group, m: Message, fate: Fate, ghost k: Worker) returns (outcome: Outcome)
      requires Solo(View(map[0 := k], map[]), k) && k.phase.Ready? && k.attempt < MAX_ATTEMPTS && k.group == group
      requires m == stream.log[k.batch[k.pos] - 1]
      modifies `db, stream`log
      ensures Reaches(old(View(map[0 := k], map[])),
                      View(map[0 := if outcome.Returned? then k.(attempt := k.attempt + 1, phase := Settled)
                                    else AfterFailure(k, k.attempt + 1, outcome.poison)], map[]))
      ensures var duplicate := (group, m.eventId) in old(db.claims);
              && outcome == (if fate.Succeeds? || (duplicate && !fate.NoConnection?) then Returned
                             else Failed(fate.Raises? && fate.poison))
              && db == Judged(old(db), (group, m.eventId),
                              Verdict(!duplicate && (fate.Succeeds? || fate.Unacknowledged?), false))
      ensures Extends(group, old(stream.log), stream.log) && stream.log[k.batch[k.pos] - 1] == m
    {
      ghost var s := View(map[0 := k], map[]);
      if fate.NoConnection? {
        SoloFail(s, k, false);
        return Failed(false);
      }
      SoloClaim(s, k);
      if (group, m.eventId) in db.claims {
        return Returned;
      }
      ghost var w := k.(attempt := k.attempt + 1, phase := Working(false));
      outcome := Work(group, m, fate, w);
      ReachesTrans(s, With(s, w), View(map[0 := if outcome.Returned? then w.(phase := Settled)
                                                else AfterFailure(w, w.attempt, outcome.poison)], map[]));
    }

    /** `process_one`: bounded retries, then the dead-letter table. It always lets the offset advance. */
    method ProcessOne(group: Group, offset: nat, fates: Fates, ghost k: Worker)
      returns (advance: bool, ghost done: Worker)
      requires Solo(View(map[0 := k], map[]), k) && k.phase.Ready? && k.attempt == 0
      requires k.group == group && k.batch[k.pos] == offset
      modifies `db, stream`log
      ensures advance
      ensures done == k.(attempt := done.attempt, phase := Settled)
      ensures Reaches(old(View(map[0 := k], map[])), View(map[0 := done], map[]))
      ensures var key := (group, old(stream.log)[offset - 1].eventId);
              db == Judged(old(db), key, Judge(fates, offset, 0, key in old(db.claims)))
      ensures Extends(group, old(stream.log), stream.log)
    {
      hide Run;
      ghost var s, key := View(map[0 := k], map[]), (group, stream.log[offset - 1].eventId);
      ghost var effect := false;
      ReachesSelf(s);
      var m := stream.log[offset - 1];
      var attempt, poisoned := 0, false;
      done := k;
      while attempt < MAX_ATTEMPTS && !poisoned
        invariant attempt <= MAX_ATTEMPTS
        invariant done == k.(attempt := attempt,
                             phase := if poisoned || attempt >= MAX_ATTEMPTS then Failing else Ready)
        invariant Reaches(s, View(map[0 := done], map[]))
        invariant db == Judged(old(db), key, Verdict(effect, false))
        invariant effect ==> key !in old(db.claims)
        invariant Judge(fates, offset, 0, key in old(db.claims)) ==
                    Verdicts(fates, offset, attempt, key in db.claims, effect, poisoned)
        invariant Extends(group, old(stream.log), stream.log) && stream.log[offset - 1] == m
      {
        ghost var last, before := done, View(map[0 := done], map[]);
        attempt := attempt + 1;
        var outcome := Attempt(group, m, fates(offset, attempt), last);
        effect := key in db.claims && key !in old(db.claims);
        poisoned := outcome.Failed? && outcome.poison;
        done := if outcome.Returned? then last.(attempt := attempt, phase := Settled)
                else AfterFailure(last, attempt, outcome.poison);
        ReachesTrans(s, before, View(map[0 := done], map[]));
        if outcome.Returned? {
          return true, done;
        }
      }
      ghost var failing := View(map[0 := done], map[]);
      SoloDeadLetter(failing, done);
      db := db.(dead := db.dead + multiset{(group, m.eventId)});
      done := done.(phase := Settled);
      ReachesTrans(s, failing, View(map[0 := done], map[]));
      advance := true;
    }

    /** One message of a batch: process it, then commit its offset. */
    method Step(group: Group, offset: nat, fates: Fates, ghost k: Worker)
      requires Solo(View(map[0 := k], map[]), k) && k.phase.Ready? && k.attempt == 0
      requires k.group == group && k.batch[k.pos] == offset > stream.Offset(group, group.Topic())
      modifies `db, stream
      ensures Reaches(old(View(map[0 := k], map[])),
                      View(if k.pos + 1 == |k.batch| then map[] else map[0 := k.(pos := k.pos + 1)], map[]))
      ensures stream.offsets == old(stream.offsets)[(group, group.Topic()) := offset]
      ensures Extends(group, old(stream.log), stream.log)
      ensures db == JudgedNext(old(db), old(stream.log), group, offset, fates)
    {
      hide Run, Judge, Head, Waiting;
      ghost var s := View(map[0 := k], map[]);
      var advance; ghost var done;
      advance, done := ProcessOne(group, offset, fates, k);
      ghost var settled := View(map[0 := done], map[]);
      if advance {
        SoloAdvance(settled, done);
        stream.CommitOffset(group.Topic(), group, offset);
        ReachesTrans(s, settled, View(if k.pos + 1 == |k.batch| then map[] else map[0 := k.(pos := k.pos + 1)], map[]));
      }
    }

    /** The inner loop of `run`: one polled batch, an offset committed after each message. */
    method ProcessBatch(group: Group, batch: seq<nat>, fates: Fates)
      requires batch != [] && Ahead(stream.Offset(group, group.Topic()), batch, |stream.log|)
      modifies `db, stream
      ensures Reaches(old(View(map[0 := Worker(group, stream.Offset(group, group.Topic()),
                              batch, 0, 0, Ready)], map[])), Idle())
      ensures stream.offsets == old(stream.offsets)[(group, group.Topic()) := batch[|batch| - 1]]
      ensures Extends(group, old(stream.log), stream.log)
      ensures db == JudgedAll(old(db), old(stream.log), group, batch, fates)
    {
      hide Run, Judge, JudgedAll, JudgedNext, Head, Waiting;
      JudgedFrame(db, stream.log, group, batch[..0], fates);
      assert batch[..|batch|] == batch;
      ghost var first := Worker(group, stream.Offset(group, group.Topic()), batch, 0, 0, Ready);
      ghost var s := View(map[0 := first], map[]);
      ReachesSelf(s);
      for i := 0 to |batch|
        invariant Reaches(s, View(if i == |batch| then map[] else map[0 := first.(pos := i)], map[]))
        invariant stream.offsets == if i == 0 then old(stream.offsets)
                                    else old(stream.offsets)[(group, group.Topic()) := batch[i - 1]]
        invariant Extends(group, old(stream.log), stream.log)
        invariant db == JudgedAll(old(db), old(stream.log), group, batch[..i], fates)
      {
        ghost var before, tables := View(map[0 := first.(pos := i)], map[]), db;
        JudgedPush(old(db), old(stream.log), stream.log, group, batch, i, fates);
        assert Solo(before, first.(pos := i)) && (i > 0 ==> batch[i - 1] < batch[i]);
        Step(group, batch[i], fates, first.(pos := i));
        ReachesTrans(s, before, View(if i + 1 == |batch| then map[] else map[0 := first.(pos := i + 1)], map[]));
      }
    }

    /** One round of `run`: poll, and process what came back. */
    method Round(group: Group, limit: nat, fates: Fates) returns (count: nat)
      requires limit > 0
      modifies `db, stream
      ensures Reaches(old(Idle()), Idle())
      ensures Consumed(group, fates, old(AsFeed(group)), AsFeed(group), count)
      ensures count == var all := |old(Waiting(stream.log, group.Topic(), stream.Offset(group, group.Topic())))|;
                       if limit < all then limit else all
      ensures count == 0 ==> AtHead(group)
      ensures stream.offsets == if count == 0 then old(stream.offsets)
                                else old(stream.offsets)[(group, group.Topic()) := AsFeed(group).at]
    {
      hide Run, JudgedAll, Head, Waiting, Poll, Extends, Reaches;
      ghost var s, before, topic := Idle(), AsFeed(group), group.Topic();
      PolledBatch(stream.log, topic, before.at, limit);
      var batch := stream.PollBatch(group.Topic(), group, limit);
      if batch == [] {
        ReachesSelf(s);
        ConsumedNone(group, fates, before);
        return 0;
      }
      SoloPoll(s, group, limit);
      ghost var polled := View(map[0 := Worker(group, before.at, batch, 0, 0, Ready)], map[]);
      ProcessBatch(group, batch, fates);
      ReachesTrans(s, polled, Idle());
      count := |batch|;
    }

    /** `run(once=True)`: whatever goes wrong on the way, it ends with the group at the head. */
    method Drain(group: Group, limit: nat, fates: Fates) returns (processed: nat)
      requires limit > 0
      modifies `db, stream
      ensures Reaches(old(Idle()), Idle())
      ensures AtHead(group)
      ensures var all := Waiting(old(stream.log), group.Topic(), old(stream.Offset(group, group.Topic())));
              processed == |all| && db == JudgedAll(old(db), old(stream.log), group, all, fates)
      ensures db == old(db).(claims := db.claims, effects := db.effects, dead := db.dead)
      ensures (forall o, n :: fates(o, n).Succeeds?) ==> db.dead == old(db).dead
      ensures forall g: Group | g != group :: OffsetOf(Idle(), g) == old(OffsetOf(Idle(), g))
      ensures Extends(group, old(stream.log), stream.log)
    {
      hide Run, JudgedAll, Head, Waiting, Extends, Reaches, Consumed, InLog;
      ghost var s, x := Idle(), AsFeed(group);
      ghost var all := Waiting(x.log, group.Topic(), x.at);
      ReachesSelf(s);
      ConsumedNone(group, fates, x);
      processed := 0;
      while true
        invariant Reaches(s, Idle())
        invariant forall g: Group | g != group :: OffsetOf(Idle(), g) == old(OffsetOf(Idle(), g))
        invariant Consumed(group, fates, x, AsFeed(group), processed) && processed <= |all|
        decreases |all| - processed
      {
        ghost var before, y := Idle(), AsFeed(group);
        ConsumedRest(group, fates, x, y, processed);
        var count := Round(group, limit, fates);
        ReachesTrans(s, before, Idle());
        ConsumedMore(group, fates, x, y, AsFeed(group), processed, count);
        processed := processed + count;
        if count == 0 {
          break;
        }
      }
      ConsumedRest(group, fates, x, AsFeed(group), processed);
      ConsumedAll(group, fates, x, AsFeed(group), processed);
    }

    /** One publish; the relay learns whether it was acknowledged. */
    method TryPublish(landing: Landing, ghost y: Relay, row: OutboxRow) returns (acked: bool)
      requires !y.stopped && y.sent < |y.batch| && y.batch[y.sent] == row
      modifies stream`log
      ensures acked == landing.Acked?
      ensures stream.log == if landing.Lost? then old(stream.log) else old(stream.log) + [EventOf(row)]
      ensures Reaches(old(View(map[], map[0 := y])),
                      View(map[], map[0 := if acked then y.(sent := y.sent + 1) else y.(stopped := true)]))
    {
      ghost var s := View(map[], map[0 := y]);
      if landing.Acked? {
        RelaySends(s, y);
      } else {
        RelayStops(s, y, landing.Unsure?);
      }
      if !landing.Lost? {
        stream.Publish(EventOf(row));
      }
      acked := landing.Acked?;
    }

    /** The publishing loop of `relay_once`: in order, stopping at the first failure. */
    method Send(rows: seq<OutboxRow>, landing: nat -> Landing) returns (sent: nat)
      modifies stream`log
      ensures SentFirst(landing, rows, sent)
      ensures stream.log == Relayed(landing, old(stream.log), rows, sent)
      ensures Reaches(old(View(map[], map[0 := Relay(rows, 0, false)])),
                      View(map[], map[0 := Relay(rows, sent, sent < |rows|)]))
    {
      hide Run;
      ghost var s, log := View(map[], map[0 := Relay(rows, 0, false)]), stream.log;
      ReachesSelf(s);
      sent := 0;
      while sent < |rows|
        invariant sent <= |rows|
        invariant forall i | 0 <= i < sent :: landing(i).Acked?
        invariant stream.log == Sent(log, rows, sent)
        invariant Reaches(s, View(map[], map[0 := Relay(rows, sent, false)]))
      {
        ghost var before := View(map[], map[0 := Relay(rows, sent, false)]);
        var acked := TryPublish(landing(sent), Relay(rows, sent, false), rows[sent]);
        ReachesTrans(s, before, View(map[],
                    map[0 := if acked then Relay(rows, sent + 1, false) else Relay(rows, sent, true)]));
        if !acked {
          return;
        }
        sent := sent + 1;
      }
    }

    /** `relay_once`: claim a batch, send it, mark what was acknowledged. */
    method RelayOnce(limit: nat, landing: nat -> Landing) returns (published: nat, rows: seq<OutboxRow>)
      modifies `db, stream`log
      ensures rows == old(ClaimUnpublished(Idle(), limit)) && SentFirst(landing, rows, published)
      ensures stream.log == Relayed(landing, old(stream.log), rows, published)
      ensures db == old(db).(marked := old(db).marked + IdsOf(rows[..published]))
      ensures Reaches(old(Idle()), Idle())
    {
      ghost var s := Idle();
      rows := ClaimUnpublished(Idle(), limit);
      if rows == [] {
        ReachesSelf(s);
        return 0, [];
      }
      RelayTakes(s, limit);
      ghost var held := View(map[], map[0 := Relay(rows, 0, false)]);
      published := Send(rows, landing);
      ghost var y := Relay(rows, published, published < |rows|);
      ghost var sent := View(map[], map[0 := y]);
      ReachesTrans(s, held, sent);
      RelayMarks(sent, y);
      db := db.(marked := db.marked + IdsOf(rows[..published]));
      ReachesTrans(s, sent, Idle());
    }

    /** The relay's `run(once=True)`: passes until one publishes nothing. */
    method RelayAll(limit: nat, landing: (nat, nat) -> Landing) returns (total: nat, ghost passes: nat)
      requires limit > 0
      modifies `db, stream`log
      ensures Reaches(old(Idle()), Idle())
      ensures db == old(db).(marked := db.marked) && old(db).marked <= db.marked
      ensures passes <= total && forall pass | 0 <= pass < passes :: landing(pass, 0).Acked?
      ensures AllMarked(db) || !landing(passes, 0).Acked?
      ensures passes == 0 ==> total == 0 && db == old(db)
      ensures (forall pass, i :: !landing(pass, i).Unsure?) ==> |stream.log| == |old(stream.log)| + total
    {
      hide Run, Reaches, Relayed, ClaimUnpublished;
      ghost var s := Idle();
      ReachesSelf(s);
      total := 0;
      var pass := 0;
      while true
        invariant Reaches(s, Idle())
        invariant db == old(db).(marked := db.marked) && old(db).marked <= db.marked
        invariant pass <= total && forall p | 0 <= p < pass :: landing(p, 0).Acked?
        invariant pass == 0 ==> total == 0 && db == old(db)
        invariant (forall p, i :: !landing(p, i).Unsure?) ==> |stream.log| == |old(stream.log)| + total
        decreases IdsOf(db.outbox) - db.marked
      {
        ghost var before := Idle();
        var count, rows := RelayOnce(limit, (i: nat) => landing(pass, i));
        RelayedLength((i: nat) => landing(pass, i), before.log, rows, count);
        ReachesTrans(s, before, Idle());
        if count == 0 {
          if rows == [] {
            NothingClaimable(before, limit);
          }
          passes := pass;
          break;
        }
        assert rows[0] in rows && rows[0] in rows[..count];
        assert ((i: nat) => landing(pass, i))(0).Acked?;
        ClaimedIsOpen(before, limit);
        MarksShrink(before.outbox, before.marked, rows[..count], rows[0]);
        total := total + count;
        pass := pass + 1;
      }
    }

    /** `drain_all`: three passes over every stage. However the publishes and the attempts go, every
        group ends at the head of its topic; with every publish of one pass acknowledged, every committed
        event ends up handled or dead-lettered in both groups of the ledger topic, and every normalized
        one in the risk group. With no publish acknowledged nothing is marked, and if no attempt fails
        nothing is dead-lettered. */
    method DrainAll(limit: nat, landing: (nat, nat, nat) -> Landing, fates: (nat, Group) -> Fates)
      requires limit > 0
      modifies `db, stream
      ensures Reaches(old(Idle()), Idle())
      ensures AtHead(Webhooks) && AtHead(Normalizer) && AtHead(Risk)
      ensures old(S.DeliveryInv(Idle())) ==> S.DeliveryInv(Idle())
      ensures (forall n: nat | n < 3 :: NoneAcked(LandingIn(landing, n))) ==> db.marked == old(db).marked
      ensures (forall n: nat | n < 3 :: NoneFails(FatesIn(fates, n))) ==> db.dead == old(db).dead
      ensures old(S.DeliveryInv(Idle())) && old(db).past.open == {}
              && (exists n: nat | n < 3 :: AllAcked(LandingIn(landing, n))) ==>
                forall row | row in db.outbox ::
                  && S.Handled(Idle(), Webhooks, row.eventId) && S.Handled(Idle(), Normalizer, row.eventId)
                  && (row.described && (Normalizer, row.eventId) in db.claims ==>
                         S.Handled(Idle(), Risk, NormId(row.eventId)))
    {
      hide Run, Reaches, AllAcked, NoneAcked, NoneFails, LandingIn, FatesIn;
      ghost var s := Idle();
      ReachesSelf(s);
      for n := 0 to 3
        invariant Reaches(s, Idle())
        invariant n > 0 ==> AtHead(Webhooks) && AtHead(Normalizer) && AtHead(Risk)
        invariant (exists m: nat | m < n :: AllAcked(LandingIn(landing, m))) ==> AllMarked(db)
        invariant (forall m: nat | m < n :: NoneAcked(LandingIn(landing, m))) ==> db.marked == old(db).marked
        invariant (forall m: nat | m < n :: NoneFails(FatesIn(fates, m))) ==> db.dead == old(db).dead
      {
        ghost var before, tables := Idle(), db;
        Pass(limit, LandingIn(landing, n), FatesIn(fates, n));
        ReachesTrans(s, before, Idle());
        if AllMarked(tables) { StaysMarked(tables, db); }
      }
      if S.DeliveryInv(s) {
        ReachesKeepsInv(s, Idle());
        if AllMarked(db) && s.past.open == {} {
          assert AllMarked(db);
          HeadMeansHandled(Idle());
        }
      }
    }

    /** One pass of `drain_all`, in order of dependency. */
    method Pass(limit: nat, landing: (nat, nat) -> Landing, fates: Group -> Fates)
      requires limit > 0
      modifies `db, stream
      ensures Reaches(old(Idle()), Idle())
      ensures AtHead(Webhooks) && AtHead(Normalizer) && AtHead(Risk)
      ensures db.outbox == old(db).outbox && old(db).marked <= db.marked
      ensures AllAcked(landing) ==> AllMarked(db)
      ensures NoneAcked(landing) ==> db.marked == old(db).marked
      ensures NoneFails(fates) ==> db.dead == old(db).dead
    {
      hide Run, JudgedAll, Waiting, Reaches, AllMarked, Head, NoneFails;
      SucceedIn(fates, Webhooks);
      SucceedIn(fates, Normalizer);
      SucceedIn(fates, Risk);
      assert NoneAcked(landing) ==> !landing(0, 0).Acked?;
      ghost var s0 := Idle();
      var relayed, passes := RelayAll(limit, landing);
      ghost var s1, tables := Idle(), db;
      var fanned := Drain(Webhooks, limit, fates(Webhooks));
      ghost var s2 := Idle();
      ReachesTrans(s0, s1, s2);
      var normalized := Drain(Normalizer, limit, fates(Normalizer));
      ghost var s3 := Idle();
      ReachesTrans(s0, s2, s3);
      var scored := Drain(Risk, limit, fates(Risk));
      ReachesTrans(s0, s3, Idle());
      if AllMarked(tables) { StaysMarked(tables, db); }
    }
  }
}
