/** Delivery as a crash-prone step machine: relays move outbox rows to the log, workers claim,
    handle and acknowledge messages. Publishing happens outside the relay's transaction and offsets
    are committed outside the work transaction, so a crash can fall between any two actions. An
    action whose guard fails leaves the state alone.
    (src/ledgerflow/workers/outbox_relay.py, src/ledgerflow/workers/runner.py,
    src/ledgerflow/workers/normalizer.py, src/ledgerflow/stream/pg.py) */
module Delivery {
  import opened Seqs
  import opened Events
  import opened Stream

  const MAX_ATTEMPTS: nat := 3

  /** One `relay_once` in progress: the rows it locked and how many are in `sent`. */
  datatype Relay = Relay(batch: seq<OutboxRow>, sent: nat, stopped: bool)

  datatype Phase =
    | Ready                       // about to open a work transaction
    | Working(published: bool)    // claim inserted, handler running, nothing committed
    | Failing                     // out of attempts, or poisoned: to be dead-lettered
    | Settled                     // `process_one` returned True

  /** One worker in `run`: its batch, the message it is at and the attempts made on it. */
  datatype Worker = Worker(group: Group, after: nat, batch: seq<nat>, pos: nat, attempt: nat, phase: Phase)

  datatype State = State(
    outbox: seq<OutboxRow>,                // in the order rows became visible
    marked: set<nat>,                      // ids with published_at set
    relays: map<nat, Relay>,
    log: seq<Message>,
    offsets: map<(Group, Topic), nat>,
    claims: set<(Group, string)>,          // processed_events
    effects: multiset<(Group, string)>,    // handler effects that committed
    dead: multiset<(Group, string)>,       // dead_letters
    past: Past,
    workers: map<nat, Worker>)

  /** What replays did, kept as history: how often each claim was released, how many dead letters each
      replayed event had at its latest replay, and what a replay released without having moved the
      offset yet. No step below reads or changes it. */
  datatype Past = Past(released: multiset<(Group, string)>, stale: map<(Group, string), nat>,
                        open: set<(Group, string)>)

  const NO_REPLAY := Past(multiset{}, map[], {})
  const INITIAL := State([], {}, map[], [], map[], {}, multiset{}, multiset{}, NO_REPLAY, map[])

  datatype Action =
    | Append(row: OutboxRow)
    | RelayClaim(r: nat, limit: nat)
    | RelayPublish(r: nat)
    | RelayPublishFails(r: nat, landed: bool)
    | RelayMark(r: nat)
    | RelayCrash(r: nat)
    | PollBatch(w: nat, group: Group, limit: nat)
    | Claim(w: nat)
    | PublishNormalized(w: nat)
    | AttemptFails(w: nat, poison: bool)
    | WorkCommit(w: nat, acknowledged: bool)
    | DeadLetter(w: nat)
    | CommitOffset(w: nat)
    | WorkerCrash(w: nat)

  // ---- relay ----

  function RowId(): OutboxRow -> int { (row: OutboxRow) => row.id }

  predicate Locked(s: State, row: OutboxRow)
  {
    exists r :: r in s.relays && row in s.relays[r].batch
  }

  function Claimable(s: State): OutboxRow -> bool
  {
    (row: OutboxRow) => row.id !in s.marked && !Locked(s, row)
  }

  /** `claim_unpublished`: lowest unpublished ids first, skipping rows another relay holds. */
  function ClaimUnpublished(s: State, limit: nat): seq<OutboxRow>
  {
    Take(SortBy(Filter(s.outbox, Claimable(s)), RowId()), limit)
  }

  function EventOf(row: OutboxRow): Message { Message(LedgerEvents, row.eventId, row.txnId) }

  predicate Sending(s: State, r: nat)
  {
    r in s.relays && !s.relays[r].stopped && s.relays[r].sent < |s.relays[r].batch|
  }

  function IdsOf(rows: seq<OutboxRow>): set<nat> { set row | row in rows :: row.id }

  // ---- worker ----

  function OffsetOf(s: State, g: Group): nat { if (g, g.Topic()) in s.offsets then s.offsets[(g, g.Topic())] else 0 }

  predicate AtMessage(s: State, w: nat)
  {
    w in s.workers
    && var k := s.workers[w]; k.pos < |k.batch| && 1 <= k.batch[k.pos] <= |s.log|
  }

  function Current(s: State, w: nat): Message
    requires AtMessage(s, w)
  {
    s.log[s.workers[w].batch[s.workers[w].pos] - 1]
  }

  function Key(s: State, w: nat): (Group, string)
    requires AtMessage(s, w)
  {
    (s.workers[w].group, Current(s, w).eventId)
  }

  /** The transaction has a raw descriptor row. */
  predicate Described(outbox: seq<OutboxRow>, txnId: string)
  {
    exists row :: row in outbox && row.txnId == txnId && row.described
  }

  function NormId(eventId: string): string { eventId + ":norm" }

  /** Another worker's open transaction has inserted the same claim; ours waits for it. */
  predicate ClaimBlocked(s: State, w: nat)
    requires AtMessage(s, w)
  {
    exists v :: v in s.workers && v != w && s.workers[v].phase.Working? && AtMessage(s, v) && Key(s, v) == Key(s, w)
  }

  predicate MustPublish(s: State, w: nat)
    requires AtMessage(s, w)
  {
    s.workers[w].group == Normalizer && Described(s.outbox, Current(s, w).txnId)
  }

  function WithWorker(s: State, w: nat, k: Worker): State { s.(workers := s.workers[w := k]) }

  function AfterFailure(k: Worker, attempt: nat, poison: bool): Worker
  {
    k.(attempt := attempt, phase := if poison || attempt >= MAX_ATTEMPTS then Failing else Ready)
  }

  function Apply(s: State, a: Action): State
  {
    match a
    case Append(row) =>
      if exists x :: x in s.outbox && (x.id == row.id || x.eventId == row.eventId || x.txnId == row.txnId) then s
      else s.(outbox := s.outbox + [row])
    case RelayClaim(r, limit) =>
      var batch := ClaimUnpublished(s, limit);
      if r in s.relays || batch == [] then s else s.(relays := s.relays[r := Relay(batch, 0, false)])
    case RelayPublish(r) =>
      if !Sending(s, r) then s
      else
        var y := s.relays[r];
        s.(log := s.log + [EventOf(y.batch[y.sent])], relays := s.relays[r := y.(sent := y.sent + 1)])
    case RelayPublishFails(r, landed) =>
      if !Sending(s, r) then s
      else
        var y := s.relays[r];
        s.(log := if landed then s.log + [EventOf(y.batch[y.sent])] else s.log,
           relays := s.relays[r := y.(stopped := true)])
    case RelayMark(r) =>
      if r !in s.relays || Sending(s, r) then s
      else
        var y := s.relays[r];
        s.(marked := s.marked + IdsOf(Take(y.batch, y.sent)), relays := s.relays - {r})
    case RelayCrash(r) => s.(relays := s.relays - {r})
    case PollBatch(w, g, limit) =>
      var batch := Poll(s.log, g.Topic(), OffsetOf(s, g), limit);
      if w in s.workers || batch == [] then s
      else WithWorker(s, w, Worker(g, OffsetOf(s, g), batch, 0, 0, Ready))
    case WorkerCrash(w) => s.(workers := s.workers - {w})
    case Claim(w) => if AtMessage(s, w) then DoClaim(s, w) else s
    case PublishNormalized(w) => if AtMessage(s, w) then DoPublishNormalized(s, w) else s
    case AttemptFails(w, poison) => if AtMessage(s, w) then DoFail(s, w, poison) else s
    case WorkCommit(w, acknowledged) => if AtMessage(s, w) then DoWorkCommit(s, w, acknowledged) else s
    case DeadLetter(w) => if AtMessage(s, w) then DoDeadLetter(s, w) else s
    case CommitOffset(w) => if AtMessage(s, w) then DoCommitOffset(s, w) else s
  }

  /** `claim_event`: a committed claim means a duplicate, which is skipped. */
  function DoClaim(s: State, w: nat): State
    requires AtMessage(s, w)
  {
    var k := s.workers[w];
    if !k.phase.Ready? || k.attempt >= MAX_ATTEMPTS || ClaimBlocked(s, w) then s
    else WithWorker(s, w, k.(attempt := k.attempt + 1,
                        phase := if Key(s, w) in s.claims then Settled else Working(false)))
  }

  /** `Normalizer.handle` publishes before its own claim commits. */
  function DoPublishNormalized(s: State, w: nat): State
    requires AtMessage(s, w)
  {
    var k := s.workers[w];
    if k.phase != Working(false) || !MustPublish(s, w) then s
    else
      WithWorker(s, w, k.(phase := Working(true)))
      .(log := s.log + [Message(Normalized, NormId(Current(s, w).eventId), Current(s, w).txnId)])
  }

  /** The attempt raised: before the claim (no connection), or inside the handler. */
  function DoFail(s: State, w: nat, poison: bool): State
    requires AtMessage(s, w)
  {
    var k := s.workers[w];
    if k.phase.Working? then WithWorker(s, w, AfterFailure(k, k.attempt, poison))
    else if k.phase.Ready? && k.attempt < MAX_ATTEMPTS then WithWorker(s, w, AfterFailure(k, k.attempt + 1, false))
    else s
  }

  /** Claim and effect commit together. An unacknowledged commit looks like a failed attempt. */
  function DoWorkCommit(s: State, w: nat, acknowledged: bool): State
    requires AtMessage(s, w)
  {
    var k := s.workers[w];
    if !k.phase.Working? || (MustPublish(s, w) && !k.phase.published) then s
    else
      WithWorker(s, w, if acknowledged then k.(phase := Settled) else AfterFailure(k, k.attempt, false))
      .(claims := s.claims + {Key(s, w)}, effects := s.effects + multiset{Key(s, w)})
  }

  function DoDeadLetter(s: State, w: nat): State
    requires AtMessage(s, w)
  {
    var k := s.workers[w];
    if !k.phase.Failing? then s
    else WithWorker(s, w, k.(phase := Settled)).(dead := s.dead + multiset{Key(s, w)})
  }

  function DoCommitOffset(s: State, w: nat): State
    requires AtMessage(s, w)
  {
    var k := s.workers[w];
    if !k.phase.Settled? then s
    else
      var s' := s.(offsets := s.offsets[(k.group, k.group.Topic()) := Max(OffsetOf(s, k.group), k.batch[k.pos])]);
      if k.pos + 1 == |k.batch| then s'.(workers := s.workers - {w})
      else WithWorker(s', w, k.(pos := k.pos + 1, attempt := 0, phase := Ready))
  }

  ghost function Run(s: State, actions: seq<Action>): State
  {
    if actions == [] then s else Apply(Run(s, actions[..|actions| - 1]), actions[|actions| - 1])
  }
}
