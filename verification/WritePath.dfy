/** The write path as a transition system: one committed database and any number of open
    transactions, each with buffered writes, row locks and reserved unique keys. One action is one
    SQL statement of one transaction under READ COMMITTED. An action whose guard fails leaves the
    state alone: that is a statement blocked on a lock or a unique key, and `Abort` is always
    there for a lock timeout, a constraint violation, an exception or a crash.
    (src/ledgerflow/api/idempotency.py, src/ledgerflow/application/services.py,
    src/ledgerflow/adapters/repositories.py, migrations/001_core.sql) */
module WritePath {
  import opened Wrappers
  import opened Seqs
  import opened Ledger
  import opened Events

  type Chart = map<string, Account>

  // ---- committed rows ----

  /** Idempotency keys are scoped to the API key that sent them. */
  datatype KeyId = KeyId(apiKey: string, key: string)

  datatype Status = Posted | Reversed

  /** `key` is not a column: it records which keyed request, if any, the row came from. */
  datatype TxnRow = TxnRow(id: string, status: Status, reverses: Option<string>, key: Option<KeyId>)

  datatype EntryRow = EntryRow(id: nat, txnId: string, entry: Entry)

  /** The serialized transaction: the response body of a posting. */
  datatype Resource = Resource(txnId: string, rows: seq<EntryRow>)

  datatype KeyRow = InProgress(fp: string) | Completed(fp: string, body: Resource)

  datatype SnapRow = SnapRow(account: string, upTo: nat, balance: int)

  /** Tables are in commit order, which for `entries` need not be id order. */
  datatype Db = Db(txns: seq<TxnRow>, entries: seq<EntryRow>, outbox: seq<OutboxRow>,
                   keys: map<KeyId, KeyRow>, snaps: seq<SnapRow>)

  // ---- open transactions ----

  datatype Request =
    | Post(key: Option<KeyId>, fp: string, txnId: string, legs: seq<Entry>, described: bool)
    | Reverse(key: Option<KeyId>, fp: string, txnId: string, target: string)
    | Snapshots
  {
    function Key(): Option<KeyId> { if Snapshots? then None else key }
    function Target(): Option<string> { if Reverse? then Some(target) else None }
  }

  datatype Phase =
    | Started                       // transaction open
    | Conflicted                    // the claim found a committed row for the key
    | Ready                         // the slot is ours, or there is no key
    | Checking(todo: seq<string>)   // legs built; floored accounts still to check
    | Holding(todo: seq<string>)    // first of them locked, its balance not yet read
    | TxnInserted
    | EntriesInserted
    | Marked                        // the reversed transaction's status updated
    | Emitted                       // outbox row written
    | Finished                      // slot completed
    | Replaying(body: Resource)     // stored response handed back
    | Committed(body: Resource)     // durable, response not yet delivered

  datatype Flight = Flight(req: Request, phase: Phase, keyRow: Option<KeyRow>, locks: set<string>,
                           legs: seq<Entry>, rows: seq<EntryRow>, event: Option<OutboxRow>, snaps: seq<SnapRow>)
  {
    /** The transaction has a buffered `transactions` row. */
    predicate Inserted() { phase.TxnInserted? || HasRows() }
    predicate HasRows() { phase.EntriesInserted? || phase.Marked? || HasEvent() }
    predicate HasEvent() { phase.Emitted? || phase.Finished? }
    predicate Built() { phase.Checking? || phase.Holding? || Inserted() }
    /** Inside `with idempotent(...)`, past the claim and before the commit. */
    predicate Working() { phase.Ready? || Built() }
    predicate Claims(k: KeyId) { keyRow.Some? && req.Key() == Some(k) }
    function Body(): Resource requires !req.Snapshots? { Resource(req.txnId, rows) }
  }

  datatype Delivered = Delivered(key: Option<KeyId>, fp: string, body: Resource)

  datatype State = State(db: Db, flights: map<nat, Flight>, nextEntry: nat, nextOutbox: nat,
                         replies: seq<Delivered>)

  // ---- reads ----

  function SignedRow(normal: Direction, account: string): EntryRow -> int
  {
    (r: EntryRow) => SignedAmount(normal, account, r.entry)
  }

  function UpToRow(normal: Direction, account: string, cursor: nat): EntryRow -> int
  {
    (r: EntryRow) => if r.id <= cursor then SignedAmount(normal, account, r.entry) else 0
  }

  function TailRow(normal: Direction, account: string, cursor: nat): EntryRow -> int
  {
    (r: EntryRow) => if r.id > cursor then SignedAmount(normal, account, r.entry) else 0
  }

  /** `balance_of` over all committed entries: the definition of a balance. */
  function Balance(rows: seq<EntryRow>, a: Account): int
  {
    Sum(rows, SignedRow(a.NormalBalance(), a.id))
  }

  /** Newest snapshot of an account: `ORDER BY up_to_entry_id DESC LIMIT 1`. */
  function Newest(snaps: seq<SnapRow>, account: string): (r: Option<SnapRow>)
    ensures r.Some? ==> r.value in snaps && r.value.account == account
    ensures r.None? ==> forall x | x in snaps :: x.account != account
    ensures r.Some? ==> forall x | x in snaps && x.account == account :: x.upTo <= r.value.upTo
  {
    if snaps == [] then None
    else
      var front, last := snaps[..|snaps| - 1], snaps[|snaps| - 1];
      assert snaps == front + [last];
      var best := Newest(front, account);
      if last.account == account && (best.None? || last.upTo > best.value.upTo) then Some(last) else best
  }

  /** `AccountRepository.balance`: newest snapshot plus the entries after it. */
  function CachedBalance(db: Db, a: Account): int
  {
    var snap := Newest(db.snaps, a.id);
    var cursor := if snap.Some? then snap.value.upTo else 0;
    (if snap.Some? then snap.value.balance else 0) + Sum(db.entries, TailRow(a.NormalBalance(), a.id, cursor))
  }

  function MaxId(rows: seq<EntryRow>, account: string): (m: nat)
    ensures forall r | r in rows && r.entry.account == account :: r.id <= m
    ensures m > 0 ==> exists r :: r in rows && r.entry.account == account && r.id == m
  {
    if rows == [] then 0
    else
      var front, last := rows[..|rows| - 1], rows[|rows| - 1];
      assert rows == front + [last];
      var m := MaxId(front, account);
      if last.entry.account == account && last.id > m then last.id else m
  }

  function OfTxn(id: string): EntryRow -> bool { (r: EntryRow) => r.txnId == id }

  /** `for_transaction`: the entries of one transaction. */
  function RowsOf(rows: seq<EntryRow>, id: string): seq<EntryRow> { Filter(rows, OfTxn(id)) }

  function LegsOf(rows: seq<EntryRow>): (legs: seq<Entry>)
    ensures |legs| == |rows|
  {
    seq(|rows|, i requires 0 <= i < |rows| => rows[i].entry)
  }

  function TxnLegs(db: Db, id: string): seq<Entry> { LegsOf(RowsOf(db.entries, id)) }

  predicate HasTxn(txns: seq<TxnRow>, id: string) { exists i :: 0 <= i < |txns| && txns[i].id == id }

  predicate HasReversal(txns: seq<TxnRow>, id: string)
  {
    exists i :: 0 <= i < |txns| && txns[i].reverses == Some(id)
  }

  predicate StillPosted(txns: seq<TxnRow>, id: string)
  {
    exists i :: 0 <= i < |txns| && txns[i].id == id && txns[i].status == Posted
  }

  // ---- `_check_floors` ----

  function AccountsOf(legs: seq<Entry>): (r: seq<string>)
    ensures |r| == |legs|
  {
    seq(|legs|, i requires 0 <= i < |legs| => legs[i].account)
  }

  function Delta(ch: Chart, legs: seq<Entry>, account: string): int
    requires account in ch
  {
    Effect(legs, ch[account].NormalBalance(), account)
  }

  function MustCheck(ch: Chart, legs: seq<Entry>): string -> bool
  {
    (account: string) => account in ch && ch[account].floor.Some? && Delta(ch, legs, account) < 0
  }

  /** The accounts whose floor the posting must be checked against, in `deltas` order. */
  function ToCheck(ch: Chart, legs: seq<Entry>): seq<string>
  {
    Filter(Dedup(AccountsOf(legs)), MustCheck(ch, legs))
  }

  // ---- statements ----

  datatype Action =
    | Begin(t: nat, req: Request)
    | Claim(t: nat)
    | ReadKey(t: nat, leaseExpired: bool)
    | Build(t: nat)
    | Lock(t: nat)
    | ReadBalance(t: nat)
    | InsertTxn(t: nat)
    | InsertEntries(t: nat)
    | MarkReversed(t: nat)
    | Emit(t: nat, eventId: string)
    | Complete(t: nat)
    | Commit(t: nat)
    | Reply(t: nat)
    | ReadSnapshot(t: nat, account: string)
    | Abort(t: nat)
    | DropSnapshots(dropped: set<(string, nat)>)

  function Advance(s: State, t: nat, f: Flight): State { s.(flights := s.flights[t := f]) }

  function Drop(s: State, t: nat): State { s.(flights := s.flights - {t}) }

  predicate KeyReserved(s: State, t: nat, k: KeyId)
  {
    exists u :: u in s.flights && u != t && s.flights[u].Claims(k)
  }

  /** `IdempotencyRepository.claim`: insert the key, or find it committed, or block on its owner. */
  function DoClaim(s: State, t: nat, f: Flight): State
    requires !f.req.Snapshots?
  {
    match f.req.key
    case None => Advance(s, t, f.(phase := Ready))
    case Some(k) =>
      if k in s.db.keys then Advance(s, t, f.(phase := Conflicted))
      else if KeyReserved(s, t, k) then s
      else Advance(s, t, f.(phase := Ready, keyRow := Some(InProgress(f.req.fp))))
  }

  /** What `idempotent` does once the claim has conflicted. */
  function DoReadKey(s: State, t: nat, f: Flight, leaseExpired: bool): State
    requires !f.req.Snapshots?
  {
    if f.req.key.None? || f.req.key.value !in s.db.keys then Advance(s, t, f.(phase := Ready))
    else match s.db.keys[f.req.key.value]
         case Completed(fp, body) =>
           if fp == f.req.fp then Advance(s, t, f.(phase := Replaying(body))) else Drop(s, t)
         case InProgress(_) =>
           if leaseExpired then Advance(s, t, f.(phase := Ready, keyRow := Some(InProgress(f.req.fp)))) else Drop(s, t)
  }

  predicate ResolvedEntry(ch: Chart, e: Entry)
  {
    e.account in ch && ch[e.account].id == e.account && ch[e.account].currency == e.amount.currency
  }

  predicate Resolved(ch: Chart, legs: seq<Entry>)
  {
    forall e | e in legs :: ResolvedEntry(ch, e)
  }

  /** Resolve and build a posting, or read and mirror the original. A reversal skips the floors. */
  function DoBuild(ch: Chart, s: State, t: nat, f: Flight): State
    requires !f.req.Snapshots?
  {
    match f.req
    case Post(_, _, _, legs, _) =>
      if IsJournal(legs) && Resolved(ch, legs)
      then Advance(s, t, f.(phase := Checking(ToCheck(ch, legs)), legs := legs)) else s
    case Reverse(_, _, _, target) =>
      var original := TxnLegs(s.db, target);
      if StillPosted(s.db.txns, target) && IsJournal(original)
      then Advance(s, t, f.(phase := Checking([]), legs := ReversedAll(original))) else s
  }

  function DoLock(s: State, t: nat, f: Flight): State
    requires f.phase.Checking? && f.phase.todo != []
  {
    if exists u :: u in s.flights && u != t && f.phase.todo[0] in s.flights[u].locks then s
    else Advance(s, t, f.(phase := Holding(f.phase.todo), locks := f.locks + {f.phase.todo[0]}))
  }

  function DoReadBalance(ch: Chart, s: State, t: nat, f: Flight): State
    requires f.phase.Holding? && f.phase.todo != []
  {
    var account := f.phase.todo[0];
    if account !in ch || ch[account].floor.None? then s
    else if CachedBalance(s.db, ch[account]) + Delta(ch, f.legs, account) < ch[account].floor.value then Drop(s, t)
    else Advance(s, t, f.(phase := Checking(f.phase.todo[1..])))
  }

  /** The primary key and the unique index on `reverses_id`, committed or reserved. */
  predicate TxnFree(s: State, t: nat, f: Flight)
    requires !f.req.Snapshots?
  {
    && !HasTxn(s.db.txns, f.req.txnId)
    && (f.req.Reverse? ==> !HasReversal(s.db.txns, f.req.target))
    && forall u | u in s.flights && u != t && s.flights[u].Inserted() && !s.flights[u].req.Snapshots? ::
         && s.flights[u].req.txnId != f.req.txnId
         && (f.req.Reverse? ==> s.flights[u].req.Target() != f.req.Target())
  }

  function Number(first: nat, txnId: string, legs: seq<Entry>): (rows: seq<EntryRow>)
    ensures |rows| == |legs|
  {
    seq(|legs|, i requires 0 <= i < |legs| => EntryRow(first + i, txnId, legs[i]))
  }

  predicate EventFree(s: State, t: nat, eventId: string)
  {
    && (forall row | row in s.db.outbox :: row.eventId != eventId)
    && forall u | u in s.flights && u != t && s.flights[u].event.Some? :: s.flights[u].event.value.eventId != eventId
  }

  function DoEmit(s: State, t: nat, f: Flight, eventId: string): State
    requires !f.req.Snapshots?
  {
    var row := OutboxRow(s.nextOutbox, eventId, f.req.txnId, f.req.Post? && f.req.described);
    Advance(s, t, f.(phase := Emitted, event := Some(row))).(nextOutbox := s.nextOutbox + 1)
  }

  function DoComplete(s: State, t: nat, f: Flight): State
    requires !f.req.Snapshots?
  {
    Advance(s, t, f.(phase := Finished,
                     keyRow := if f.keyRow.Some? then Some(Completed(f.req.fp, f.Body())) else None))
  }

  function MarkedRows(txns: seq<TxnRow>, target: Option<string>): (r: seq<TxnRow>)
    ensures |r| == |txns|
  {
    seq(|txns|, i requires 0 <= i < |txns| =>
        if Some(txns[i].id) == target then txns[i].(status := Reversed) else txns[i])
  }

  function CommittedDb(db: Db, f: Flight): Db
    requires !f.req.Snapshots? && f.event.Some?
  {
    Db(MarkedRows(db.txns, f.req.Target()) + [TxnRow(f.req.txnId, Posted, f.req.Target(), f.req.key)],
       db.entries + f.rows,
       db.outbox + [f.event.value],
       if f.keyRow.Some? && f.req.key.Some? then db.keys[f.req.key.value := f.keyRow.value] else db.keys,
       db.snaps)
  }

  lemma CommittedTxns(db: Db, f: Flight)
    requires !f.req.Snapshots? && f.event.Some?
    ensures var n, txns := |db.txns|, CommittedDb(db, f).txns;
            && |txns| == n + 1
            && txns[n] == TxnRow(f.req.txnId, Posted, f.req.Target(), f.req.key)
            && (forall i | 0 <= i < n ::
                  txns[i].id == db.txns[i].id && txns[i].key == db.txns[i].key
                  && txns[i].reverses == db.txns[i].reverses
                  && txns[i].status == if f.req.Target() == Some(txns[i].id) then Reversed else db.txns[i].status)
  {
  }

  /** The deferred constraint trigger: every transaction touched balances in every currency. */
  predicate TriggerPasses(db: Db, f: Flight)
  {
    forall r | r in f.rows :: Balanced(LegsOf(RowsOf(db.entries + f.rows, r.txnId)))
  }

  predicate HasSnap(snaps: seq<SnapRow>, account: string, upTo: nat)
  {
    exists x :: x in snaps && x.account == account && x.upTo == upTo
  }

  /** `ON CONFLICT (account_id, up_to_entry_id) DO NOTHING`. */
  function AddSnaps(snaps: seq<SnapRow>, added: seq<SnapRow>): (r: seq<SnapRow>)
    ensures forall x | x in r :: x in snaps || (x in added && !HasSnap(snaps, x.account, x.upTo))
    ensures forall x | x in snaps :: x in r
    ensures forall x | x in added :: HasSnap(r, x.account, x.upTo)
  {
    if added == [] then snaps
    else
      var r, last := AddSnaps(snaps, added[..|added| - 1]), added[|added| - 1];
      assert added == added[..|added| - 1] + [last];
      if HasSnap(r, last.account, last.upTo) then r else r + [last]
  }

  function DoCommit(s: State, t: nat, f: Flight): State
  {
    if f.req.Snapshots? then
      Drop(s, t).(db := s.db.(snaps := AddSnaps(s.db.snaps, f.snaps)))
    else if f.event.Some? && TriggerPasses(s.db, f) then
      var done := Flight(f.req, Committed(f.Body()), None, {}, [], [], None, []);
      Advance(s, t, done).(db := CommittedDb(s.db, f))
    else s
  }

  function DoReply(s: State, t: nat, f: Flight): State
    requires !f.req.Snapshots? && (f.phase.Committed? || f.phase.Replaying?)
  {
    Drop(s, t).(replies := s.replies + [Delivered(f.req.key, f.req.fp, f.phase.body)])
  }

  /** `write_snapshot`: fold every committed entry of the account; nothing to write if it has none. */
  function DoReadSnapshot(ch: Chart, s: State, t: nat, f: Flight, account: string): State
  {
    var upTo := MaxId(s.db.entries, account);
    if account !in ch || upTo == 0 then s
    else Advance(s, t, f.(snaps := f.snaps + [SnapRow(account, upTo, Balance(s.db.entries, ch[account]))]))
  }

  function Kept(dropped: set<(string, nat)>): SnapRow -> bool
  {
    (r: SnapRow) => (r.account, r.upTo) !in dropped
  }

  function Apply(ch: Chart, s: State, a: Action): State
  {
    if a.Begin? then
      if a.t in s.flights then s else Advance(s, a.t, Flight(a.req, Started, None, {}, [], [], None, []))
    else if a.DropSnapshots? then s.(db := s.db.(snaps := Filter(s.db.snaps, Kept(a.dropped))))
    else if a.t !in s.flights then s
    else
      var t, f := a.t, s.flights[a.t];
      if a.Abort? then Drop(s, t)
      else if a.Commit? then if f.phase.Finished? || f.req.Snapshots? then DoCommit(s, t, f) else s
      else if a.ReadSnapshot? then if f.req.Snapshots? then DoReadSnapshot(ch, s, t, f, a.account) else s
      else if f.req.Snapshots? then s
      else Statement(ch, s, t, f, a)
  }

  /** One statement of a request, enabled only at its place in the program. */
  function Statement(ch: Chart, s: State, t: nat, f: Flight, a: Action): State
    requires !f.req.Snapshots?
  {
    match a
    case Claim(_) => if f.phase.Started? then DoClaim(s, t, f) else s
    case ReadKey(_, expired) => if f.phase.Conflicted? then DoReadKey(s, t, f, expired) else s
    case Build(_) => if f.phase.Ready? then DoBuild(ch, s, t, f) else s
    case Lock(_) => if f.phase.Checking? && f.phase.todo != [] then DoLock(s, t, f) else s
    case ReadBalance(_) => if f.phase.Holding? && f.phase.todo != [] then DoReadBalance(ch, s, t, f) else s
    case InsertTxn(_) =>
      if f.phase == Checking([]) && TxnFree(s, t, f) then Advance(s, t, f.(phase := TxnInserted)) else s
    case InsertEntries(_) =>
      if f.phase.TxnInserted? then
        Advance(s, t, f.(phase := EntriesInserted, rows := Number(s.nextEntry, f.req.txnId, f.legs)))
        .(nextEntry := s.nextEntry + |f.legs|)
      else s
    case MarkReversed(_) =>
      if f.phase.EntriesInserted? && f.req.Reverse? then Advance(s, t, f.(phase := Marked)) else s
    case Emit(_, eventId) =>
      if (if f.req.Reverse? then f.phase.Marked? else f.phase.EntriesInserted?) && EventFree(s, t, eventId)
      then DoEmit(s, t, f, eventId) else s
    case Complete(_) => if f.phase.Emitted? then DoComplete(s, t, f) else s
    case Reply(_) => if f.phase.Committed? || f.phase.Replaying? then DoReply(s, t, f) else s
    case _ => s
  }

  /** What a single statement can do: nothing to the database, and at most its own flight moves. */
  ghost predicate OnlyFlight(s: State, s': State, t: nat)
  {
    && s'.db == s.db
    && (s'.flights == s.flights - {t}
        || (t in s'.flights && s'.flights == s.flights[t := s'.flights[t]]))
  }

  ghost function Run(ch: Chart, s: State, actions: seq<Action>): State
  {
    if actions == [] then s
    else Apply(ch, Run(ch, s, actions[..|actions| - 1]), actions[|actions| - 1])
  }

  lemma {:induction false} RunConcat(ch: Chart, s: State, first: seq<Action>, second: seq<Action>)
    ensures Run(ch, s, first + second) == Run(ch, Run(ch, s, first), second)
  {
    if second == [] {
      assert first + second == first;
    } else {
      var front := second[..|second| - 1];
      assert (first + second)[..|first + second| - 1] == first + front;
      RunConcat(ch, s, first, front);
    }
  }

  const EMPTY_DB := Db([], [], [], map[], [])

  /** An empty system; `BIGSERIAL` counts from one. */
  const INITIAL := State(EMPTY_DB, map[], 1, 1, [])
}
