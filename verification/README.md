# LedgerFlow in Dafny

A model of LedgerFlow's ledger, its write path and its event delivery, with proofs of what they
promise together: under concurrent requests, lock waits, rollbacks, crashes between any two steps,
duplicates and replays.

Four machines and some smaller parts:

- `WritePath` is the write path as a transition system: one committed database and any number of
  open transactions with buffered writes, row locks and reserved keys, under READ COMMITTED. One
  action is one SQL statement. `KeyedRequests`, `Books`, `Snapshots`, `Floors` and `Conservation`
  prove invariants of every run. `Unhindered` runs a request to its end among open transactions that
  hold none of its locks, ids or keys, shows what it commits, and has the runs from the empty system
  in which a promise fails. `Service` is the request handlers as programs on that database, with other
  connections free to run between any two statements; each is proved to be a run of the machine.
- `Delivery` is the pipeline as a step machine: outbox, relays, append-only log, consumer groups with
  claims, effects, offsets and dead letters, and the second topic. `DeliverySafety` holds its
  invariants, `TwoStage` the second topic in terms of postings, `RelayOrder` the order of the topic,
  `Replay` replays. `Workers` is the relay, the retry loop, the polling loop and `drain_all` as
  programs, proved to be runs of the machine.
- `EndToEnd` joins the two machines at the outbox table.
- `Ledger` and `Posting` are the domain: entries, balanced transactions, reversal, posting rules.
- `RateLimit`, `Ulid`, `Pagination`, `Timeline`, `Fitting` and `CardPayoffs` are the token buckets,
  the id generator, cursor pages and the two timeline passes of the load generator.

`Seqs` (sums, filters, stable sort), `Wrappers` and `Events` are shared.

Where the code and its comments disagree, the model follows the code:

- Entry ids can become visible out of order, so a snapshot can step over an uncommitted lower id.
  `Unhindered.SnapshotStepsOver` is a run from the empty system in which it does and the cached balance
  is wrong. `Snapshots.CacheAgrees` holds under the condition that rules this out, and
  `Snapshots.ReconcileIsExact` says exactly when the cache is wrong, without any condition.
- `reverse_transaction` checks no floor. `Floors.ReversalCommitIff` says exactly when its commit keeps
  the floors, among any other open transactions: each floored account can take it, alone and together
  with every posting that has passed its own check. `Floors.FloorsHold` is about all runs whose
  reversals meet that; `Floors.UnfitReversalBreaks` and `Unhindered.ReversalBreaksFloor` show what
  happens otherwise.
- `reverse_transaction` rebuilds the original without its `reverses_id`, so a reversal can itself be
  reversed. `Ledger.Reverse` has the guard, `Books.ChainNet` describes the chains that result.
- The lease takeover in `idempotent` is not reachable (`KeyedRequests.TakeoverUnreachable`).
- A worker in mid-batch can undo a seek with its next offset commit. `Replay.ReplaySafeIff` says
  exactly which groups can be replayed without losing events, and `Replay.UnquietReplay` is a run from
  the empty system that loses one. The handler also commits the deletion of the claims before it
  seeks: `Replay.CutOffSkipsTheRange` says what a crash between the two costs, and
  `Replay.RepeatRepairs` that repeating the request repairs it.
- The Postgres rate limiter charges refused requests. Once in full debt, a client at a fixed pace is
  refused for ever exactly when a pause earns no more than a request costs
  (`RateLimit.PostgresStarvesIff`), and a burst is enough to get there (`RateLimit.BurstThenStarved`).
- The reset time is cut to a whole second, so a retry at the second the script advertises is refused
  unless nothing was cut off (`RateLimit.LuaResetIff`, `RateLimit.LuaResetCanBeTooEarly`); a second
  later it is always admitted. What the fallback advertises leaves out the debt and is too early every
  time (`RateLimit.PostgresResetIsTooEarly`).
- When a script ran but its reply was lost, the request is charged to Redis and to Postgres
  (`RateLimit.RateLimiter.Check`).

Run `dafny verify dfyconfig.toml` to check everything.

## Model

| member | source | states |
|---|---|---|
| Ledger.NewEntry | src/ledgerflow/domain/ledger.py:87-104 | an entry is constructed exactly when its amount is positive and its currency one of the four supported, and which error says otherwise |
| Ledger.NewJournal | src/ledgerflow/domain/ledger.py:127-157 | a transaction is accepted exactly when it has two entries or more and debits equal credits in every currency; otherwise which of the two errors is raised |
| Ledger.BalancedIn | src/ledgerflow/domain/ledger.py:140-157 | the check per occurring currency implies zero drift in every currency |
| Ledger.Total | src/ledgerflow/domain/ledger.py:162-171 | the accumulated table is the specification table |
| Ledger.TotalsMeaning | src/ledgerflow/domain/ledger.py:162-171 | the table lists exactly the currencies moved on that side, each with the sum of its entries |
| Ledger.TotalsAgree | src/ledgerflow/domain/ledger.py:162-171 | debit and credit totals of a transaction are the same table |
| Ledger.ReversalNegates | src/ledgerflow/domain/ledger.py:106-108 | mirrored entries have the opposite effect on every account and opposite drift in every currency |
| Ledger.ReversalKeepsJournal | src/ledgerflow/domain/ledger.py:173-192 | the mirror of a balanced transaction is balanced, and mirroring twice gives the original |
| Ledger.Reverse | src/ledgerflow/domain/ledger.py:173-192 | refused exactly for a reversal; otherwise the balanced mirror that points back |
| Ledger.BalanceOf | src/ledgerflow/domain/ledger.py:195-207 | the loop is the account's debits minus credits for assets and expenses and the reverse for the other types, and fails exactly on a foreign currency |
| Ledger.BalanceByType | src/ledgerflow/domain/ledger.py:49-55 | the signed fold, type by type: assets and expenses grow by debits; liabilities, equity and revenue by credits |
| Posting.SimpleBalances | src/ledgerflow/domain/posting.py:109-114 | two-legged rules build balanced transactions |
| Posting.KindsMove | src/ledgerflow/domain/posting.py:117-185 | which account gains and which pays under each two-legged rule, in terms of their types |
| Posting.KindsAre | src/ledgerflow/domain/posting.py:117-185 | the kinds that have a two-legged rule |
| Posting.SplitBalances | src/ledgerflow/domain/posting.py:188-217 | the allocation check is what makes a split balance |
| Posting.PartsLegal | src/ledgerflow/domain/posting.py:198-204 | reading the parts in order finds an error exactly when some part is not legal |
| Posting.ExpenseRoles | src/ledgerflow/domain/posting.py:188-197 | an expense role is any role with the prefix |
| Posting.BuildSplit | src/ledgerflow/domain/posting.py:188-217 | succeeds exactly on legal splits, with one debit per part and one credit for the whole; otherwise the first error in reading order |
| Posting.BuildTransaction | src/ledgerflow/domain/posting.py:71-94 | succeeds exactly when the rule's own conditions hold; then count and balance checks hold already and never raise; otherwise the rule's own error |
| WritePath.Newest | src/ledgerflow/adapters/repositories.py:140-172 | the snapshot used is one of the account's with the greatest cursor, if it has any |
| WritePath.MaxId | src/ledgerflow/adapters/repositories.py:208-231 | the cursor is the greatest committed entry id of the account |
| WritePath.AddSnaps | src/ledgerflow/adapters/repositories.py:208-231 | inserting snapshots keeps the existing ones, stores one for every new account and cursor, and adds none for a cursor already stored |
| WritePath.CommittedTxns | src/ledgerflow/adapters/repositories.py:341-374 | a commit appends the transaction's row, posted, and marks exactly the reversed transaction; every other row stays |
| KeyedRequests.FirstCommitDecides | src/ledgerflow/api/idempotency.py:71-181 | over every run: no committed key row is in progress, each key has exactly one committed posting, and all successes for a key carry the same fingerprint and the stored body |
| KeyedRequests.RegisterStep | src/ledgerflow/adapters/repositories.py:700-771 | the committed keys are a write-once register: a step leaves them alone, or is a commit that decides one new key together with one posting |
| KeyedRequests.DecidedOnce | src/ledgerflow/adapters/repositories.py:718-771 | no statement changes a key row once it is committed |
| KeyedRequests.CommitWritesKey | src/ledgerflow/api/idempotency.py:56-68 | a commit stores exactly the claimed key, completed with the response, and leaves the others |
| KeyedRequests.TakeoverUnreachable | src/ledgerflow/api/idempotency.py:130-181 | in every run a conflicted claim replays the stored body or rejects another fingerprint, whatever the lease says |
| KeyedRequests.RetryReplays | src/ledgerflow/api/idempotency.py:139-155 | retrying a decided key, after any run, delivers the stored body or nothing and leaves the database as it was |
| KeyedRequests.RunKeepsKeys | src/ledgerflow/api/idempotency.py:71-181 | the register invariant holds through every run, and decided keys keep their row |
| Books.EveryLedger | src/ledgerflow/application/services.py:206-387 | over every run: ids are unique, every transaction is a balanced one, reversals mirror earlier transactions at most once each, exactly those are marked reversed, and there is one outbox row per transaction |
| Books.TriggerIff | migrations/001_core.sql:140-170 | the trigger passes exactly when the entries of every touched transaction, old and new, cancel in every currency |
| Books.TriggerRefuses | migrations/001_core.sql:140-170 | a commit that would leave an unbalanced transaction changes nothing |
| Books.TriggerNeverFires | migrations/001_core.sql:140-170 | the deferred balance trigger passes for everything the services built, in every run, and the commit goes through |
| Books.CommitKeepsReversals | src/ledgerflow/application/services.py:346-387 | a commit keeps the reversal table consistent: mirrored entries, at most one reversal each, status in step |
| Books.ReversalIsLater | src/ledgerflow/application/services.py:364-387 | a reversal commits after its target and mirrors its entries |
| Books.ReversalIsUnique | migrations/001_core.sql:93-93 | two committed reversals of one transaction are the same row |
| Books.ChainsAreAcyclic | src/ledgerflow/application/services.py:364-387 | following reversals never returns to a transaction |
| Books.ChainNet | src/ledgerflow/application/services.py:364-387 | a chain nets to its first transaction or to nothing, by the parity of its length, for every account |
| Snapshots.CacheAgrees | src/ledgerflow/adapters/repositories.py:140-172 | over every run of postings, reversals, deletions and safely taken snapshots, newest snapshot plus tail is the fold of all committed entries |
| Snapshots.CacheError | src/ledgerflow/adapters/repositories.py:208-231 | a snapshot plus its tail misses exactly the entries committed later with ids at or below its cursor |
| Snapshots.SnapshotsDropped | src/ledgerflow/adapters/repositories.py:140-172 | deleting snapshots removes the named ones and nothing else |
| Snapshots.ReconcileIsExact | src/ledgerflow/adapters/repositories.py:282-317 | over every run, reconcile reports an account exactly when its cached read is wrong, which is when the newest snapshot stepped over entries that do not cancel |
| Snapshots.UnsafeSnapshotBreaks | src/ledgerflow/adapters/repositories.py:208-231 | from any state in which a snapshot is taken over a finished posting's lower ids, the cached balance is wrong once that posting commits, and reconcile reports it |
| Unhindered.SnapshotStepsOver | src/ledgerflow/adapters/repositories.py:208-231 | a run from the empty system that brings this about: two postings numbered one after the other, the later committed, a snapshot, then the earlier |
| Floors.Deltas | src/ledgerflow/application/services.py:182-186 | the dictionary loop yields the touched accounts in order of first occurrence and the delta table |
| Floors.DeltaTableIsEffect | src/ledgerflow/application/services.py:182-186 | the table holds each touched account's net signed effect over all legs |
| Floors.AccountsToCheck | src/ledgerflow/application/services.py:188-193 | exactly the floored accounts that go down, in dictionary order |
| Floors.DrawnIsListed | src/ledgerflow/application/services.py:182-193 | an account the posting draws on is never left out of the check |
| Floors.CommitMoves | src/ledgerflow/adapters/repositories.py:451-484 | a commit moves each balance by the posting's delta |
| Floors.FloorsHold | src/ledgerflow/application/services.py:171-203 | no write skew: from any opening ledger at its floors, over every interleaving of postings, safely taken snapshots and reversals that fit, each floored account stays at or above its floor |
| Floors.WithoutReversals | src/ledgerflow/application/services.py:171-203 | runs without reversals meet the condition on them |
| Floors.ReversalCommitIff | src/ledgerflow/application/services.py:350-387 | among any open transactions, the commit of a reversal keeps the floor invariant if and only if each floored account can take it, alone and together with each posting that has passed its check |
| Floors.TakesBack | src/ledgerflow/application/services.py:350-387 | what a reversal does to an account is the opposite of what its target's committed entries did |
| Floors.UnfitReversalBreaks | src/ledgerflow/application/services.py:350-387 | a reversal that leaves too little for a posting about to commit, and then that posting, end below the floor |
| Conservation.BooksBalance | src/ledgerflow/adapters/repositories.py:319-334 | after every run debits equal credits per currency, and account balances signed by normal side cancel |
| Conservation.AccountingEquation | src/ledgerflow/adapters/repositories.py:319-334 | after every run, in every currency, assets plus expenses equal liabilities plus equity plus revenue |
| Conservation.TableBalanceByType | src/ledgerflow/domain/ledger.py:195-207 | the balance over table rows is debits minus credits or credits minus debits, by account type |
| Conservation.SidedBalancesAreDrift | src/ledgerflow/adapters/repositories.py:319-334 | summing signed balances over the chart of accounts gives the global drift |
| Unhindered.PostCommitsIff | src/ledgerflow/application/services.py:206-294 | a well-formed posting, keyed or not, that no open transaction holds up leaves one transaction, its entries, one event, its key and one reply exactly when each account it draws on can bear it, and nothing otherwise |
| Unhindered.AllChecks | src/ledgerflow/application/services.py:188-203 | the checks pass exactly when every listed account can bear its delta, and leave the locks held |
| Unhindered.ReversalCommits | src/ledgerflow/application/services.py:350-387 | a reversal, keyed or not, that no open transaction holds up commits the mirror whatever the balances are |
| Unhindered.ReversalFloorIff | src/ledgerflow/application/services.py:350-387 | right after such a reversal an account is at its floor if and only if it could give back what the original gave |
| Unhindered.ReversalBreaksFloor | src/ledgerflow/application/services.py:350-387 | a run from the empty system, two postings and a reversal, that ends below a floor |
| Service.UnitOfWork.CheckFloors | src/ledgerflow/application/services.py:171-203 | with others running in between, a passed check means every listed account is locked, and wherever the floor invariant holds each floored account that goes down can take its delta; a failed one, that a listed account is locked elsewhere or too low; and undisturbed it passes exactly if neither is the case at the start |
| Service.UnitOfWork.Write | src/ledgerflow/application/services.py:265-294 | the inserts and the event carry the built legs; it fails only for an id, an event id or a reversal target that is taken |
| Service.UnitOfWork.PostTransaction | src/ledgerflow/application/services.py:206-294 | success means a balanced, resolved posting that has passed its floor checks, with its entries and its event buffered, and nothing committed yet; failure, that one of the reasons to refuse it holds |
| Service.UnitOfWork.ReverseTransaction | src/ledgerflow/application/services.py:350-387 | success means the mirror of the target's own committed entries is buffered with its event; failure, that the target is not posted or an id is taken |
| Service.Slot.Complete | src/ledgerflow/api/idempotency.py:49-68 | the slot remembers the response and the key row is completed with it in the same transaction |
| Service.ClaimSlot | src/ledgerflow/api/idempotency.py:86-136 | the claim leaves the key ours, or blocked by the transaction that has it, or conflicting with its row |
| Service.OpenSlot | src/ledgerflow/api/idempotency.py:71-181 | the answer is exactly what the tables say at its end: proceed if the key is free, in flight if another transaction has claimed it, refused if it was used with another body, replayed if it was decided for this one |
| Service.ReadSlot | src/ledgerflow/api/idempotency.py:138-181 | after a conflict: replay the stored body to the same fingerprint, refuse another, and pass over a row in progress only once its lease has expired |
| Service.ReplaySlot | src/ledgerflow/api/idempotency.py:145-155 | a replayed slot holds the stored response, which is delivered |
| Service.Finish | src/ledgerflow/api/idempotency.py:71-97 | leaving the block commits exactly once and then delivers the response, which is the transaction in the tables |
| Service.HandleRequest | src/ledgerflow/api/idempotency.py:71-181 | whatever runs in between, a created reply comes from exactly one commit and any other from none; a created body is the committed transaction row for row, the requested legs or the mirror of the target's entries, and is stored under the key; a decided key replays or is refused; in flight and key reuse are answered exactly when the tables say so, and a refusal only for a reason that holds; undisturbed, it succeeds exactly when the key is open and no reason to refuse holds |
| Service.UnhinderedSucceeds | src/ledgerflow/application/services.py:171-294 | where nothing stands in the way, the reasons to refuse a well-formed posting come down to an account that cannot bear its delta, and a reversal of a posted transaction has none |
| Stream.PollIsConsecutive | src/ledgerflow/stream/pg.py:58-83 | a poll returns the next messages of the topic above the offset, none left out |
| Stream.PollIsFirst | src/ledgerflow/stream/pg.py:58-83 | a poll returns as many of the waiting messages as asked for, the first ones |
| Stream.WaitingMeaning | src/ledgerflow/stream/pg.py:58-83 | a message waits for a group exactly if it is on the topic above the offset |
| Stream.PollEmptyAtHead | src/ledgerflow/stream/pg.py:58-83 | an empty poll means nothing is above the offset |
| Stream.HeadIsLast | src/ledgerflow/stream/pg.py:124-130 | the head is the last message of the topic |
| Stream.PostgresStream.PollBatch | src/ledgerflow/stream/pg.py:58-83 | the scan returns exactly the specified batch |
| Stream.PostgresStream.CommitOffset | src/ledgerflow/stream/pg.py:85-96 | the stored offset never goes down and no other offset moves |
| DeliverySafety.NothingTwiceNothingSkipped | src/ledgerflow/workers/runner.py:80-163 | over every run with any number of relays and workers: one effect per claim and group, everything at or below an offset claimed or dead-lettered, marked rows on the topic, nothing on a topic without a committed row |
| DeliverySafety.NothingLost | src/ledgerflow/workers/outbox_relay.py:28-58 | once a row is marked and a group at the head, the event is handled or dead-lettered there |
| DeliverySafety.TwoStageDelivery | src/ledgerflow/workers/normalizer.py:21-74 | a committed normalizer claim of a described posting has its successor on the second topic, for which the risk group commits at most one effect |
| TwoStage.SuccessorsDiffer | src/ledgerflow/workers/normalizer.py:56-56 | distinct events have distinct successors |
| TwoStage.OneToOne | src/ledgerflow/workers/normalizer.py:51-56 | on the second topic there is one id per transaction and one transaction per id |
| TwoStage.OneScorePerPosting | src/ledgerflow/workers/normalizer.py:21-74 | over every run, with risk at the head and nothing dead-lettered there: as many effects as described postings that came through, exactly one each and none shared, and every posting the normalizer has claimed came through |
| DeliverySafety.NeverBack | src/ledgerflow/stream/pg.py:85-96 | offsets, log, claims and dead letters never move back |
| DeliverySafety.CrashForgets | src/ledgerflow/workers/runner.py:131-163 | a crash forgets what the process held, and neither what it published nor anything committed nor the other processes |
| DeliverySafety.HandledToNext | src/ledgerflow/workers/runner.py:148-157 | acknowledging the next message of a batch leaves no unhandled message below the offset |
| DeliverySafety.WorkCommitKeepsTables | src/ledgerflow/workers/runner.py:92-97 | claim and effect commit together, so effects and claims stay in step |
| DeliverySafety.RunKeepsDelivery | src/ledgerflow/workers/runner.py:80-163 | the delivery invariant holds through every run |
| RelayOrder.TopicFollowsOutbox | src/ledgerflow/workers/outbox_relay.py:32-56 | with one relay and rows visible in id order, the topic without repeats is a prefix of the outbox, and so are the marked rows, through publish failures and crashes |
| RelayOrder.PublishKeepsPrefix | src/ledgerflow/workers/outbox_relay.py:36-52 | publishing the row behind the sent ones, first time or again, keeps the prefix |
| RelayOrder.ClaimIsLowest | src/ledgerflow/adapters/repositories.py:556-572 | in any state, with any relays at work, the claim is the lowest unpublished rows that no relay holds, in id order, as many as asked for |
| RelayOrder.OneRelayPerRow | src/ledgerflow/adapters/repositories.py:556-572 | no two relays hold the same row, in any run |
| EndToEnd.NoLossNoDoubleEffect | src/ledgerflow/application/services.py:265-294 | over every run of requests and deliveries: one event per committed transaction, at most one effect per group, and none unhandled once all rows are marked and the group is at the head |
| EndToEnd.NothingInvented | src/ledgerflow/application/services.py:309-327 | every effect in every group stems from a committed transaction |
| EndToEnd.WriteAppends | src/ledgerflow/adapters/repositories.py:527-554 | a statement adds at most one outbox row, under new transaction, event and row ids |
| EndToEnd.WritesAlone | src/ledgerflow/application/services.py:265-294 | delivery never gets in the way of requests: in a joint run the write side is where its own statements alone would leave it |
| EndToEnd.DeliversAlone | src/ledgerflow/workers/outbox_relay.py:28-58 | from any point of a joint run, relays and workers can do all that they could do to those tables alone |
| Workers.JudgeMeaning | src/ledgerflow/workers/runner.py:86-128 | a new message takes effect exactly when an attempt commits before a poisoned one, a claimed one never does, and nothing passes without a claim or a dead letter |
| Workers.DeadLetterMeaning | src/ledgerflow/workers/runner.py:86-128 | a new message is dead-lettered exactly when an attempt gives up before any commits, when all come to nothing, or when one commits and none after it learns of it |
| Workers.ThreeAttempts | src/ledgerflow/config.py:34-34 | three attempts: success at the third counts, a third failure is the last |
| Workers.AllSucceed | src/ledgerflow/workers/runner.py:131-163 | if every attempt succeeds, each polled event is claimed, takes effect once if it was new, and none is dead-lettered |
| Workers.Pipeline.Handle | src/ledgerflow/workers/normalizer.py:21-74 | the normalizer publishes one successor for a described posting, under the event id with its suffix, and no consumer writes to the ledger topic |
| Workers.Pipeline.Work | src/ledgerflow/workers/runner.py:92-98 | claim and effect are both stored or both rolled back |
| Workers.Pipeline.Attempt | src/ledgerflow/workers/runner.py:90-118 | one attempt: a duplicate is skipped, a failure leaves no trace in the tables, and the step is a run of the machine |
| Workers.Pipeline.ProcessOne | src/ledgerflow/workers/runner.py:80-128 | bounded retries then dead letter, with exactly the verdict's claim, effect and dead letter, and the offset may always advance |
| Workers.Pipeline.ProcessBatch | src/ledgerflow/workers/runner.py:148-161 | the batch ends with the offset at its last message and each message judged in order, and is a run of the machine |
| Workers.Pipeline.Drain | src/ledgerflow/workers/runner.py:131-163 | terminates with the group at the head: every message above the old offset judged once, in order, and counted, whatever the attempts do, and other groups' offsets left alone |
| Workers.Pipeline.Send | src/ledgerflow/workers/outbox_relay.py:36-54 | the leading acknowledged rows are published in order and nothing past the first failure, which may itself have been stored |
| Workers.Pipeline.RelayOnce | src/ledgerflow/workers/outbox_relay.py:28-58 | exactly the acknowledged rows of the claimed batch are marked |
| Workers.Pipeline.RelayAll | src/ledgerflow/workers/outbox_relay.py:61-69 | terminates with every row marked, or in the first pass whose first publish was not acknowledged, having counted what it published |
| Workers.Pipeline.DrainAll | src/ledgerflow/workers/__init__.py:35-51 | every group ends at its head; with every publish of one of the three passes acknowledged every committed event is handled or dead-lettered in every group; with none acknowledged nothing is marked, and if no attempt fails nothing is dead-lettered |
| Replay.RangeMeaning | src/ledgerflow/api/routers/resources.py:315-324 | the deleted claims are exactly the group's events published in the range |
| Replay.ReleaseKeepsInv | src/ledgerflow/api/routers/resources.py:304-318 | deleting the claims of the range, before any seek, keeps the delivery invariant, whoever is running |
| Replay.ReplayKeepsInv | src/ledgerflow/api/routers/resources.py:295-324 | a replayable group can be replayed from any offset it has passed while everything else goes on |
| Replay.ReplayDelivers | src/ledgerflow/api/routers/resources.py:304-324 | after a replay, its two steps with any run between them, and any further run: at most one more effect per event, none for claimed events outside the range, and at the head every event of the range handled or dead-lettered anew |
| Replay.ReplaySafeIff | src/ledgerflow/api/routers/resources.py:295-324 | no run can bring the group to the head with an event of the range unhandled if and only if no worker of the group has a message of the range behind it that does not come again further on |
| Replay.ReplayLoses | src/ledgerflow/stream/pg.py:85-122 | for a worker that has such a message behind it, a run that reaches the head with that event released and never handled |
| Replay.UnquietReplay | src/ledgerflow/api/routers/resources.py:295-324 | a run from the empty system that loses an event to a replay |
| Replay.OnlyTheRange | src/ledgerflow/api/routers/resources.py:304-324 | an id not published above the new offset is not handled again, claimed or not |
| Replay.CutOffSkipsTheRange | src/ledgerflow/api/routers/resources.py:304-324 | after a crash between deletion and seek the offset stands, and released events that are not published again are never handled again |
| Replay.RepeatRepairs | src/ledgerflow/api/routers/resources.py:304-324 | after such a crash and any run, repeating the request covers the whole range of the first, and at the head all of it is handled or dead-lettered anew |
| Replay.BusyWorkerUndoesSeek | src/ledgerflow/stream/pg.py:85-122 | a worker that has settled a message past the new offset moves the group back up over released, unhandled events |
| Replay.Create | src/ledgerflow/api/routers/resources.py:295-328 | the handler deletes the claims of the range and then seeks, unless it dies in between, and reports the head |
| Replay.CreateAndDrain | src/ledgerflow/workers/runner.py:131-163 | replay then drain ends at the head with every event of the range handled anew and nothing else touched |
| RateLimit.PostgresRefinesLua | src/ledgerflow/api/ratelimit.py:88-124 | on the same arrivals the fallback holds at most the script's tokens and admits nothing the script would refuse |
| RateLimit.ExpiryIsInvisible | src/ledgerflow/api/ratelimit.py:35-44 | key expiry changes neither a decision nor the bucket |
| RateLimit.TtlCovers | src/ledgerflow/api/ratelimit.py:44-44 | the time to live is twice the filling time, up to rounding, and so long enough to fill an empty bucket |
| RateLimit.RateBound | src/ledgerflow/api/ratelimit.py:19-47 | over any stretch of any run, each limiter admits at most a full bucket plus what was earned meanwhile |
| RateLimit.AdmittedSplits | src/ledgerflow/api/ratelimit.py:19-47 | what is admitted adds up over stretches, request by request |
| RateLimit.PostgresRecovers | src/ledgerflow/api/ratelimit.py:88-124 | after twice the cost's refill time the fallback admits from any state it can reach |
| RateLimit.PostgresStarves | src/ledgerflow/api/ratelimit.py:88-124 | from full debt it refuses a client at the refill rate for ever, whatever the pauses |
| RateLimit.PostgresStarvesIff | src/ledgerflow/api/ratelimit.py:88-124 | from full debt, at a fixed pace, every request is refused if and only if a pause earns no more than a request costs |
| RateLimit.BurstThenStarved | src/ledgerflow/api/ratelimit.py:88-124 | a burst on a fresh key reaches full debt, and the client that then keeps to the refill rate is refused every time |
| RateLimit.LuaServes | src/ledgerflow/api/ratelimit.py:19-47 | the script serves a client at the refill rate in full from an empty bucket |
| RateLimit.LuaRetryIff | src/ledgerflow/api/ratelimit.py:126-133 | after a refusal the script admits a retry exactly from the instant the formula gives before truncation |
| RateLimit.LuaResetIff | src/ledgerflow/api/ratelimit.py:126-133 | a retry at the advertised second is admitted if and only if that instant is a whole second; one second later is always enough |
| RateLimit.LuaResetCanBeTooEarly | src/ledgerflow/api/ratelimit.py:126-133 | a run from a fresh key in which the retry at the advertised second is refused |
| RateLimit.PostgresRetryIff | src/ledgerflow/api/ratelimit.py:126-133 | after a refusal the fallback is in debt, and admits a retry exactly once debt and cost are earned |
| RateLimit.PostgresResetIsTooEarly | src/ledgerflow/api/ratelimit.py:126-133 | a retry at the second the fallback advertises is refused every time |
| RateLimit.RateLimiter.constructor | src/ledgerflow/api/ratelimit.py:58-62 | a bucket holds a minute of requests and is refilled in a minute |
| RateLimit.RateLimiter.RunScript | src/ledgerflow/api/ratelimit.py:19-47 | the script's statements, expiry included, are the specified step on that key |
| RateLimit.RateLimiter.CheckPg | src/ledgerflow/api/ratelimit.py:88-124 | the upsert is the specified step on that row |
| RateLimit.RateLimiter.Check | src/ledgerflow/api/ratelimit.py:75-86 | an answered script charges Redis alone, one that did not run Postgres alone, and one whose reply was lost both, with Postgres deciding; the decision is to admit exactly when the stored tokens, grown since, cover the cost, with the whole tokens left and the second of the next one |
| Ulid.EncodeDigits | src/ledgerflow/ids.py:24-29 | the shifting loop produces the specified digits |
| Ulid.AlphabetIs | src/ledgerflow/ids.py:19-21 | the symbols are the digits and capital letters without I, L, O and U |
| Ulid.DecodeEncode | src/ledgerflow/ids.py:24-29 | reading an encoding back gives the value modulo 32 to the length |
| Ulid.LessIsTotal | src/ledgerflow/ids.py:67-67 | the order on ids: of two strings one is less or they are the same, and a proper prefix is less |
| Ulid.IdBits | src/ledgerflow/ids.py:32-32 | fifty bits of milliseconds and eighty of randomness |
| Ulid.EncodeOrder | src/ledgerflow/ids.py:24-29 | encodings compare and coincide exactly as the values modulo 32 to the length |
| Ulid.TickGrows | src/ledgerflow/ids.py:48-65 | the stamp grows at every call: equal clock, backward clock, exhausted randomness |
| Ulid.IdTime | src/ledgerflow/ids.py:48-67 | a later clock reading becomes the id's time; otherwise the last time stays, or gains a millisecond when the random part is exhausted |
| Ulid.TimeIsLatest | src/ledgerflow/ids.py:48-67 | over a run no id is older than a reading before it, and while no random part runs out its time is the latest reading |
| Ulid.IdOrder | src/ledgerflow/ids.py:67-67 | ids compare as their stamps, with milliseconds modulo 2 to the 50 |
| Ulid.IdsStrictlyIncrease | src/ledgerflow/ids.py:48-67 | for any clock readings below the limit each id is greater than every earlier one |
| Ulid.NextIsGreaterIff | src/ledgerflow/ids.py:48-67 | exactly when an id is greater than the one before it, at any timestamp |
| Ulid.IdsWrap | src/ledgerflow/ids.py:24-29 | past 2 to the 50 milliseconds the next id sorts before the last |
| Ulid.Generator.Next | src/ledgerflow/ids.py:38-67 | one call advances the module's state by the specified tick and returns that stamp's id |
| Pagination.PageIsNext | src/ledgerflow/api/routers/resources.py:155-167 | a page is the next rows below the cursor, newest first, none left out, and has_more is exact |
| Pagination.NoSkipNoRepeat | src/ledgerflow/adapters/repositories.py:376-396 | whatever is inserted between requests, ids come strictly descending, and at the end every row of the first table has come exactly once |
| Pagination.WalkEnds | src/ledgerflow/api/routers/resources.py:155-167 | with insertions above the cursor the walk ends as soon as its pages could carry the first table |
| Pagination.WalkEndsIff | src/ledgerflow/api/routers/resources.py:155-167 | with rows only inserted, the walk is over after n requests if and only if the rows that stood below the cursor fit on n pages, and it has then returned exactly those |
| Pagination.InsertionsBelowKeepGoing | src/ledgerflow/api/routers/resources.py:155-167 | for every page size and number of requests, a growing table on which the walk is not over |
| Timeline.ShapedPosts | src/ledgerflow/loadgen.py:116-340 | every event the generator makes posts, as one debit and one credit |
| Timeline.ShapedMoves | src/ledgerflow/loadgen.py:440-460 | the passes' arithmetic on checking and on the card is the ledger's |
| Fitting.FitToChecking | src/ledgerflow/loadgen.py:411-485 | the loop with its branches is the specified fold |
| Fitting.FitIsSound | src/ledgerflow/loadgen.py:430-485 | the running balance is checking's ledger balance on the output, every non-rent outflow leaves the buffer, and checking stays non-negative if and only if every rent fits |
| Fitting.FitAdapts | src/ledgerflow/loadgen.py:430-485 | the output is the input in order with nothing shrunk, moved or dropped without need, and shrunk no more than needed |
| Fitting.MovedToCard | src/ledgerflow/loadgen.py:481-482 | a purchase moved to the card adds its amount to what is owed there, spares checking and is otherwise the same |
| Fitting.RentIs | src/ledgerflow/loadgen.py:475-479 | rent is a purchase paid to the account of that name |
| CardPayoffs.WithCardPayoffs | src/ledgerflow/loadgen.py:343-408 | the walk and its inner loops are the specified fold, then sorted |
| CardPayoffs.PaymentMeaning | src/ledgerflow/loadgen.py:371-377 | a payment in full clears what is owed; another is its fraction of it in whole minor units, and at least one |
| CardPayoffs.PayoffsAreSound | src/ledgerflow/loadgen.py:360-408 | the final sort is the identity, the events keep stable time order, the carried balance is the card's ledger balance, each payment lies between one and what is owed, and a due date has one exactly if something is owed |
| Seqs.SortIsStable | src/ledgerflow/loadgen.py:380-407 | sorting by time keeps the order of ties |
| Timeline.GeneratedIsShaped | src/ledgerflow/loadgen.py:116-340 | every form of event that the generator makes has the shape the other results assume |

## Left out

- HTTP, authentication, request signing, schemas, serializers and the dashboard.
- Resolving account references, account creation and account status, tenants and modes: a request
  carries resolved account ids, and the chart of accounts is fixed during a run.
- Parsing of amounts and of the split metadata string: parts arrive as a role and an optional integer.
- The registry of posting rules and the text of errors.
- Fraud screening (`_screen`, `record_decline`): a declined posting is an aborted transaction.
- Timestamps of postings, `balance_at` and historical reads.
- Partition keys and `_primary_account`: the Postgres log has one order, so they decide nothing.
- Shared key locks taken by foreign keys: without them the model allows more interleavings, so the
  safety results still hold.
- Lock timeouts and deadlocks appear as aborts of the waiting transaction.
- `purge_expired`, `redrive`, `cmd_reset` and `set_config` are not steps of the machines.
- The history of replays (released claims, dead letters at the time of a replay, keys whose seek is
  still to come) is bookkeeping of the model that no step reads; the `replays` audit row itself is not
  modelled.
- Replay.Create: reads the head and deletes the claims in one step, so a message published between the
  two counts as part of the range.
- Stream offsets are allocated and committed together, so gaps and late offsets in
  `stream_messages` are not modelled.
- Kafka and `publish_batch`.
- Ledger messages of other event types, and messages whose payload has no transaction: the write path
  emits none. A poisoned attempt stands for any handler that gives up.
- Descriptor cleaning, merchant resolution, features, Spark jobs and webhook dispatch.
- The signal handler of the workers: stopping between two messages is a worker crash of the machine;
  `Workers.Pipeline.Drain` runs to the end.
- The snapshot pass at the end of `drain_all`, its webhook dispatch, and the counts it reports.
- Floating point: tokens, seconds and payment fractions are reals. Redis truncating the tokens in the
  script's reply to an integer is not modelled; it only makes the advertised reset later.
- A limiter whose calls alternate between Redis and Postgres: each store is bounded on its own.
- The random choices of `_timeline` and the calendar of due dates: events, due dates and draws are
  inputs; due dates are strictly ascending.
- The one transaction in which `generate` posts a whole history.
- Pagination over the event listing, which has no `has_more`; ids are integers with their order.
