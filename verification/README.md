# Paylab and FakeBank: verified models

Paylab moves money between Wallets through a double-entry ledger. FakeBank is the provider it is
exercised against. This project models the parts of both that are hard to get right and proves them,
for every input and every interleaving.

## How the models work

**Settlement (`Ledger`, `Protocol`, `ProtocolInvariant`, `SerialEquivalence`, `EffectOrder`,
`Deadlock`, `CrossedTransfers`, `Totals`).** A database is committed tables; every open transaction has a private write
buffer and the locks it holds until it ends. A statement runs when the locks it needs are free, on a
fresh snapshot: committed data plus the transaction's own writes. COMMIT publishes the buffer and
frees the locks at once; a rollback may come before any statement. `Step` executes one action and
`Run` folds a sequence of actions, so a theorem about `Run(cfg, actions)` for all `actions` is about
every reachable state of any number of Settlements. One state machine covers the production mechanism
and the three compared with it: `FOR UPDATE`, an advisory lock and an optimistic version check.
`Ledger.SettleAll` is the sequential rule they are all proved against. What is taken from PostgreSQL:
per-statement snapshots, the row-lock conflict table, unique keys and atomic commit. No trigger is
relied on.

**The same statements, in place (`SettlementDatabase`, `Settlement`, `Strategies`, `PaymentSubmitter`,
`PaymentEntity`).** A class holds the tables and has one method per SQL statement. Its `trace`
records the statements of all transactions, and its invariant says that it is in the state
`Run(cfg, trace)`, so whatever is proved about runs holds of the object. `Settle`, `AttemptOnce`, the
retry loop and the submission flow are methods that call these statements in the order of the source;
at every `await`, arbitrary statements of other transactions and faults are let in.

**Submission (`Submission`, `Idempotency`, `Rejection`, `Recovery`).** Requests are processes over the
Settlement machine, with validation, the unique (Merchant, key) insert, replays, and a crash, a broken
connection or a rollback possible at every step.

**Demo data (`DemoPlan`, `DemoSeed`).** The plan replays the sequential rule in memory; the seed
writes it; the closing queries check it.

**FakeBank (`ProviderTransaction`, `FakeBank`, `FakeBankInvariant`, `FakeBankSteps`,
`FakeBankCommits`, `FakeBankProperties`, `FakeBankProgress`, `FakeBankDatabase`).** Creation with
Simulation Scenarios and the advance decision, as interleaved statements, with a death possible at every
one, also between a COMMIT and its answer; then the same statements and services in place.

**Artifacts (`Utf8`, `Splitting`, `Lines`, `Artifact`, `SanitizingLines`).** Bytes, UTF-8 as in
RFC 3629 with malformed input replaced by U+FFFD, the chunk walk, and the streaming sanitizer.

**Pagination (`Keyset`, `PaymentListQuery`, `Base64Url`, `Cursor`, `CursorWalk`).** Pages, a client's
walk over a table that grows meanwhile, by positions and by the cursors it is sent, the list query with its numbered parameters, and opaque cursors with
base64url as in section 5 of RFC 4648.

**Benchmarks (`RunRecord`, `RunLifecycle`, `Canonical`, `Trend`, `Timeline`).** Runs on disk, written
by a process that may die before any write; record comparison; the trend and its drawing.

## What turned out not to hold

- Deadlock freedom is not a matter of lock order alone: with `FOR UPDATE` instead of
  `FOR NO KEY UPDATE` two crossed transfers reach a wait cycle. `CrossedTransfers.DeadlockIffForUpdate`
  gives the exact condition.
- The streamed Artifact is the line-by-line sanitized text exactly when the text does not end with a
  newline (and is not empty) or the sanitizer keeps an empty line empty:
  `SanitizingLines.StreamIsSanitized`.
- Chunks of well-formed text never cut a character if and only if the limit is at least four bytes:
  `Artifact.BoundariesIffFour`; the limits one, two and three all cut the same five-byte file.
- Two Runs that start in the same second on the same commit have the same id. A Run that comes to its
  end is refused if and only if, when it was started, a Summary or a state already had the id its
  start time gives: the outcome `AlreadyPublished` of `RunLifecycle.Machine.RunBenchmark`. The Summary
  that was there is kept, and the state of the refused Run stays. `RunLifecycle.SameNameTwice` is such
  a pair of Runs.

- A deferred Provider Transaction that is decided need not have a request that was answered so: the one
  that decided it may die between its COMMIT and its answer (`FakeBankProperties.DecidedAndNobodyTold`).
  What holds is said of the request that decided the row, whether or not it was answered:
  `FakeBankProperties.OneWinner`.
- Having the key and the fingerprint of a stored Payment does not protect a request from being turned
  away: a public request that names the clearing Account as its source has those of a funding, and is
  turned away when it comes first (`Rejection.TwinTurnedAway`). A request is turned away only if it fails
  the checks itself, and never if it repeats the request the Payment was made from:
  `Rejection.SameRequestIsServed`.

## Model

| member | source | states |
|---|---|---|
| `SerialEquivalence.SerialEquivalence` | paylab-api/src/infra/database/repositories/prisma-settlement.ts:26-102 | in every reachable state of any interleaving, with rollbacks anywhere, the settled Payments have an order in which the sequential rule gives the same statuses and exactly the committed ledger |
| `EffectOrder.OrderedByEffect` | paylab-api/src/infra/database/repositories/prisma-settlement.ts:26-102 | that order can be taken by the moment each Payment took effect: one that was in effect for good at some point of the run comes before every one that was not |
| `EffectOrder.TakesEffectAt` | paylab-api/src/infra/database/repositories/prisma-settlement.ts:66-102 | a Payment takes effect at the COMMIT of its success or at the locked Balance read of its refusal, and at no other statement |
| `EffectOrder.RealTime` | paylab-api/src/infra/database/repositories/prisma-settlement.ts:26-102 | a Payment settled before the Settlement of another one began comes before it in every such order |
| `SerialEquivalence.NoOverdraft` | paylab-api/src/infra/database/repositories/prisma-settlement.ts:51-94 | in every reachable state every Wallet's committed Balance is at least 0 and all signed entries sum to 0, under each of the four mechanisms |
| `SerialEquivalence.ExactlyOnce` | paylab-api/src/infra/database/repositories/prisma-settlement.ts:28-101 | SUCCEEDED Payments and Ledger Transactions are in bijection, each with one DEBIT and one CREDIT of the Payment's amount and no entry besides; PROCESSING is never committed |
| `SerialEquivalence.HistoryGrows` | paylab-api/src/infra/database/repositories/prisma-settlement.ts:28-46 | over any continuation of any run, a terminal Payment never changes again, no Payment disappears, and entries are only appended |
| `SerialEquivalence.OnlyCommitsPublish` | paylab-api/bench/exp/strategies/strategies.ts:127-138 | no action but an insert and a COMMIT changes committed data |
| `SerialEquivalence.VersionCountsDebits` | paylab-api/bench/exp/strategies/strategies.ts:80-130 | with the optimistic mechanism, a Wallet's committed version is the number of its committed debits |
| `Ledger.SequentialSafety` | paylab-api/src/infra/database/repositories/prisma-settlement.ts:66-94 | the sequential rule itself never overdraws a Wallet and keeps the sum of all entries at 0 |
| `ProtocolInvariant.StepKeeps` | paylab-api/src/infra/database/repositories/prisma-settlement.ts:26-108 | every statement of every transaction keeps the protocol invariant: buffers match the statement they are at, held locks are exclusive, and past the funds check the committed Balance still covers the amount |
| `Deadlock.NeverDeadlocked` | paylab-api/src/infra/database/repositories/prisma-settlement.ts:51-64 | without FOR UPDATE, no reachable state has a wait cycle |
| `Deadlock.SomeoneCanStep` | paylab-api/src/infra/database/repositories/prisma-settlement.ts:51-64 | while any transaction is open, some open transaction is not blocked |
| `Deadlock.StepWorks` | paylab-api/src/infra/database/repositories/prisma-settlement.ts:26-102 | every statement that runs, and every rollback, uses up remaining work, and nothing but a new Settlement adds any |
| `Deadlock.Drains` | paylab-api/src/infra/database/repositories/prisma-settlement.ts:26-102 | from every reachable state some order of the pending statements, no longer than the remaining work, ends every transaction |
| `CrossedTransfers.DeadlockIffForUpdate` | paylab-api/src/infra/database/repositories/prisma-settlement.ts:51-64 | a mechanism has a run that deadlocks if and only if it is FOR UPDATE |
| `CrossedTransfers.CrossedTransfersDeadlock` | paylab-api/bench/exp/strategies/strategies.ts:66-73 | with FOR UPDATE, transfers 1 to 2 and 2 to 1 reach a wait cycle through the foreign key's KEY SHARE |
| `CrossedTransfers.CreditsNeverWait` | paylab-api/src/infra/database/repositories/prisma-settlement.ts:56-60 | without FOR UPDATE, inserting ledger entries never waits: a credit is not blocked behind a debit of its Wallet |
| `SettlementDatabase.Database.SelectBalance` | paylab-api/src/infra/database/repositories/prisma-settlement.ts:66-75 | the Balance and the version come from one snapshot of committed entries and the transaction's own; which branch is open next depends on the comparison with the amount |
| `SettlementDatabase.Database.Commit` | paylab-api/src/infra/database/repositories/prisma-settlement.ts:26-108 | COMMIT makes exactly the write buffer visible, closes the transaction with the row it wrote, and is one step of the protocol |
| `Settlement.Settle` | paylab-api/src/infra/database/repositories/prisma-settlement.ts:23-109 | whatever runs in between, an answered Payment is terminal and stored as answered, with its two entries if it SUCCEEDED; a rejection names the terminal status found; an error means that nothing remains, or, if the reply to COMMIT can get lost, that the Payment is settled and stored; alone, the verdict is that of the funds check on the Balance before |
| `Settlement.UnsettledChangedNothing` | paylab-api/bench/exp/strategies/strategies.ts:134-138 | a transaction that ended other than by its COMMIT changed the database at none of its statements |
| `Strategies.AttemptOnce` | paylab-api/bench/exp/strategies/strategies.ts:41-139 | one attempt ends by its COMMIT, with the stored Payment in the status it reports, or leaves nothing; only an error for a lost reply may stand for a COMMIT that succeeded, and then the Payment is stored and terminal; a version conflict is only reported by the optimistic mechanism for a Wallet |
| `Strategies.SettleWithRetries` | paylab-api/bench/exp/strategies/strategies.ts:142-180 | attempts equal recorded aborts plus one unless EXHAUSTED, which is exactly after 50 aborts; the aborted attempts are as many different new transactions for this Payment, none of which ever committed; the reported outcome is the stored status |
| `PaymentEntity.SettlementFollowsEntity` | paylab-api/src/domain/paylab/enterprise/entities/payment.ts:128-146 | whatever a Settlement is about to commit is the stored Payment taken through startProcessing and then succeed or fail |
| `PaymentEntity.Entity.MarkSucceeded` | paylab-api/src/domain/paylab/enterprise/entities/payment.ts:132-138 | only PROCESSING succeeds; a refusal changes nothing; the statuses so far are always a prefix of CREATED, PROCESSING and one terminal status |
| `PaymentEntity.Entity.MarkFailed` | paylab-api/src/domain/paylab/enterprise/entities/payment.ts:140-146 | only PROCESSING fails, with the reason kept; a refusal changes nothing |
| `Idempotency.OneOutcomePerKey` | paylab-api/src/domain/paylab/application/services/payment-submitter.ts:39-90 | over all interleavings with crashes: at most one Payment per (Merchant, key); every request answered with a Payment got that one, terminal, as stored, and only with its fingerprint; another fingerprint was rejected and left no row and no Settlement |
| `Idempotency.AnswersAreFinal` | paylab-api/src/domain/paylab/application/services/payment-submitter.ts:77-90 | an answer, once given, is unchanged in every continuation |
| `Idempotency.FallThroughsUnreachable` | paylab-api/src/domain/paylab/application/services/payment-submitter.ts:60-89 | a lost race always finds the winner's row, a Settlement its Payment, and a rejected Settlement finds it terminal |
| `Idempotency.RejectionChangesNothing` | paylab-api/src/domain/paylab/application/use-cases/create-payment.ts:47-97 | the step that answers a reused key or a validation error changes no table and no transaction |
| `Idempotency.ValidatedInsertable` | paylab-api/src/domain/paylab/enterprise/entities/payment.ts:93-121 | a request that passes amount, currency, ownership and entity checks can only be refused by the key |
| `Rejection.SameRequestIsServed` | paylab-api/src/domain/paylab/application/use-cases/create-payment.ts:47-97 | over all interleavings, a request with the key and fingerprint of a stored Payment is answered with that Payment or an error; it is turned away only for a check it fails itself, and never when it repeats the request the Payment was made from |
| `Rejection.TwinTurnedAway` | paylab-api/src/domain/paylab/application/use-cases/create-payment.ts:47-77 | a run in which a public request is turned away although a funding with its key and fingerprint is stored, for any fingerprint function |
| `Recovery.StrandedPaymentIsFinished` | paylab-api/src/domain/paylab/application/services/payment-submitter.ts:23-29 | a request arrives with the key and fingerprint of a stored Payment, in any reachable state and whatever became of the request that stored it: once the open transactions have ended, which takes no more events than there is work left, the request, left alone, is answered with that Payment, terminal and as a replay |
| `Recovery.SubmissionsSerializable` | paylab-api/src/domain/paylab/application/use-cases/fund-wallet-from-clearing.ts:38-89 | serial equivalence, double entry and non-negative Balances hold of the whole system of requests, public and funding |
| `PaymentSubmitter.Create` | paylab-api/src/infra/database/repositories/prisma-payments-repository.ts:27-40 | the row is inserted exactly when the (Merchant, key) pair is free, and otherwise nothing changes |
| `PaymentSubmitter.Resume` | paylab-api/src/domain/paylab/application/services/payment-submitter.ts:77-90 | what is returned is the stored, terminal Payment with the same immutable data; a terminal Payment is returned as it is |
| `PaymentSubmitter.Submit` | paylab-api/src/domain/paylab/application/services/payment-submitter.ts:57-74 | whatever the others do, an answer is the one terminal Payment of the key for the same request, new or replayed; KeyReused only when another request holds the key, and then no row was inserted; alone, the new Payment gets the verdict of the funds check |
| `DemoPlan.PlanDemoData` | paylab-api/scripts/demo/plan.ts:79-156 | for all random choices: eight Wallets and 174 events in time order within the window, every amount positive and source different from destination, every status the one the Balance before it implies, and the running balances equal to what the events imply |
| `DemoPlan.PlanIsSerialRun` | paylab-api/scripts/demo/plan.ts:122-153 | the plan's statuses are the verdicts the sequential Settlement rule gives the same requests |
| `DemoPlan.LegalPlanSafe` | paylab-api/scripts/demo/plan.ts:122-153 | after every prefix of a legal plan every Wallet is at least 0 and all signed entries sum to 0 |
| `DemoPlan.Conservation` | paylab-api/scripts/demo/plan.ts:122-153 | the Balances of a legal plan sum to its total funding |
| `DemoSeed.WrittenBalances` | paylab-api/scripts/demo/apply.ts:104-196 | the ledger written for a plan gives every Wallet the Balance the plan gave it |
| `DemoSeed.SeedingIsSound` | paylab-api/scripts/demo/apply.ts:202-225 | written on top of sound books, a plan leaves sound books: the sum is 0, no Wallet is negative, and the new Wallets have exactly the plan's Balances |
| `DemoSeed.DemoDatabase.FindInvariantViolations` | paylab-api/scripts/demo/apply.ts:202-225 | the list is empty exactly when the invariants hold of the stored rows |
| `DemoSeed.DemoDatabase.ApplyDemoSeed` | paylab-api/scripts/demo/apply.ts:35-52 | a second seeding is refused with nothing changed; a first one writes the plan and reports no violation |
| `ProviderTransaction.DecisionExtendsLog` | fakebank-api/src/domain/provider-transaction.ts:62-114 | creation and an accepted decision keep state and event history in step; a decision is accepted exactly for PROCESSING with a usable Failure Code |
| `ProviderTransaction.TrimIdempotent` | fakebank-api/src/domain/provider-transaction.ts:107-109 | trimming leaves no outer white space, and trimming twice is trimming once |
| `FakeBankProperties.AttemptConservation` | fakebank-api/src/infra/scenarios/simulation-scenario.repository.ts:48-75 | in every reachable state remaining attempts plus committed uses equal the registered times; each use belongs to its own process and is a transport error with nothing stored, or the Outcome (and Failure Code) of the row that process stored; rows with an Outcome and stored uses correspond one to one |
| `FakeBankProperties.ReplaysConsumeNothing` | fakebank-api/src/infra/transactions/create-provider-transaction.service.ts:82-108 | a process answered with a replay or a key conflict stored no row and used no attempt |
| `FakeBankProperties.OneRowPerKey` | fakebank-api/src/infra/transactions/provider-transaction.repository.ts:42-63 | one row per (client, key) in every reachable state; a created answer's row holds its request, a replay points at the row of the key for the same request, a conflict at one for another request |
| `FakeBankProperties.UnreachableBranches` | fakebank-api/src/infra/transactions/create-provider-transaction.service.ts:122-164 | no decided transition is ever refused and no conflicting row is ever missing |
| `FakeBankProperties.LogAgreesWithRow` | fakebank-api/src/infra/transactions/provider-transaction.repository.ts:65-109 | the committed events of a row are [processing] or [processing, its one decision], the last one agreeing with status, Failure Code and last change; PROCESSING exactly without completion time; and the status is the one its Outcome demands |
| `FakeBankProperties.NoStrayEvents` | fakebank-api/src/infra/transactions/provider-transaction.repository.ts:65-76 | every committed event belongs to a committed row and to its history |
| `FakeBankProperties.FirstDecisionStands` | fakebank-api/src/infra/transactions/provider-transaction.repository.ts:79-109 | in every continuation a decided row and its event log are unchanged |
| `FakeBankProperties.OneWinner` | fakebank-api/src/infra/lab/advance-provider-transaction.service.ts:34-62 | a row has at most one request that decided it, and has one exactly when it is deferred and decided; that request is still to answer, died, or answered that it advanced the row; and whoever is answered so did decide its row and was given it as it is stored |
| `FakeBankProperties.LosersLostToADecider` | fakebank-api/src/infra/lab/advance-provider-transaction.service.ts:56-60 | whoever is told that the row was decided concurrently finds it decided, by another request |
| `FakeBankProperties.DecidedAndNobodyTold` | fakebank-api/src/infra/transactions/provider-transaction.repository.ts:79-109 | any decision about to commit may leave the row decided with no request answered that it advanced it |
| `FakeBankProgress.SomeoneCanStep` | fakebank-api/src/infra/transactions/create-provider-transaction.service.ts:82-95 | FakeBank's requests never block each other for good |
| `FakeBankProgress.StepWorks` | fakebank-api/src/infra/transactions/create-provider-transaction.service.ts:63-110 | every statement that runs, and every fault, uses up remaining work, and nothing but a new request adds any |
| `FakeBankProgress.Drains` | fakebank-api/src/infra/transactions/create-provider-transaction.service.ts:63-110 | from every reachable state some order of the pending statements, no longer than the remaining work, ends every request |
| `FakeBankDatabase.Database.ConsumeAlone` | fakebank-api/src/infra/scenarios/scenario-attempts.service.ts:65-86 | one attempt is taken exactly when the lab is on and a pre-persistence scenario has one left |
| `FakeBankDatabase.Register` | fakebank-api/src/infra/scenarios/simulation-scenario.repository.ts:29-46 | refused exactly when the lab is off or the scenario invalid; otherwise it waits while an open creation holds the scenario, and then replaces the one of that client and reference and no other |
| `FakeBankDatabase.CreateProviderTransaction` | fakebank-api/src/infra/transactions/create-provider-transaction.service.ts:63-110 | with any statements of others and any fault in between, the reply means what it says in the database it leaves; alone, there is always a reply |
| `FakeBankDatabase.AdvanceProviderTransaction` | fakebank-api/src/infra/lab/advance-provider-transaction.service.ts:34-62 | an advanced row is stored, terminal and final; a loser finds the row already decided; a request that died has no answer, whether or not it had decided the row; alone, there is always an answer |
| `Utf8.DecodeEncode` | paylab-api/src/infra/benchmark/benchmark-store.ts:260-265 | every text has a well-formed UTF-8 form that decodes to it (RFC 3629) |
| `Utf8.EncodeDecode` | paylab-api/src/infra/benchmark/benchmark-store.ts:260-265 | well-formed bytes are the UTF-8 form of what they decode to |
| `Utf8.FeedIsDecode` | paylab-api/src/infra/benchmark/sanitizing-lines.ts:14-23 | decoding what has arrived and flushing at the end is decoding everything at once, malformed bytes included |
| `Utf8.FeedAppend` | paylab-api/src/infra/benchmark/sanitizing-lines.ts:14-19 | decoding in two pieces, carrying the undecided bytes over, is decoding the whole |
| `Artifact.Utf8SafeEnd` | paylab-api/src/infra/benchmark/benchmark-store.ts:88-97 | the loop finds the position specified by `SafeEnd`, for any buffer |
| `Artifact.SafeEndIsLargestBoundary` | paylab-api/src/infra/benchmark/benchmark-store.ts:87-97 | in well-formed text that position is the largest one at or below the end that cuts no character |
| `Artifact.ReadArtifact` | paylab-api/src/infra/benchmark/benchmark-store.ts:238-275 | the chunk is the one the walk is defined with, for any offset and any limit from 1 |
| `Artifact.WalkPartitions` | paylab-api/src/infra/benchmark/benchmark-store.ts:238-275 | following nextOffset ends, and its byte ranges are all bytes of the file, each once, in order |
| `Artifact.CutsAfterNewline` | paylab-api/src/infra/benchmark/benchmark-store.ts:254-259 | a chunk that is not the last ends just after the last newline within the limit, if there is one |
| `Artifact.WalkKeepsBoundaries` | paylab-api/src/infra/benchmark/benchmark-store.ts:254-259 | in well-formed text with a limit of at least 4 every chunk begins and ends on a character boundary |
| `Artifact.SmallLimitCuts` | paylab-api/src/infra/benchmark/benchmark-store.ts:258 | with a limit of 1, 2 or 3 the first chunk of one well-formed file of five bytes ends inside a character |
| `Artifact.BoundariesIffFour` | paylab-api/src/infra/benchmark/benchmark-store.ts:254-259 | in all well-formed texts no chunk cuts a character, if and only if the limit is at least 4 |
| `SanitizingLines.SanitizingLines.Transform` | paylab-api/src/infra/benchmark/sanitizing-lines.ts:14-21 | after any chunks, what was pushed is the sanitized complete lines of everything received |
| `SanitizingLines.Pipe` | paylab-api/src/infra/benchmark/sanitizing-lines.ts:13-28 | the output depends on the concatenation of the chunks alone |
| `SanitizingLines.StreamIsSanitized` | paylab-api/src/infra/benchmark/sanitizing-lines.ts:23-28 | it is the line-by-line sanitized text if and only if the last line is not empty or the sanitizer keeps the empty line |
| `SanitizingLines.StreamEqualsWalk` | paylab-api/src/infra/benchmark/benchmark-store.ts:260-270 | when every line with its newline fits in the limit, the concatenated chunk contents are the streamed text |
| `Keyset.PageIsNewest` | paylab-api/src/domain/paylab/application/services/keyset-page.ts:13-30 | a page is the newest matching rows in order; `next` is present exactly when more match, then the page is full and what is missing is what lies below its last row |
| `Keyset.WalkListsEverything` | paylab-api/src/infra/database/read-queries-sql.ts:16-46 | with rows added between pages: the walk ends, lists in strictly descending order, every row there at its start exactly once and nothing that does not match; only the last page has no `next` |
| `Keyset.QuietWalkIsTheList` | paylab-api/src/domain/paylab/application/services/keyset-page.ts:19-30 | with nothing added, the pages concatenate to the whole sorted list |
| `Keyset.ListRunsIsKeysetPage` | paylab-api/src/infra/http/controllers/benchmarks.controller.ts:166-190 | filtering, sorting, cutting at the cursor and slicing the loaded Runs gives the page and the next position the keyset query would |
| `PaymentListQuery.BuildPaymentListQuery` | paylab-api/src/infra/database/read-queries-sql.ts:86-116 | for every combination of filters the text with its numbered parameters selects exactly the rows asked for, every placeholder is bound, and the limit is the fetch size |
| `Base64Url.ParsePrint` | paylab-api/src/infra/http/pagination/cursor.ts:19-23 | base64url loses no byte |
| `Base64Url.ParseIsNotInjective` | paylab-api/src/infra/http/pagination/cursor.ts:33-36 | two different texts give the same bytes, which is why the canonical check is needed |
| `Cursor.CursorsAreInverse` | paylab-api/src/infra/http/pagination/cursor.ts:19-58 | a cursor decodes to a position if and only if it is what that valid position encodes to |
| `Cursor.RunCursorsAreInverse` | paylab-api/src/infra/http/pagination/run-cursor.ts:14-43 | the same for Run cursors, whose time must be a canonical instant |
| `CursorWalk.FollowIsWalk` | paylab-api/src/infra/http/pagination/cursor.ts:19-58 | a client that follows the cursors it is sent is served exactly the walk over positions, and no cursor it was sent is refused, for both ways of reading pages |
| `CursorWalk.CursorWalkListsEverything` | paylab-api/src/infra/database/read-queries-sql.ts:16-46 | by the cursors of Payments and entries, with rows added meanwhile: strictly descending, every row there at the start exactly once, nothing else that does not match, all but the last page full and with a cursor |
| `CursorWalk.RunWalkListsEverything` | paylab-api/src/infra/http/controllers/benchmarks.controller.ts:166-190 | the same for Benchmark Runs, sliced from the loaded list and followed by Run cursors |
| `RunRecord.RecoveryKeepsMeasurements` | paylab-api/scripts/benchmark/recovery.ts:37-64 | the recovered record is publishable, keeps every scenario that was not active and every artifact, and turns the active one FAILED with its measurements |
| `RunLifecycle.Machine.RecoverAbandonedRun` | paylab-api/scripts/benchmark/recovery.ts:13-72 | dying anywhere leaves the files in order; surviving leaves every recorded Run published, as it was or as recovered |
| `RunLifecycle.Machine.PublishSummary` | paylab-api/scripts/benchmark/store.ts:76-92 | a temporary file is written, linked and unlinked; a name that is taken is refused and its Summary kept; a process that dies in between leaves the temporary file at most, and has published the whole Summary or nothing |
| `RunLifecycle.Machine.AcquireLock` | paylab-api/scripts/benchmark/lock.ts:71-97 | a live owner is reported and nothing is touched; a stale lock is taken over only after its Run is published, in at most two attempts |
| `RunLifecycle.Machine.RunBenchmark` | paylab-api/scripts/benchmark/executor.ts:195-346 | refused undisturbed for an unsafe scenario id or a live owner of the lock; with local changes in the work tree it ends with the lock given back and nothing but recovered Runs published; dying before any write keeps files in order and published Summaries untouched; a finished Run measured exactly the scenarios up to the first that failed, is COMPLETED only if all were, reports what went wrong first, and left neither lock nor state nor temporary file; it is refused exactly when the id its start time gives was already recorded, and then its state stays; what an earlier death left was recovered; enough writes always finish |
| `RunLifecycle.SameNameTwice` | paylab-api/scripts/benchmark/store.ts:76-92 | two Runs whose start times give the same id: the first is published, the second refused, the first one's Summary is kept and the second one's state stays RUNNING |
| `RunLifecycle.RunAll` | paylab-api/scripts/benchmark/executor.ts:195-346 | the same over any number of Runs, each killed anywhere |
| `Canonical.CanonicalForm` | paylab-api/src/domain/benchmark/canonical.ts:3-21 | two values have the same sorted tree if and only if their content is equal, at every depth, up to key order and undefined properties |
| `Canonical.SortIdempotent` | paylab-api/src/domain/benchmark/canonical.ts:3-16 | sorting twice is sorting once |
| `Canonical.EqualContentEqualText` | paylab-api/src/domain/benchmark/canonical.ts:18-25 | equal content has equal text, whatever the serializer |
| `Trend.BuildTrend` | paylab-api/src/domain/benchmark/read-models.ts:166-228 | the loop splits the candidates, oldest first, into points and exclusions in that order, each excluded for the first reason that applies; labels are those of the first point |
| `Trend.ReferenceIsNewest` | paylab-api/src/domain/benchmark/read-models.ts:167-172 | the reference is the newest completed Run that has the scenario |
| `Trend.ThoseKeepOrder` | paylab-api/src/domain/benchmark/read-models.ts:199-226 | points and exclusions each keep the order of the candidates |
| `Trend.TrendPartition` | paylab-api/src/domain/benchmark/read-models.ts:199-226 | every such Run is in exactly one list, and among the points exactly when environment, dataset and definition equal the reference's and the metric was recorded |
| `Timeline.TimelineIsOrdered` | paylab-ui/src/features/benchmarks/trends/model.ts:36-77 | the timeline is a stable reordering of all entries by time, values first |
| `Timeline.LineSegments` | paylab-ui/src/features/benchmarks/trends/model.ts:84-100 | the segments concatenate to exactly the point indexes, none spans an exclusion, and between neighbours there always is one |

## Left out

- Prisma, PostgreSQL and the HTTP layer are not modelled beyond the statements above; triggers and check constraints are not relied on.
- The `serializable` strategy: its safety is PostgreSQL's own conflict detection.
- `ORDER BY` and `sort` are any algorithm that sorts; identifiers and timestamps are numbers in their sort order, with the same resolution in rows and cursors. The start time of a Run is both a text and an instant, each with its own order.
- Integers are unbounded: 64-bit overflow of a Balance aborts a statement, and a rollback is already possible before every statement.
- `Strategies.AttemptOnce`: `nokey` and `forupdate` run their row-lock statement for a clearing source too, as production does; there it matches nothing and locks nothing.
- Under `FOR UPDATE`, an insert of a Payment may wait for an Account row; only the foreign key of ledger entries is modelled.
- Accounts do not change while Payments settle. Fingerprints, checksums and lock hashes are arbitrary functions, so collisions are allowed.
- In the submission machine a request uses its own number as the id of its Payment and of its Settlement; the in-place flow takes any fresh id.
- `Settlement.Settle`: the fifteen-second limit is a fault that may come at any statement.
- FakeBank's delays, Retry-After values and the identifiers of its events; which characters are white space.
- The random generator of the demo plan is any source of draws between 0 and 1, used through exact fractions; rounding of the original's floating-point numbers is not modelled.
- `Artifact.ReadArtifact`: the file is fixed while it is read; locating it, symbolic links and access checks are left out.
- The sanitizer is any function on lines; `SanitizingLines.StreamEqualsWalk` asks that it keep the empty line empty.
- The streaming decoder is the standard incremental UTF-8 decoder with replacement; texts are sequences of code points, not UTF-16 units.
- `Keyset.WalkListsEverything`: filters are on columns that do not change; the status filter on Payments, whose status can change between pages, is outside it.
- Cursors: how dates print and parse is left open, except that an ISO date is plain ASCII and parses back.
- `RunLifecycle.Machine.AcquireLock`: the take-over of a stale lock by two processes at once is not atomic in the original and not covered.
- `RunLifecycle.Machine.RunBenchmark`: a spawn error, a failing disk and the contents of log files are left out; the clock does not go back; the texts of failures are reduced to their causes.
- Canonical form: numbers are reals, so NaN, infinities and negative zero are outside it; the order in which objects list their keys is any strict total order.
- Trend: whether an entry is the baseline, value formatting, percentiles and change classification.
- Read endpoints without state (reports, presenters, OpenAPI classes, React components) would only add easy members.
