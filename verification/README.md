# JITO India Games: a verified model

This project models the parts of the platform on which points and rounds depend, and proves what they
promise. Verify everything with `dafny verify dfyconfig.toml`.

**The money path.** `Money.dfy` is one state machine for the shared PostgreSQL tables and any number of
concurrent bet placements and admin adjustments. Each call is a program counter that advances one statement
at a time; locks follow from the counters and last until commit; writes become visible at commit, together;
unique indexes make an insert wait for, or fail against, another one; a crash at any statement rolls back.
`now()` is fixed when a transaction begins, while a row read after a lock wait is the newest version. The
game engines of `RoundEngine.dfy` move in the same machine, so a bet and a lock of its round really compete
for the row. One environment move ends a locked round, so that games have many rounds. The proofs are in
`MoneyInvariant.dfy`, `MoneyCommit.dfy`, `MoneyTheorems.dfy`, `MoneyKeys.dfy` and `MoneyProgress.dfy`;
`Ledger.dfy` holds the ledger arithmetic, `Payload.dfy` the bet payload, `Reconciliation.dfy` the balance
check. `Services.dfy` has the services' own methods over one database object, each proved equal to its machine
call run alone (`MoneyAlone.dfy`), and that call gives the answer, and makes the change, that `MoneyAnswers.dfy`
states on the request and the stored rows without the machine.

**Rounds.** `RoundTable.dfy` is the table and its statements, `RoundTheorems.dfy` the results about any
number of engines, `RoundsService.dfy` the service as an object, `DisplayCode.dfy` the round codes.

**Sessions.** `Sessions.dfy` is the machine of login, refresh, logout and logout-all with row locks and
statement snapshots; `SessionTheorems.dfy` the results; `AuthService.dfy` the service as an object.

**The leader lease.** `Lease.dfy` is the machine with lost replies, late commands, errors and restarts;
`Scheduler.dfy` the Redis lock and the scheduler as objects.

**Exact arithmetic.** `Wheel.dfy` and `WheelEngine.dfy` treat angles and progress as exact reals;
`Centipoints.dfy` and `Decimal.dfy` treat amounts as unbounded integers and text.

**The board.** `Board.dfy` gives each handler's effect on the game state, `BoardTheorems.dfy` the accounting
results, `Shuffle.dfy` the random pick, and `BoardView.dfy` the component's handlers and loops.

## What differs from the comments in the code

- services/api/src/auth/auth.service.ts:308-311 says a race ends with zero valid sessions. It does when the
  owner has no other sessions than the token's own and its successor (`RaceLeavesNone`). In general a
  revocation's snapshot is older than its lock waits, so a session that commits while it runs survives:
  `ReuseLeavesExactly` and `RevocationReachesExactly` say exactly which, and `ReuseMayMissASuccessor` is a run
  in which the winner's session, rotated again at that moment, leaves a live one.
- REPEAT overwrites the stake of a cell already staked, while charging for it in full: `StakeMatchesExactly`
  gives the condition, `RepeatCanLose` an instance.
- services/api/src/bets/bets.service.ts:95-100 calls the ledger key of a bet collision-free by construction.
  Between bets it is (`OnlyNamingCollides`). An adjustment's key is free text in the same index, so one that
  names the id a later bet generates makes that bet fail with the unique violation: `DebitRefusedExactly` and
  `CollisionIsReachable`. Ids being random, nobody can name one beforehand except by chance.

## Model

| member | source | states |
|---|---|---|
| DisplayCode.GenerateInjective | services/game-engine/src/rounds/display-code.ts:18-25 | a display code determines its game and round number, so codes of distinct rounds differ across games too |
| DisplayCode.CodeReads | services/game-engine/src/rounds/display-code.ts:18-25 | a code is TC or TCP and the number's numeral without leading zeros |
| RoundTable.FindLive | services/game-engine/src/rounds/rounds.service.ts:103-108 | returns a live round of the game with the greatest number, and None only if the game has no live round |
| RoundTable.MaxNumber | services/game-engine/src/rounds/rounds.service.ts:182-188 | an upper bound of the game's numbers that, unless 0, is one of them |
| RoundTable.NumbersExact | services/game-engine/src/rounds/rounds.service.ts:182-188 | numbers given as ranks are exactly 1, 2, ... up to the game's count, increasing in creation order |
| RoundTable.MaxIsCount | services/game-engine/src/rounds/rounds.service.ts:182-188 | MAX is the count of the game's rounds, so MAX + 1 is the next rank |
| RoundTable.TableMeaning | services/api/prisma/migrations/20260910000000_phase2a_init/migration.sql:307-319 | a well-formed table satisfies all three unique indexes: number per game, display code, one live round per game |
| RoundTable.UpdateKeepsTable | services/game-engine/src/rounds/rounds.service.ts:149-179 | a state change of a live round keeps the table well formed |
| RoundTable.InsertKeepsTable | services/game-engine/src/rounds/rounds.service.ts:116-140 | an insert computed from a possibly stale MAX that breaks no unique index is exactly the next number, and keeps the table well formed |
| RoundTable.LiveIsFound | services/game-engine/src/rounds/rounds.service.ts:102-108 | any live round is the one the live-round query returns |
| RoundTable.NextIsFree | services/game-engine/src/rounds/rounds.service.ts:116-118 | with fresh reads and no live round, MAX is the count of the game's rounds and the next number and its code break no unique index |
| RoundTable.ReconcileMeans | services/game-engine/src/rounds/rounds.service.ts:72-140 | a reconciler step over a well-formed table, on its fields: if all rounds of the game are completed or void, one ROUND_CREATED round, numbered their count + 1, is added; otherwise a created round opens, one taking bets whose deadline has come becomes BETTING_LOCKED with that time, and every other row stays as it is |
| RoundEngine.RowsStep | services/game-engine/src/rounds/rounds.service.ts:149-179 | one statement of any call changes a row by at most one transition with one version more and the identity kept, and never a row another transaction holds |
| RoundEngine.ClashMeansNewRound | services/game-engine/src/rounds/rounds.service.ts:133-137 | an insert refused by a unique index means a round of the game is newer than the call's live-round read |
| RoundEngine.StepKeeps | services/game-engine/src/rounds/rounds.service.ts:72-179 | every statement, crash and environment move keeps the numbering, the lock times and what each open call has read |
| RoundEngine.RunKeeps | services/game-engine/src/rounds/rounds.service.ts:72-188 | the same over every run of any number of engines |
| RoundTheorems.NumberingInEveryRun | services/game-engine/src/rounds/rounds.service.ts:72-140 | in every run each game's numbers are exactly 1..n, its live round, if any, is number n, and display codes are globally distinct |
| RoundTheorems.UniqueViolationIsBenign | services/game-engine/src/rounds/rounds.service.ts:27-30 | whenever a create inside reconcile fails with P2002, a round of that game was committed after that call looked for a live one |
| RoundTheorems.MoveRefines | services/game-engine/src/rounds/rounds.service.ts:72-179 | each change of the table by a concurrent, possibly stale call is one a fresh sequential reconcile or the environment would make |
| RoundTheorems.ManyEnginesRefineOne | services/game-engine/src/rounds/rounds.service.ts:16-24 | the table states of any interleaving, with duplicates, stale calls and crashes, are those of one sequential reconciler whose readings of now() are never in the future, never before the deadline they lock on, and never before an earlier lock of the game, under a clock that never goes back |
| RoundTheorems.ReadingsInOrder | services/game-engine/src/rounds/rounds.service.ts:167-179 | in such a sequential run a lock's reading is at least every lock time its game already has, and at most the clock of its step |
| RoundTheorems.VersionCountsTransitions | services/game-engine/src/rounds/rounds.service.ts:23-24 | stateVersion grows by exactly the number of transitions taken; equal versions of a round mean equal rows; stages never go back |
| RoundTheorems.VersionStartsAtZero | services/game-engine/src/rounds/rounds.service.ts:122-132 | every round in a reachable state was created at some move of the run, in ROUND_CREATED with version 0 |
| RoundTheorems.TimeMayPass | services/game-engine/src/rounds/rounds.service.ts:157-179 | between any two statements the clock may run on by any time |
| RoundTheorems.CrashEnds | services/game-engine/src/rounds/rounds.service.ts:72-100 | an engine call may crash at any statement, with nothing else changed |
| RoundTheorems.EngineAdvances | services/game-engine/src/rounds/rounds.service.ts:149-179 | in any interleaving a statement of an engine leaves a round as it is, opens it from ROUND_CREATED, or locks it with a reading of the clock not before its deadline; nothing else |
| RoundTheorems.BettingEndsLocked | services/game-engine/src/rounds/rounds.service.ts:167-179 | a round taking bets that an engine's statement changes is then BETTING_LOCKED, one version up, with a lock time between its deadline and the clock |
| RoundTheorems.LockedUntilFinished | services/game-engine/src/rounds/rounds.service.ts:16-24 | over any run without an end of its own a locked round does not change and no further round of its game is created |
| RoundTheorems.AloneIsReconcile | services/game-engine/src/rounds/rounds.service.ts:72-140 | an engine's reconcile with nothing in between is over after three statements, having done just what the service's method does |
| RoundsService.RoundsService.TryCreateRound | services/game-engine/src/rounds/rounds.service.ts:116-140 | None exactly if a unique index refuses MAX + 1, with nothing changed; otherwise the new row is the last one |
| RoundsService.RoundsService.OpenRound | services/game-engine/src/rounds/rounds.service.ts:149-155 | true exactly from ROUND_CREATED; then the state is BETTING_OPEN and the version one up; nothing else changes |
| RoundsService.RoundsService.LockIfDeadlinePassed | services/game-engine/src/rounds/rounds.service.ts:167-179 | true exactly from BETTING_OPEN or BETTING_ACTIVE with the deadline not after now(); then the state is BETTING_LOCKED, the version one up and locked_at now(); nothing else changes |
| RoundsService.RoundsService.Reconcile | services/game-engine/src/rounds/rounds.service.ts:72-100 | over a well-formed table, which stays so: a game whose rounds are all over gets its next round, a created round opens, a due one locks, and every other row stays; the result equals the sequential step the refinement theorem uses |
| RoundsService.ReconcileKeepsTable | services/game-engine/src/rounds/rounds.service.ts:72-100 | a reconcile with fresh reads keeps the table well formed and, with no live round, always appends number n + 1 |
| Payload.MergeItems | services/api/src/bets/bets.service.ts:476-498 | succeeds exactly if every amount is a positive safe integer, with the merged list; otherwise names the first bad item |
| Payload.ValidateSelectionRanges | services/api/src/bets/bets.service.ts:500-507 | passes exactly if every selection is in its category's range; otherwise names the first that is not |
| Payload.ValidateSafeAmounts | services/api/src/bets/bets.service.ts:517-526 | passes exactly if the total is safe, which already bounds every merged amount; otherwise names the first amount that is too large, or else the total |
| Payload.ValidatePayload | services/api/src/bets/bets.service.ts:306-311 | accepts exactly the positive, safe, in-range requests, and returns distinct selections with the total kept; otherwise the error of the first check that fails: amounts, selections, sizes |
| Payload.AmountWithinTotal | services/api/src/bets/bets.service.ts:517-526 | no positive item exceeds the total, so the total bound implies the per-item bound |
| Payload.MergeSums | services/api/src/bets/bets.service.ts:475-498 | merging yields distinct selections and keeps the grand total and each selection's sum |
| Payload.MergePositive | services/api/src/bets/bets.service.ts:475-498 | merging positive amounts yields positive amounts, and nothing only from nothing |
| Payload.MergeKeys | services/api/src/bets/bets.service.ts:475-498 | merging keeps just the selections of the request |
| Payload.MergeInRange | services/api/src/bets/bets.service.ts:500-507 | the merged request is in range exactly if the request is |
| Payload.MatchMeansSameSums | services/api/src/bets/bets.service.ts:528-535 | itemsMatch, which checks one direction and the lengths, holds exactly if both lists stake the same on every selection |
| Payload.PayloadEquivalence | services/api/src/bets/bets.service.ts:476-535 | two requests match after merging exactly if they stake the same on every selection, whatever their order and splitting |
| Payload.MatchImpliesTotal | services/api/src/bets/bets.service.ts:445-448 | matching items already have the same total, so the separate total check is redundant |
| Ledger.AppendKeeps | services/api/src/points/points-ledger.service.ts:280-310 | appending an entry computed from the cached balance under a free key keeps chain, projection, version count and unique keys |
| Ledger.OpenKeeps | services/api/src/auth/auth.service.ts:171-174 | opening a zero account keeps the ledger sound |
| Ledger.ChainUnbroken | services/api/src/points/points-ledger.service.ts:251-301 | in a sound ledger each entry's before equals the previous entry's after of the same account |
| Ledger.CreditsLessDebits | services/api/src/points/reconciliation.service.ts:113-131 | the balance an account derives from its ledger is the sum of its credits less the sum of its debits |
| MoneyInvariant.QuietStep | services/api/src/bets/bets.service.ts:336-411 | a statement that publishes nothing keeps the invariant if its own call's obligations and its locks fit |
| MoneyInvariant.LockRoundKeeps | services/api/src/bets/bets.service.ts:349-368 | the round lock and its four checks keep the invariant, including that the held round still takes bets |
| MoneyInvariant.LockAccountKeeps | services/api/src/points/points-ledger.service.ts:221-270 | locking the account yields a token whose before is the account's balance until commit |
| MoneyInvariant.InsertBetKeeps | services/api/src/bets/bets.service.ts:382-399 | a refused or pending insert of (user, key) keeps the invariant |
| MoneyInvariant.InsertLedgerKeeps | services/api/src/points/points-ledger.service.ts:290-302 | a refused or pending insert of the ledger key keeps the invariant |
| MoneyCommit.CommitKeeps | services/api/src/bets/bets.service.ts:383-411 | COMMIT of a bet or an adjustment publishes its rows and balance and keeps every other call's obligations |
| MoneyCommit.EngineMoveKeeps | services/game-engine/src/rounds/rounds.service.ts:149-179 | engine moves keep the invariant, because rows held by open bets are not changed |
| MoneyCommit.RunKeeps | services/api/src/bets/bets.service.ts:298-423 | the invariant holds after any interleaving of statements, crashes, registrations and engine moves |
| MoneyTheorems.OneBetPerKey | services/api/src/bets/bets.service.ts:79-80 | in every reachable state a (user, key) has at most one bet, ids are distinct, and a call wrote at most one |
| MoneyTheorems.BetHasOneDebit | services/api/src/bets/bets.service.ts:380-411 | every bet has exactly one debit, for its total, which is the positive sum of its items |
| MoneyTheorems.DebitHasOneBet | services/api/src/bets/bets.service.ts:406-411 | every bet_placed entry is the one debit of a committed bet |
| MoneyTheorems.ResponseFitsRequest | services/api/src/bets/bets.service.ts:432-473 | every success, replayed or not, reports a bet with the request's selections and sums and the balance after that bet's own debit, so the fallback balance 0 is never used |
| MoneyTheorems.ResponsesAgree | services/api/src/bets/bets.service.ts:318-333 | all successes for one (user, key) agree on bet id, total and balance, and at most one is not a replay |
| MoneyTheorems.OnlyCommitsPublish | services/api/src/points/points-ledger.service.ts:41-44 | a statement changes accounts, ledger, bets or audit log only as the COMMIT of a call that then has succeeded |
| MoneyTheorems.FailureChangesNothing | services/api/src/points/points-ledger.service.ts:41-44 | in any run, no statement of a call that ends failed, crashed, replayed or is still open has changed an account, a ledger row, a bet or an audit row |
| MoneyTheorems.FailureLeavesNothing | services/api/src/points/points-ledger.service.ts:41-44 | such a call has left no bet and no audit row, and every ledger row is the one effect of a bet or audit row another call wrote |
| MoneyTheorems.CrashRollsBack | services/api/src/points/points-ledger.service.ts:41-44 | a crash may end an open call at any statement; no table has changed then, and the call holds no lock and no key any more |
| MoneyTheorems.LedgerIntegrity | services/api/src/points/points-ledger.service.ts:221-310 | in every reachable state each account's entries chain from 0, its balance is the sum of its credits less that of its debits and not negative, its version is its entry count, and a held token still shows the balance |
| MoneyTheorems.BetsBeatTheDeadline | services/api/src/bets/bets.service.ts:349-368 | every accepted bet's transaction began before the deadline, which is not after locked_at, even if it waited for the lock |
| MoneyTheorems.TooLateIsTooLate | services/api/src/bets/bets.service.ts:343-368 | a placement whose transaction has not begun when the clock reads a round's deadline gets no bet on that round in any run, however early it was sent |
| MoneyTheorems.BetsGrowInBettingOnly | services/api/src/bets/bets.service.ts:363-391 | a statement adds at most one bet, and only on a round that takes bets at that moment |
| MoneyTheorems.LockedRoundIsFrozen | services/game-engine/src/rounds/rounds.service.ts:167-179 | once a round has left betting no run adds a bet to it |
| MoneyTheorems.LogHasOneEffect | services/api/src/admin/points/admin-points.service.ts:128-158 | every audit row has exactly one ledger effect with the same target, direction, amount and reason |
| MoneyTheorems.EffectHasOneLog | services/api/src/admin/points/admin-points.service.ts:128-158 | every entry that is not a bet's debit is the effect of exactly one audit row |
| MoneyTheorems.OneEntryPerKey | services/api/prisma/migrations/20260910000000_phase2a_init/migration.sql:302 | a ledger key has at most one entry in every reachable state |
| MoneyKeys.DebitRefusedExactly | services/api/src/bets/bets.service.ts:406-411 | a placement at its debit is refused there and, if nothing comes before its replay check, ends in the unique violation having written nothing, if and only if the ledger already holds the key of its bet id |
| MoneyKeys.OnlyNamingCollides | services/api/src/bets/bets.service.ts:95-100 | that key can only be held by an adjustment whose own key names the very id the placement generated; no two bets ever collide |
| MoneyKeys.CollisionIsReachable | services/api/src/admin/points/admin-points.service.ts:128-158 | a run with one adjustment and one placement that ends that way |
| MoneyTheorems.AdjustmentsAgree | services/api/src/admin/points/admin-points.service.ts:190-239 | two successes with one key are the same request of the same admin and report the same row; only one wrote it |
| MoneyAnswers.ReachableRowsOk | services/api/prisma/migrations/20260910000000_phase2a_init/migration.sql:295-319 | in every reachable state the tables are sound: unique keys, distinct ids, and each bet with its debit |
| MoneyAnswers.SameBetMeans | services/api/src/bets/bets.service.ts:441-448 | findReplay takes a stored bet for the same request exactly if the round is the same and every selection has the same sum, in whatever order |
| MoneyAnswers.RetryReplaysExactly | services/api/src/bets/bets.service.ts:432-473 | in every reachable state a placement whose key is stored ends, within two statements, as a replay with that bet's id, total and the balance after its debit if and only if round and selection sums agree, and as a reused key otherwise |
| MoneyAnswers.PlacementAlone | services/api/src/bets/bets.service.ts:298-423 | a placement run alone over sound tables gives the reference answer: stored keys replay or are refused as above; a new one fails with the first check that fails, in the source's order, or writes exactly its bet, debit and balance |
| MoneyAnswers.AdjustmentReplaysExactly | services/api/src/admin/points/admin-points.service.ts:190-239 | in every reachable state an adjustment whose key is stored ends, within two statements, as a replay of that entry if and only if user, direction, amount, type, reason and the audit row's admin agree, and as a reused key otherwise |
| MoneyAnswers.AdjustmentAlone | services/api/src/admin/points/admin-points.service.ts:90-167 | an adjustment run alone over sound tables gives the reference answer: no such user, a replay or refusal as above, too few points, or exactly its audit row, entry and balance |
| MoneyProgress.UnfinishedCallRuns | services/api/src/points/points-ledger.service.ts:17-26 | while a call is unfinished, some call can run its next statement: locks are taken in one order |
| MoneyProgress.UnfinishedEngineRuns | services/game-engine/src/rounds/rounds.service.ts:167-179 | an engine waits only for a row of an open bet, and then some call can run |
| MoneyProgress.ProgressUsesWork | services/api/src/bets/bets.service.ts:343-422 | each statement brings its call nearer to its end by a fixed measure |
| MoneyProgress.RunsAreBounded | services/api/src/bets/bets.service.ts:343-422 | however the statements are scheduled, the calls present run out after at most as many as the measure says |
| MoneyProgress.NoDeadlock | services/api/src/points/points-ledger.service.ts:17-26 | in every state of the invariant something can run or everything has finished; N calls and M engines take at most 14N + 4M statements |
| Services.Database.LockAndValidateAccount | services/api/src/points/points-ledger.service.ts:221-270 | succeeds exactly if the amount is positive, the account exists and the new balance is not negative; the token shows both balances; errors in that order; nothing is written |
| Services.Database.CommitMutation | services/api/src/points/points-ledger.service.ts:280-310 | succeeds exactly if the key is new; then one entry is appended and the balance and version move; otherwise nothing changes |
| Services.Database.MutateWithinTransaction | services/api/src/points/points-ledger.service.ts:192-203 | the two steps together: exact success condition, exact new state, exact error, no change on error |
| Services.Database.ApplyMutation | services/api/src/points/points-ledger.service.ts:150-175 | a stored key replays its entry or is refused; a new one mutates exactly if the amount is positive, the account exists and stays non-negative, with the exact entry, account and error; the ledger stays sound |
| Services.Database.FindBetReplay | services/api/src/bets/bets.service.ts:432-473 | what it returns for a stored key is what the model's call ends with, so a replay exactly as RetryReplaysExactly says; None only for a new key |
| Services.Database.RunPlacementTransaction | services/api/src/bets/bets.service.ts:336-423 | agrees with the model's statements; on any error bets, ledger and accounts are as before |
| Services.Database.Place | services/api/src/bets/bets.service.ts:313-334 | replay, transaction and re-read together equal the model's call run with nothing in between |
| Services.Database.PlaceBet | services/api/src/bets/bets.service.ts:298-334 | is let through exactly if the key is present and fits and the request's own items are positive, in range and safe in total; otherwise it throws the first refusal in the source's order and the database is untouched. Over sound tables, which stay sound, a stored key gets its bet back exactly if round and selection sums agree, a new one its exact error or its exact bet, debit and balance |
| Services.Database.FindAdjustmentReplay | services/api/src/admin/points/admin-points.service.ts:190-239 | what it returns for a stored key is what the model's call ends with, so a replay exactly as AdjustmentReplaysExactly says; None only for a new key |
| Services.Database.RunAdjustmentTransaction | services/api/src/admin/points/admin-points.service.ts:121-167 | agrees with the model's statements; on any error audit log, ledger and accounts are as before |
| Services.Database.AdjustPoints | services/api/src/admin/points/admin-points.service.ts:90-119 | a missing or empty key is refused with the database untouched; over sound tables, which stay sound, a stored key gets its entry back exactly if it was the same request of the same admin, a new one its exact error or its exact audit row, entry and balance |
| Services.Database.Adjust | services/api/src/admin/points/admin-points.service.ts:96-118 | once there is a key, equals the model's call run with nothing in between; failures and replays change nothing |
| Reconciliation.VerifyAll | services/api/src/points/reconciliation.service.ts:83-111 | with each account's ledger read by its own statement: reports exactly the accounts whose balance is not that sum, each once, with both figures |
| Reconciliation.NothingToReport | services/api/src/points/reconciliation.service.ts:83-131 | no account of a reachable state is reported |
| Reconciliation.ReportedExactly | services/api/src/points/reconciliation.service.ts:54-111 | whatever commits between the balances and an account's sum, the account is reported exactly if its balance has become another one |
| SessionProofs.RunKeeps | services/api/src/auth/auth.service.ts:273-366 | in every interleaving of login, refresh, logout and logout-all, links and every open call's obligations hold and revocation is final |
| SessionTheorems.OneLoginPerChain | services/api/src/auth/auth.service.ts:335-349 | every session lies on the successor chain of exactly one login |
| SessionTheorems.LoginOpens | services/api/src/auth/auth.service.ts:425-448 | a login adds one live, unlinked session of its owner with the expiry asked for, and changes nothing else |
| SessionTheorems.RefreshDecides | services/api/src/auth/auth.service.ts:287-333 | what a refresh does with the row it has locked: unknown, expired, used before, admin gone, or rotate, in that order, with nothing written yet |
| SessionTheorems.RotationWrites | services/api/src/auth/auth.service.ts:335-349 | the commit of a rotation adds one live, unlinked session of the same owner with the fresh expiry asked for, revokes the old one and links it, keeping its owner and expiry, and leaves every other row alone |
| SessionTheorems.LogoutWrites | services/api/src/auth/auth.service.ts:379-390 | a logout revokes the session named exactly if it is live and in scope, and changes nothing else |
| SessionTheorems.SweepOwnerIs | services/api/src/auth/auth.service.ts:307-317 | a revocation is after the sessions of the user logging out everywhere, or of the owner of the token used again |
| SessionTheorems.SweepWrites | services/api/src/auth/auth.service.ts:482-491 | at its commit a revocation revokes the owner's sessions of its snapshot and changes nothing else in any row |
| SessionTheorems.CrashRollsBack | services/api/src/auth/auth.service.ts:287-353 | a crash may end an open call at any statement; no row has changed then, and the call holds none any more |
| SessionTheorems.LinksAreSimplePaths | services/api/src/auth/auth.service.ts:344-349 | replacedBySessionId is injective and acyclic |
| SessionTheorems.OneLiveSessionPerChain | services/api/src/auth/auth.service.ts:344-349 | each chain has at most one unrevoked session, and it is the tail |
| SessionTheorems.RevokedIsFinal | services/api/src/auth/auth.service.ts:344-349 | a revoked session stays revoked with its link unchanged, so it is rotated at most once |
| SessionTheorems.OneRotationPerToken | services/api/src/auth/auth.service.ts:276-282 | of all refreshes of one token at most one rotates it |
| SessionTheorems.ReuseRevokes | services/api/src/auth/auth.service.ts:307-317 | a refresh that reported reuse has committed the revocation of every session of that owner committed before its statement, and of the winner's successor |
| SessionTheorems.ReuseLeavesExactly | services/api/src/auth/auth.service.ts:307-317 | after a reported reuse the owner's live sessions are exactly the unrevoked ones among those committed after the revoking statement began; none is live if and only if none of those is |
| SessionTheorems.RaceLeavesNone | services/api/src/auth/auth.service.ts:308-311 | if the owner's sessions are only the token's own and what rotating it opened, a reported reuse leaves zero valid sessions |
| SessionTheorems.RaceEndsWithoutWinner | services/api/src/auth/auth.service.ts:309 | if one call rotated a token and another reported reuse, the session the rotation opened is revoked |
| SessionTheorems.ReuseMayMissASuccessor | services/api/src/auth/auth.service.ts:310-311 | a run in which a token is rotated, its reuse is reported, and the owner has a live session: one rotated from the winner's while the revocation ran |
| SessionTheorems.RevocationReachesExactly | services/api/src/auth/auth.service.ts:482-491 | from the start of a revocation to any later state, whatever else ran: the owner's live sessions are exactly the unrevoked ones committed after its snapshot; none if no login or rotation of the owner committed since |
| SessionTheorems.SweepReachesExactly | services/api/src/auth/auth.service.ts:482-491 | at commit a revocation leaves live exactly the owner's sessions committed after its statement began, and touches nobody else's |
| SessionTheorems.SweepLeavesNoneExactly | services/api/src/auth/auth.service.ts:482-491 | at its commit a revocation leaves the owner none live if and only if none was committed live after its statement began |
| SessionTheorems.LogoutAllMayMissASuccessor | services/api/src/auth/auth.service.ts:392-397 | a run in which a rotation commits during logoutAll and its successor stays live |
| AuthService.AuthService.RevokeAllSessions | services/api/src/auth/auth.service.ts:482-491 | revokes exactly the owner's live sessions |
| AuthService.AuthService.Refresh | services/api/src/auth/auth.service.ts:273-366 | the outcome for every row and its effect on the fields: a rotation adds the owner's successor with the fresh expiry, revokes and links the old row and keeps the others; reuse revokes all of the owner's and nothing else; the rest changes nothing |
| AuthService.AuthService.Logout | services/api/src/auth/auth.service.ts:379-390 | revokes exactly the session named, if live and in scope |
| AuthService.AuthService.LogoutAll | services/api/src/auth/auth.service.ts:392-397 | revokes exactly the player's live sessions |
| Lease.RunKeeps | services/game-engine/src/rounds/round-scheduler.service.ts:121-141 | every success younger than the time to live is still covered by the key, in every run with errors, lost replies, late commands and restarts |
| Lease.LeasesNeverOverlap | services/game-engine/src/rounds/round-scheduler.service.ts:121-141 | if ensureLeader returned true for an operation at t, no other holder gets true for one in [t, t + TTL), even if commands given up on arrive later |
| Lease.AnsweredCallSucceedsExactly | services/game-engine/src/rounds/round-scheduler.service.ts:101-141 | with its commands answered a call succeeds exactly if the key has expired or is its own and known to be, so expiry always lets the next attempt in |
| Lease.LateCommandActs | services/game-engine/src/rounds/round-scheduler.service.ts:121-141 | a command given up on by an error or a restart may take effect at any later time: a renewal exactly if its holder still has the key, an acquire exactly if the key is gone |
| Scheduler.RedisLock.RenewLeaderLock | services/game-engine/src/redis/redis.service.ts:106-122 | succeeds exactly for the current holder, and extends the expiry |
| Scheduler.RedisLock.ReleaseLeaderLock | services/game-engine/src/redis/redis.service.ts:128-137 | only the holder's call frees the key |
| Scheduler.RoundScheduler.EnsureLeader | services/game-engine/src/rounds/round-scheduler.service.ts:121-141 | for every outcome of both commands: true exactly on a confirmed renewal of a key still held, or, with the flag down or the renewal refused, on a confirmed acquire of a key that is gone; the flag and the key afterwards in every case |
| Scheduler.RoundScheduler.Tick | services/game-engine/src/rounds/round-scheduler.service.ts:72-99 | acts exactly if no tick is in flight and the lease is confirmed; then, for each of the two games unless it fails, a first or next round is created, a created one opened, a due one locked, and the rest stays; the flag is restored |
| Scheduler.TickKeepsTable | services/game-engine/src/rounds/round-scheduler.service.ts:84-95 | a leader's pass over the games keeps the round table well formed |
| Scheduler.PassesBoth | services/game-engine/src/rounds/round-scheduler.service.ts:84-95 | one pass, for each of the two games by name: a failing game's rounds stay; another with no live round gets exactly one ROUND_CREATED round numbered its count + 1; a created round opens, a due one locks, any other stays |
| Wheel.Mod360Is | packages/game-core/src/wheel.ts:40-42 | mod360 is the representative in [0, 360), for negative angles too |
| Wheel.RestAngleIs | packages/game-core/src/wheel.ts:57-59 | the rest angle is the complement of the segment's place |
| Wheel.PointerReadsExactly | packages/game-core/src/wheel.ts:62-67 | the pointer reads d if and only if the ring stands within half a segment of d's rest angle, up to whole turns; 18 degrees ahead included, 18 behind excluded |
| Wheel.ReadsClockwise | packages/game-core/src/wheel.ts:18-23 | turned back segment by segment from rest, the rings show the three digit orders |
| Wheel.SpinIsMonotoneAndContinuous | packages/game-core/src/wheel.ts:83-93 | progress stays in [0, 1], never moves back, strictly forward within the spin, and no faster than v0 anywhere, hence continuous at t0 |
| Wheel.SecantBounds | packages/game-core/src/wheel.ts:83-93 | between any two moments of the spin progress is positive and at most v0 times the time |
| Wheel.SpinDecelerates | packages/game-core/src/wheel.ts:74-82 | secant slopes never increase, for every t0 and any three moments |
| Wheel.SpinCurveIs | packages/game-core/src/wheel.ts:70-93 | the curve in closed form: 3p / (1 + 2 t0) up to t0, then 1 less (1 - p)^3 / ((1 + 2 t0)(1 - t0)^2), 0 before and 1 after |
| Wheel.TravelEndsOnTarget | packages/game-core/src/wheel.ts:108-112 | a spin makes its ring's turns and less than one more in its direction, and ends on the target's rest angle |
| Wheel.TravelNumbers | packages/game-core/src/wheel.ts:28-31 | the outer ring turns back by 5 to 6 turns, the middle one forward by 7 to 8, the inner one back by 9 to 10 |
| Wheel.RingMovesOneWay | packages/game-core/src/wheel.ts:100-116 | while it spins a ring moves strictly in its direction and stays between its start and the end of its travel |
| Wheel.RingCruises | packages/game-core/src/wheel.ts:71-89 | for the first 65 per cent of its time a ring turns at one speed, 30/23 of its average |
| Wheel.StoppedRingReads | packages/game-core/src/wheel.ts:100-116 | a stopped ring shows the digit it was spun to |
| Wheel.RevealedDigitCount | packages/game-core/src/wheel.ts:119-126 | counts the stops reached; for increasing stops they are the first ones |
| WheelEngine.TargetAngle | packages/game-core/src/wheel-renderer.ts:7-17 | a target lies the extra turns and less than one more ahead and is congruent to -36 * digit, with segment digit under the pointer, from any angle |
| WheelEngine.SpinsAccumulate | packages/game-core/src/wheel-renderer.ts:65-80 | over any number of spins from any angle the ring stands exactly 36 * digit behind for the last digit, which is under the pointer, and the travel stays within its bounds |
| WheelEngine.WheelEngine.SetTargetResult | packages/game-core/src/wheel-renderer.ts:65-80 | state, target and result are set, and each ring's target is 5, 4 or 3 turns and less than one more ahead, at exactly -36 * digit up to whole turns |
| WheelEngine.WheelEngine.Spin | packages/game-core/src/phaser-container.tsx:40-70 | after one whole spin the text shown is, digit by digit, what the pointer reads on each ring |
| Decimal.ReadBack | packages/shared/src/centipoints.ts:128-130 | writing a number and reading it back gives the number |
| Decimal.WriteBack | packages/shared/src/centipoints.ts:106-108 | reading a numeral and writing it back strips its leading zeros |
| Centipoints.ParsesToFloor | packages/shared/src/centipoints.ts:73-111 | for every accepted text parsing is the floor of 100 times its value |
| Centipoints.AcceptsExactly | packages/shared/src/centipoints.ts:75-77 | accepted are exactly digits, or digits, a dot and digits, no part empty |
| Centipoints.TrimTakesSpaces | packages/shared/src/centipoints.ts:73-74 | trimming takes white space off both ends, all of it and nothing else |
| Centipoints.SpacesAre | packages/shared/src/centipoints.ts:73-74 | white space is the 25 characters ECMAScript names |
| Centipoints.RefusesExactly | packages/shared/src/centipoints.ts:54-78 | a bigint is passed on unless negative; a text is refused exactly if, trimmed, it is no decimal; a negative amount is not printed |
| Centipoints.RoundTrip | packages/shared/src/centipoints.ts:124-131 | parsing what was printed gives the amount back, for every amount |
| Centipoints.PrintsCanonical | packages/shared/src/centipoints.ts:81-131 | printing what was parsed gives the canonical two-digit truncation, and parsing that changes nothing |
| Centipoints.LeadingZerosIgnored | packages/shared/src/centipoints.ts:106-107 | leading zeros do not change the amount |
| Shuffle.PoolIsPermutation | apps/web/src/components/game/GameTCView.tsx:566-572 | for every choice of random indices the pool stays a permutation |
| Shuffle.PicksDetermineDraws | apps/web/src/components/game/GameTCView.tsx:566-573 | different random indices give different ordered picks |
| Shuffle.EveryPickHasDraws | apps/web/src/components/game/GameTCView.tsx:566-573 | every ordered pick of distinct cells comes from some choice of random indices |
| Board.KeysAreInjective | apps/web/src/components/game/GameTCView.tsx:344 | distinct cells have distinct text keys |
| Board.TotalMerged | apps/web/src/components/game/GameTCView.tsx:636 | merging two records of bets loses exactly what lay on the common cells |
| BoardTheorems.ActionKeeps | apps/web/src/components/game/GameTCView.tsx:336-650 | every handler, tick and phase change keeps balance not negative and stake at least the bets; balance plus stake moves only by the win at the draw's end and by the stake at reopening |
| BoardTheorems.SessionBalances | apps/web/src/components/game/GameTCView.tsx:231-288 | the same over any sequence of actions |
| BoardTheorems.BoardBalances | apps/web/src/components/game/GameTCView.tsx:231-288 | from the initial state the books balance after any session |
| BoardTheorems.GroupsAre | apps/web/src/components/game/GameTCView.tsx:418-452 | the cells behind a row, a column and a board: ten in a line, ten apart and a hundred, on the visible hundred of triples |
| BoardTheorems.BuyMeans | apps/web/src/components/game/GameTCView.tsx:336-363 | a stake on a group goes through exactly while bets are taken and the balance covers a chip per cell; then each cell has a chip more and nothing else changes |
| BoardTheorems.UndoMeans | apps/web/src/components/game/GameTCView.tsx:375-408 | while bets are taken each cell of the group gives back a chip or what is left, the balance gains exactly that, and nothing else changes |
| BoardTheorems.ClicksMean | apps/web/src/components/game/GameTCView.tsx:336-538 | what the six staking clicks do to every cell: the row's ten of one tens digit, the column's ten of one units digit, on the visible hundred; a chip more for a chip each, or a chip, or what is left, back |
| BoardTheorems.PickGoesThroughExactly | apps/web/src/components/game/GameTCView.tsx:542-563 | a pick goes through exactly while bets are taken and the balance covers the new section total less the old |
| BoardTheorems.DoubleMeans | apps/web/src/components/game/GameTCView.tsx:598-618 | DOUBLE goes through exactly with a bet on the table and the stake shown covered; then every bet is twice what it was |
| BoardTheorems.RepeatAndClearMean | apps/web/src/components/game/GameTCView.tsx:621-650 | REPEAT lays the last bets over the present ones for their full total; CLEAR returns the stake shown; each exactly while bets are taken and there is something to do |
| BoardTheorems.DrawAndReopenMean | apps/web/src/components/game/GameTCView.tsx:231-288 | a draw pays 9, 90 and 900 times the stakes on the drawn digit, pair and triple; reopening gives 37 seconds and an empty table |
| BoardTheorems.CountdownEnds | apps/web/src/components/game/GameTCView.tsx:163-194 | the countdown goes down by one a second, and its last second starts the draw with the bets as they are |
| BoardTheorems.LockedBetsAreSettled | apps/web/src/components/game/GameTCView.tsx:331-337 | once the board is locked, no action before reopening changes the bets, so they are the ones settled |
| BoardTheorems.StakeMatchesExactly | apps/web/src/components/game/GameTCView.tsx:621-638 | stake shown and bets stay equal if and only if the action is not a REPEAT that goes through over a staked cell |
| BoardTheorems.RepeatCanLose | apps/web/src/components/game/GameTCView.tsx:632-637 | a concrete state in which REPEAT charges points that no bet carries |
| BoardTheorems.ClicksReverse | apps/web/src/components/game/GameTCView.tsx:336-538 | right click takes back left click, row undo the row and column undo the column: the whole state is restored |
| BoardTheorems.RepeatReplaysTheRound | apps/web/src/components/game/GameTCView.tsx:273-280 | after reopening, REPEAT restores the last round's bets and charges their total |
| BoardTheorems.PickStakesExactly | apps/web/src/components/game/GameTCView.tsx:542-593 | a pick stakes the chip on exactly n distinct cells of the section, leaves the rest alone, and charges the new section total less the old |
| BoardTheorems.PickingAgainIsFree | apps/web/src/components/game/GameTCView.tsx:540-563 | picking again always goes through, costs nothing and replaces the cells |
| BoardTheorems.WheelShowsWhatPays | apps/web/src/components/game/GameTCView.tsx:210-212 | the digits the stopped rings show spell the three numbers the bets are settled on |
| BoardView.SettleBets | apps/web/src/components/game/GameTCView.tsx:24-33 | the loop over the entries, in any order, pays 9, 90 and 900 times the stakes on the three drawn cells |
| BoardView.StakeLine | apps/web/src/components/game/GameTCView.tsx:420-427 | the loop adds one chip to each of the ten cells and touches no other |
| BoardView.StepDownLine | apps/web/src/components/game/GameTCView.tsx:471-489 | the loop takes a chip, or what is left, off each staked cell of ten, and returns what was taken |
| BoardView.SectionStake | apps/web/src/components/game/GameTCView.tsx:549-555 | the loop sums what the hundred cells of the section hold |
| BoardView.PartialShuffle | apps/web/src/components/game/GameTCView.tsx:566-572 | the in-place swaps produce the pool the shuffle theorems speak of |
| BoardView.Restake | apps/web/src/components/game/GameTCView.tsx:575-585 | clears the section and stakes the chip on each picked cell |
| BoardView.SumOf | apps/web/src/components/game/GameTCView.tsx:623-626 | the loop sums the record of bets |
| BoardView.DoubleEach | apps/web/src/components/game/GameTCView.tsx:606-610 | the loop doubles every bet and adds none |
| BoardView.GameTCView.PlaceBet | apps/web/src/components/game/GameTCView.tsx:336-363 | unless locked or short of a chip, one chip moves from the balance to the stake and onto that cell, and nothing else changes; the board stays valid |
| BoardView.GameTCView.RemoveBet | apps/web/src/components/game/GameTCView.tsx:375-408 | unless locked or unstaked, one chip, or what is left, moves from the cell back to the balance; an emptied cell disappears; the board stays valid |
| BoardView.GameTCView.QuickRow | apps/web/src/components/game/GameTCView.tsx:411-436 | a chip onto each of the row's ten cells for ten chips, or no change if locked or short; the board stays valid |
| BoardView.GameTCView.QuickCol | apps/web/src/components/game/GameTCView.tsx:439-464 | a chip onto each of the column's ten cells for ten chips, or no change if locked or short; the board stays valid |
| BoardView.GameTCView.QuickRowUndo | apps/web/src/components/game/GameTCView.tsx:467-501 | each staked cell of the row gives back a chip or what is left, and the balance gains exactly their sum; the board stays valid |
| BoardView.GameTCView.QuickColUndo | apps/web/src/components/game/GameTCView.tsx:504-538 | each staked cell of the column gives back a chip or what is left, and the balance gains exactly their sum; the board stays valid |
| BoardView.GameTCView.RandomPick | apps/web/src/components/game/GameTCView.tsx:542-595 | with the count clamped to 0..100, the section's bets become a chip on each cell the shuffle picked, for the new total less the old, or no change if locked or short; the board stays valid |
| BoardView.GameTCView.Double | apps/web/src/components/game/GameTCView.tsx:598-618 | every bet and the stake double for the stake shown, or no change if locked, empty or short; the board stays valid |
| BoardView.GameTCView.Repeat | apps/web/src/components/game/GameTCView.tsx:621-638 | the last round's bets overwrite the present ones for their full total, or no change if locked, none or short; the board stays valid |
| BoardView.GameTCView.Clear | apps/web/src/components/game/GameTCView.tsx:641-650 | the whole stake shown returns to the balance and the table is empty, unless locked or empty already; the board stays valid |
| BoardView.GameTCView.Tick | apps/web/src/components/game/GameTCView.tsx:163-194 | one second less while betting; from one second the draw starts with no bet changed; the board stays valid |
| BoardView.GameTCView.EndDraw | apps/web/src/components/game/GameTCView.tsx:231-259 | a draw that is running ends: the win is paid into the balance and shown, bets and stake stay; otherwise no change; the board stays valid |
| BoardView.GameTCView.Reopen | apps/web/src/components/game/GameTCView.tsx:268-288 | a shown result gives way to betting: the bets become the previous ones, the table and stake are empty, the win stays shown; the board stays valid |

## Left out

- HTTP, NestJS wiring, DTO decorators, logging, exception filters and health checks: plumbing. What the DTOs guarantee is assumed where the services assume it (at least one item; a positive adjustment amount).
- PostgreSQL and Prisma beyond read-committed visibility, row locks, unique constraints and rollback; foreign-key share locks; the order in which waiting transactions wake (any order is allowed).
- PostgreSQL's own deadlock detection: the money path needs none (`NoDeadlock`). Two session revocations of one owner can wait for each other, since each locks its rows in any order; breaking that is a crash of one of them in the machine.
- Identifiers: ids are fresh numbers or positions in a table, a refresh token is the position of its session, users and admins are numbers. Hashing, JWTs and random bytes are not modelled.
- `caller`, `txStart`, `origin`, `at` and `seen` are bookkeeping of the machines that the tables do not hold; `lockedAt`, `version` and the rest are columns.
- A reply lost after COMMIT: the machine's call then counts as the success it is on the server.
- Registration is one atomic step that opens a zero account; uniqueness of user names and contacts is not part of it.
- `findReplay` of a bet reads the bet and its items in one statement; the ledger row in a second one.
- A missing or over-long idempotency key is refused by `PlaceBet` and `AdjustPoints` before the machine starts; an over-long adjustment key is not modelled.
- `applyMutation` has no caller among the modelled services; it is modelled as an object method, not as a call of the concurrent machine. `allowOverdraw` is never set and not modelled.
- Host-clock times (`opensAt`, the betting deadline of a new round, session expiry) are arbitrary inputs, also to the sequential reconciler of the refinement.
- Results, settlement and the trigger of BETTING_ACTIVE are not implemented in the repository; BETTING_ACTIVE is reached by an environment move, and a locked round is ended by one.
- Redis rate limits, status cache, publishing and login lockout: they fail open and decide nothing modelled. The scheduler's interval registration is left out; shutdown does not release the lease.
- The `number` input of `toCentipoints`, `toFixed`, `centipointsToNumber` and every floating-point rounding: reals and integers here are exact. `sumCentipoints` is a plain fold.
- `RangeError` for a digit that is not 0 to 9 in the wheel functions: digits are typed. The engine's setters, reset and result display only assign. `WheelEngine.ShowsDigitExactly` compares its segments with the other component's digit orders, which no code does.
- Status messages, the recent-history list, tooltips, audio, hotkeys, the win preview and all rendering of the board. The drawn number is stored when the draw ends, where the component stores it when the draw starts; nothing modelled reads it in between. Each handler is atomic, as if React had rendered between any two.
- services/api/prisma/seed.ts gives a development balance without a ledger row; theorems about accounts hold for accounts opened by registration.
- Paging, profile, history and reporting endpoints: they would add easy members only.
- SessionTheorems.LogoutAllMayMissASuccessor: one run, as a witness; `RevocationReachesExactly` is the general statement. ReuseMayMissASuccessor likewise.
- BoardView.GameTCView.SelectChip: takes a positive chip, as every chip of the tray is.
