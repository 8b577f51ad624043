# AutopilotOps workflow model

A Dafny model of the durable workflow that takes an external signal to an executed action, of
refresh-session rotation, of the rule cache and of idempotent ingestion, with proofs about every
run of them. `dafny verify dfyconfig.toml` checks all of it.

## How it is modelled

**One event is one statement or one transaction.** `Lifecycle` holds the rows of one action, the
worker calls and admin requests that are under way with what each of them read, and a ledger of
what happened. `Step` is total: an event whose precondition fails leaves the state alone. So every
sequence of events is a run, and a lemma about `RunAll(start, es)` for all `es` is a lemma about
every interleaving of any number of workers, stale reads, expired locks, crashes and admin
requests, with any clock values. `Dispatch`, `SignalRuns`, `Sessions`, `Ingestion`, `Lease` and
the second half of `RuleCache` follow the same pattern.

**Rows are grouped by action.** Every unique key of the tables involved names the action
(prisma/schema.prisma: the action's own key at 283, one attempt per number at 306, one approval at
314, one incident, recommendation and task at 337, 357 and 379, deliveries at 406, outbox dedupe
keys at 430, dead letters by source at 460), and no transaction on one action reads another's
rows. `World` puts all actions back together and shows that the results carry over. Keys and ids
are structured values in the model; `Keys` shows when the strings of the source tell the same
things apart.

**Imperative code has an imperative form.** `Worker.Database`, `Dispatch.Outbox`,
`Planning.Processor`, `AdminRoutes.Desk`, `Sessions.Auth`, `RuleCache.RuleEngine` and
`Ingestion.Signals` are classes whose methods follow the source statement by statement. Each
method is proved equal to a function of the old tables, and to a predicate that spells its result
out without that function (`Approves`, `Executes`, `Rounds`, `Refreshes`, `Patches` and the like); an
`IsARun` lemma shows that the function is a run of the transition system, so what holds of all runs
holds after each call.

| module | subject |
|---|---|
| `Domain`, `ActionRows` | roles, risks and policy; the rows of one action and the writes to them |
| `Lifecycle`, `World` | the transition system of one action, and of all actions |
| `ApprovalGate`, `AttemptLedger`, `Outcomes`, `Enqueueing` | invariants over every run |
| `Resets` | when a retry or reprocess of a dead letter helps |
| `Worker`, `AdminRoutes` | worker and admin handlers as methods |
| `Lease`, `TimedRuns` | the action lock against the clock, and `Lifecycle` runs on that clock |
| `Dispatch` | outbox rows, dispatchers and backoff |
| `Planning`, `SignalRuns` | rule evaluation and the signal transaction; a signal over all deliveries of its job |
| `Pipeline` | one action from its plan to its end |
| `Sessions`, `RuleCache`, `Ingestion` | refresh sessions, the rule cache, POST /signals |
| `Keys` | dedupe keys, job ids and refresh tokens as strings |

## Findings

Where the code is weaker than its documentation suggests, the model follows the code. Each point
has a lemma with a concrete run, or the exact condition.

- An expiry that read its approval before an approve committed may land after it: the action runs
  to `EXECUTED` beside an approval that reads `EXPIRED` (`LateExpiryDoesNotStopAnApprovedAction`).
  Guarding the expiry by the status it overwrites is exactly what is missing
  (`ApprovedIffExpiriesAreGuarded`).
- Resetting `attemptCount` does not free attempt numbers. A retry or a reprocess makes the action do
  anything again exactly if some number up to the limit is unused (`ResetHelpsIff`), so never after a
  job that used them all (`ResetAfterJobHelpsIff`);
  docs/OPERATIONS.md line 69 presents the reset as the remedy. A reset that commits between a claim
  and that call's second read hands out attempt number 0 (`AnyResetHelpsIff`).
- A second reprocess of the same dead letter reuses its dedupe key and strands the action in
  `PENDING` (`SecondReprocessStrands`).
- Mutual exclusion of workers needs a lock TTL above one heartbeat period, one start-up delay and
  two database delays, and no less will do (`MutualExclusionIff`). The configuration accepts a TTL
  of 10 seconds (apps/api/src/config/env.ts line 33), below the 30-second heartbeat.
- Sparing rows with a live lock from admin writes is not enough: the max-attempts branch of `claim`
  ignores the lock (`RetryUnderALiveCall`), and a call still writes after its row reads `EXECUTED`
  (`RequeueOfExecuted`). The three guards on the row that are needed are also enough
  (`MutualExclusionByRow`, `FullCareIff`), and then no result, though none checks the lock, overwrites
  a later claim's (`OneCallOnTheLatestAttempt`).
- Dispatcher writes are not fenced. One that comes five minutes or more after its claim shortens the
  backoff or strands the row in `FAILED` (`LateFailureShortensBackoff`, `LateFailureStrands`).
- The reprocess of an outbox dead letter reads the letter outside its transaction and resets the row
  without looking at its status. Two that read the same letter let a dispatcher from before the second
  reset shorten the backoff after it, as soon as it reports five seconds after its claim
  (`UnguardedReprocessShortensBackoff`). The backoff holds in every run exactly if results are written
  less than five minutes after the claim, and either that reset is guarded by the status or they are written
  less than five seconds after it (`BackoffHoldsIff`).
- A dispatcher that crashes strands its row in `PROCESSING` exactly when it was on the last attempt
  (`CrashStrandsExactly`); stranded rows never move again (`StuckForEver`).
- docs/OPERATIONS.md line 51 says that actions of unknown type are marked `FAILED`; the code
  dead-letters them (`UnknownTypesAreDeadLettered`).
- The failure mark of the signal worker checks nothing: one that lands after another delivery
  committed reopens a processed signal, and a plan is applied again (`LateFailureReopens`). With
  unchanged rules that adds nothing (`ReplaysAddNothing`).
- A listing that stores its answer after an invalidation leaves a stale cache entry behind
  (`LateStoreIsStale`), for at most the TTL plus the listing's own delay (`StalenessIsBounded`).
  Exactness needs exactly a store that checks that the version it read is still current
  (`ExactIffStoresAreFresh`).

A logout that names no session, with neither a refresh token nor a session id in the access token,
would revoke all of the user's sessions in the tenant (`Sessions.Auth.Logout`); every access token that
the service signs names one (apps/api/src/routes/auth.routes.ts lines 94 and 244), so none reaches this.

## Model

| member | source | states |
|---|---|---|
| `ApprovalGate.NothingRunsUnapproved` | apps/api/src/services/action-claim.service.ts:27-66 | in every reachable state, an action that was ever claimed, attempted, enqueued or given an effect is of low risk, or of medium risk where the tenant lets these run, or was approved exactly once, by someone in its tenant other than its requester: a manager, admin or owner for medium risk, an admin or owner for high risk; critical, refused and expired actions are never touched |
| `ApprovalGate.DecisionsWereAsked` | apps/api/src/routes/actions.routes.ts:159-240 | every decision that the ledger counts belongs to a read of the same run: an approval to the approve route called by that very actor, a refusal to the reject route |
| `ApprovalGate.ApprovalsStayInStep` | apps/api/src/routes/actions.routes.ts:127-240 | an approval exists exactly for actions of high risk, and of medium risk where the tenant does not let these run; it awaits a decision exactly while the action waits, and sees at most one committed approve or reject, unguarded expiry included |
| `ApprovalGate.NewCaseGate` | apps/api/src/engines/policy.engine.ts:16-33 | an action is born pending and enqueued exactly for low risk, and for medium risk where the tenant lets it run; waiting, with an approval that asks for the role and expires at the time of its risk, exactly for the other medium risk and for high risk; skipped exactly for critical risk; and so it satisfies the gate's invariant |
| `ApprovalGate.RunKeepsGateThroughout` | apps/api/src/middleware/authz.ts:57-62 | every run keeps that invariant: the approver's role, tenant and identity, one decision at most, nothing reopened and no refusal forgotten |
| `ApprovalGate.ReadIsSound` | apps/api/src/routes/actions.routes.ts:162-179 | a request that passes its handler's checks on a state that keeps the gate may commit later without breaking it |
| `ApprovalGate.ApproveKeepsGate` | apps/api/src/routes/actions.routes.ts:181-212 | a stale approve commits at most once and never reopens the gate |
| `ApprovalGate.RefusalKeepsGate` | apps/api/src/routes/actions.routes.ts:133-139 | a reject, or an expiry that checks nothing, never opens the gate |
| `ApprovalGate.RequeueKeepsGate` | apps/api/src/routes/actions.routes.ts:74-97 | a retry or reprocess that read an old status only ever requeues an action past the gate |
| `ApprovalGate.ApprovalsReadTheirVerdict` | apps/api/src/routes/actions.routes.ts:127-240 | over every run, an approval reads approved, or refused, exactly if that decision was committed and every expiry that committed looked at its status first; it is pending exactly while neither decision nor expiry has committed; else it reads expired |
| `ApprovalGate.ApprovedIffExpiriesAreGuarded` | apps/api/src/routes/actions.routes.ts:133-139 | over every run of an action that needed an approval and was released, the approval reads approved if and only if every expiry that committed found it still awaiting its decision, the guard both expiry writes lack |
| `ApprovalGate.ApprovedSurvivesExactly` | apps/api/src/routes/actions.routes.ts:170-175 | a step keeps a released action's approval reading approved exactly if it is no unguarded expiry |
| `ApprovalGate.DecisionsStand` | apps/api/src/routes/actions.routes.ts:181-190 | in every continuation of a decided approval no approve or reject commits again, and it reads what it read if and only if it had expired already or every later expiry is guarded |
| `ApprovalGate.LateExpiryDoesNotStopAnApprovedAction` | apps/api/src/routes/actions.routes.ts:133-139 | a run that ends with an executed action beside an expired approval |
| `Domain.RolesInOrder` | packages/shared/src/index.ts:98-104 | the ranks order the roles: viewer, operator, manager, admin, owner |
| `AttemptLedger.AttemptsAreConserved` | apps/api/src/services/action-claim.service.ts:44-66 | the count on the row is the number of claims since creation or the last reset, is at most the limit, and all claims are at most the limit times one plus the resets |
| `AttemptLedger.AttemptRowsAreBounded` | prisma/schema.prisma:306-306 | at most one more attempt than the limit is ever begun on an action, whatever is retried, reset or taken over |
| `Resets.ResetHelpsIff` | apps/api/src/routes/actions.routes.ts:279-293 | from a dead-lettered action at rest, some run without a reset under a claim begins another attempt if and only if one of the numbers 1 to the limit was never used; for a known type, that is also when some such run executes it |
| `Resets.AnyResetHelpsIff` | apps/api/src/services/action-execution.service.ts:30-34 | over all runs, resets under a claim included, the same with number 0 added, for a new attempt and for an execution |
| `Pipeline.ResetAfterJobHelpsIff` | apps/api/src/routes/actions.routes.ts:279-293 | after a job that ended in the dead letter, a reset can lead to another attempt if and only if the job left one unused |
| `Pipeline.FailingJobsEnd` | apps/api/src/services/action-execution.service.ts:57-71 | both cases are reached from the plan: retryable failures use every number, a fatal first one leaves the rest free |
| `Outcomes.FinishedMeansDone` | apps/api/src/services/action-execution.service.ts:40-101 | under any interleaving of unfenced writes, an executed action has a succeeded attempt and exactly the rows of its type: an incident, a recommendation, a task, a delivery to its channel and recipient, or none for an audit-only type or a provider; a type outside the list without a provider is never executed, and no row of another table ever appears |
| `ActionRows.EffectsByTable` | apps/api/src/services/action-side-effects.ts:62-210 | table by table, which types write there: a payload without channel or recipient gets the defaults, and a registered provider replaces the row |
| `Outcomes.DeadWorkStaysVisible` | apps/api/src/services/action-dead-letter.service.ts:18-72 | a dead-lettered action always has its dead letter, and it is open |
| `Outcomes.EffectsHappenOnce` | apps/api/src/services/action-side-effects.ts:62-176 | an action owns at most one effect row in all tables together, and the first contents stay for ever |
| `Outcomes.StepKeepsOutcome` | apps/api/src/services/notification.service.ts:13-26 | no event deletes or rewrites an effect or an attempt's owner, or closes the dead letter of a dead action |
| `Enqueueing.BirthEnqueues` | apps/api/src/workers/signal.worker.ts:144-188 | an action is born with its outbox row exactly when it is born `PENDING` |
| `Enqueueing.CommitEnqueues` | apps/api/src/lib/outbox.ts:35-69 | the commit of an approve, retry or reprocess inserts a fresh outbox row exactly when its dedupe key is unused |
| `Enqueueing.PendingIsEnqueued` | apps/api/src/routes/actions.routes.ts:187-198 | in every reachable state, whatever turns an action `PENDING` is such a commit, with that exact condition |
| `Enqueueing.SecondReprocessStrands` | apps/api/src/routes/actions.routes.ts:275-300 | a run with two reprocesses of one dead letter that ends `PENDING` with every outbox row already sent |
| `World.EachActionHasItsRun` | prisma/schema.prisma:283-283 | in any run over any number of actions, each action went through a run of its own |
| `World.WorldIsSafe` | prisma/schema.prisma:306-306 | so every action of every reachable world satisfies the gate, the ledger and the outcome invariants |
| `Worker.Database.Claim` | apps/api/src/services/action-claim.service.ts:22-88 | wins exactly an action past the gate with attempts left that is pending, failed or running under an expired lock, and writes worker, clock, lock and count; dead-letters exactly an action past the gate that is pending, failed or running and has none left; else changes nothing |
| `Worker.Database.Heartbeat` | apps/api/src/services/action-claim.service.ts:90-97 | exactly for a running action that this worker holds, moves the heartbeat and the lock expiry and nothing else |
| `Worker.Database.Progress` | apps/api/src/services/action-execution.service.ts:40-55 | the try block as far as it gets: the row of the type with its contents unless it is there, then the attempt reads succeeded, then the action reads executed and is unlocked |
| `Worker.Database.Fail` | apps/api/src/services/action-execution.service.ts:57-102 | the attempt reads failed; the action is dead-lettered with an open dead letter on a fatal error or the last attempt, and else reads failed; either way it is unlocked, and no other attempt changes |
| `Worker.Database.ExecuteActionById` | apps/api/src/services/action-execution.service.ts:18-106 | the whole new state, case by case: ended actions are left alone, waiting ones only get a missing approval, exhausted ones are dead-lettered, held ones are left to their holder; else the next number is used, and action, attempt, effect and dead letter end as the outcome says |
| `Worker.Database.RunJob` | apps/api/src/workers/action.worker.ts:11-21 | a job and its redeliveries, as a function of the old rows |
| `Worker.RedeliveredWhileItThrows` | apps/api/src/workers/action.worker.ts:11-21 | another delivery follows exactly if the call threw or failed retryably and the queue has one left; else the rows of this call are the job's |
| `Worker.ExecuteIsARun` | apps/api/src/services/action-execution.service.ts:18-106 | a whole call, whatever it finds and wherever it breaks, is a run of the transition system |
| `Worker.EnsureIsARun` | apps/api/src/services/approval.service.ts:23-38 | the approval that a refused claim asks for is inserted if absent, by a read and a commit of the transition system |
| `Worker.OneDelivery` | apps/api/src/services/action-execution.service.ts:30-102 | what one delivery does to an action nobody else works on: one more attempt, with the next number, and the outcome decided by success, retryability and attempts left |
| `Worker.OneJobSettlesOneAction` | apps/api/src/workers/action.worker.ts:14-20 | one job ends in executed or dead-lettered within the attempts left, using consecutive numbers; every delivery but the last failed retryably |
| `Worker.UnknownTypesAreDeadLettered` | apps/api/src/services/action-side-effects.ts:210-210 | an action of unknown type is dead-lettered at once |
| `AdminRoutes.Desk.Approve` | apps/api/src/routes/actions.routes.ts:159-216 | done exactly for a manager or above of the tenant with the role the approval demands, not its requester, on a pending approval that is not overdue: it then reads approved and the action is pending, past the gate and enqueued; an overdue one reads expired and its action canceled; else nothing changes |
| `AdminRoutes.Desk.Reject` | apps/api/src/routes/actions.routes.ts:218-240 | done exactly for the same people, the requester included, on any pending approval, overdue or not: it then reads rejected and the action is canceled; else nothing changes |
| `AdminRoutes.Desk.ExpirePending` | apps/api/src/routes/actions.routes.ts:127-157 | exactly the overdue pending approvals of the tenant read expired and their actions canceled; they are counted and none is left |
| `AdminRoutes.Desk.Retry` | apps/api/src/routes/actions.routes.ts:65-97 | done exactly for an admin or owner of the tenant on a failed, pending or dead-lettered action: it is pending, unlocked, with the configured limit, its count reset only if it was dead-lettered, and an outbox row for the request; else nothing changes |
| `AdminRoutes.Desk.Reprocess` | apps/api/src/routes/actions.routes.ts:268-315 | done exactly for an admin or owner of the tenant on an open dead letter: the letter reads reprocessed and the action is pending, unlocked, with count 0 and an outbox row; else nothing changes |
| `AdminRoutes.ApproveIsARun` | apps/api/src/routes/actions.routes.ts:159-216 | an undisturbed approve is a read and a commit of the transition system |
| `AdminRoutes.RejectIsARun` | apps/api/src/routes/actions.routes.ts:218-240 | the same of a reject |
| `AdminRoutes.RetryIsARun` | apps/api/src/routes/actions.routes.ts:65-97 | the same of a retry |
| `AdminRoutes.ReprocessIsARun` | apps/api/src/routes/actions.routes.ts:268-315 | the same of a reprocess |
| `AdminRoutes.ExpireIsARun` | apps/api/src/routes/actions.routes.ts:128-154 | the same of one action's share of the clean-up |
| `AdminRoutes.DecisionsAreFinal` | apps/api/src/routes/actions.routes.ts:169-240 | once decided or expired, and after any interleaving of workers, stale requests and unguarded expiries, no approve or reject is accepted, changes anything or commits a decision |
| `Lease.MutualExclusionByRow` | apps/api/src/services/action-execution.service.ts:36-38 | if the lock outlives period, set-up and two delays, and admin writes and the max-attempts branch spare a row whose lock is live or that reads executed, no run has two calls at work |
| `Lease.FullCareIff` | apps/api/src/services/action-claim.service.ts:27-39 | given such a lock, that holds if and only if all three guards are there: sparing live locks, sparing executed rows, and the max-attempts branch doing so too |
| `Lease.MutualExclusionIff` | apps/api/src/services/action-claim.service.ts:90-97 | the bound on the lock is exact, for writers that spare held locks and for writers that spare the row: at or below it some run has two calls at work |
| `Lease.TakeoverTakesAFullTtl` | apps/api/src/services/action-claim.service.ts:41-66 | a takeover comes a full TTL after the recorded heartbeat, with no hypothesis on time or admins |
| `Lease.TakeoverFindsNobody` | apps/api/src/services/action-claim.service.ts:41-66 | and, under the bound, finds nobody at work |
| `Lease.RequeueOfRunning` | apps/api/src/routes/actions.routes.ts:74-90 | without the first guard, a requeue under a live lock lets a second call in |
| `Lease.RequeueOfExecuted` | apps/api/src/services/action-execution.service.ts:43-55 | without the second, a stale retry that commits while a call writes its last audit row does |
| `Lease.RetryUnderALiveCall` | apps/api/src/services/action-claim.service.ts:30-38 | without the third, the max-attempts branch and a retry of its dead letter do, though no admin write hit a live lock or an executed row |
| `TimedRuns.OneCallOnTheLatestAttempt` | apps/api/src/services/action-execution.service.ts:30-102 | in every `Lifecycle` run that keeps the clock, under the bound and the guards, at most one call is at work and its attempt is that of the latest claim, so no unfenced result overwrites a later one |
| `TimedRuns.DoKeepsAgreement` | apps/api/src/services/action-claim.service.ts:44-97 | every step of an action's life and its step on the lock keep row and calls the same in both models |
| `TimedRuns.LifeIsARun` | apps/api/src/services/action-execution.service.ts:18-106 | without its clock a timed run is a run of `Lifecycle` |
| `Dispatch.OutboxAccounting` | apps/api/src/workers/outbox.dispatcher.ts:41-57 | for any dispatchers, crashes and reprocesses: attempts are the claims since creation or reset and at most the limit; processed rows had their job added; dead rows have an open dead letter |
| `Dispatch.BackoffIsTheTable` | apps/api/src/workers/outbox.dispatcher.ts:14-17 | the formula is the table 5, 10, 20, 40, 80, 160, and 300 from the seventh failure on |
| `Dispatch.FailurePutsBack` | apps/api/src/workers/outbox.dispatcher.ts:89-127 | in any interleaving a failure puts the row back for the wait of the attempt it read, or dead-letters it with an open letter, and clears the claim |
| `Dispatch.BackoffHolds` | apps/api/src/workers/outbox.dispatcher.ts:14-17 | if no dispatcher writes after losing its claim, claims are spaced by the table's waits on the failure and the crash path, the k-th after the first comes at least 5(2^k - 1) seconds later up to the cap, and a failed row has attempts left |
| `Dispatch.BackoffHoldsIff` | apps/api/src/workers/outbox.dispatcher.ts:11-17 | the backoff holds, and failed rows have attempts left, in every run whose results are written within a deadline of their claim, if and only if the deadline is below the stale timeout and either reprocesses are guarded by the status of the row or the deadline is below the first backoff |
| `Dispatch.PromptKeepsBackoff` | apps/api/src/workers/outbox.dispatcher.ts:41-57 | for any limit of at least two attempts that condition is enough |
| `Dispatch.UnguardedReprocessShortensBackoff` | apps/api/src/routes/actions.routes.ts:271-307 | without the guard, two reprocesses of one letter and a result written five seconds after its claim make a claim come too early, for every limit from three attempts up |
| `Dispatch.PromptIsFenced` | apps/api/src/workers/outbox.dispatcher.ts:41-57 | with a deadline below the stale timeout and guarded reprocesses, no dispatcher writes after a later claim of its row |
| `Dispatch.CrashStrandsExactly` | apps/api/src/workers/outbox.dispatcher.ts:47-51 | a crash of the only dispatcher at work strands the row exactly when it comes on the last attempt |
| `Dispatch.StuckForEver` | apps/api/src/workers/outbox.dispatcher.ts:47-51 | a row out of attempts that is not dead-lettered never changes again |
| `Dispatch.CrashOnLastAttemptStrands` | apps/api/src/workers/outbox.dispatcher.ts:47-51 | a crash on the last attempt makes such a row |
| `Dispatch.LateFailureShortensBackoff` | apps/api/src/workers/outbox.dispatcher.ts:121-126 | a failure written after a takeover lets the next claim come too early |
| `Dispatch.LateFailureStrands` | apps/api/src/workers/outbox.dispatcher.ts:121-126 | or strands a failed row |
| `Dispatch.RoundIsARun` | apps/api/src/workers/outbox.dispatcher.ts:78-131 | an undisturbed round of the batch loop is a run of the transition system |
| `Dispatch.PicksExactly` | apps/api/src/workers/outbox.dispatcher.ts:62-72 | a pass of the batch begins exactly on a row with fewer than 1000 attempts that is due, or has been processing for five minutes, and remembers the row's limit |
| `Dispatch.RoundKeepsItsPromise` | apps/api/src/workers/outbox.dispatcher.ts:41-131 | a round on a row that is due or abandoned uses one attempt and ends processed, dead-lettered on the last attempt, or put back for 5, 10, 20, 40, 80, 160 and then 300 seconds after the k-th failure; on any other row it changes nothing |
| `Dispatch.CountsAddUp` | apps/api/src/workers/outbox.dispatcher.ts:74-134 | the three counts are the claims won: the attempts in the whole table rise by exactly their sum |
| `Dispatch.BatchHandlesEach` | apps/api/src/workers/outbox.dispatcher.ts:78-131 | each candidate of a batch ends as such a round would leave it alone: sent with its job, put back for exactly the wait of its attempt, or buried with an open dead letter |
| `Dispatch.BatchLeavesOthers` | apps/api/src/workers/outbox.dispatcher.ts:78-131 | rows that are not candidates are untouched |
| `Dispatch.Outbox.ClaimOutboxEvent` | apps/api/src/workers/outbox.dispatcher.ts:41-57 | wins exactly a row with attempts left that is due, or that has been processing for five minutes, and writes status, count, clock and claimant |
| `Dispatch.Outbox.DispatchOne` | apps/api/src/workers/outbox.dispatcher.ts:79-131 | one round of the loop: the new row with its exact wait, the job, and the dead letter |
| `Dispatch.Outbox.DispatchBatch` | apps/api/src/workers/outbox.dispatcher.ts:59-135 | the loop with its three counters, whose sum is the rise of the attempts in the table |
| `Dispatch.Outbox.Reprocess` | apps/api/src/routes/actions.routes.ts:271-315 | an open outbox dead letter reads reprocessed and its row is pending again with no attempts, due at once; a reprocessed or unknown letter, or a missing row, changes nothing |
| `Dispatch.ReprocessIsARun` | apps/api/src/routes/actions.routes.ts:271-315 | an undisturbed reprocess is a read and a commit of the transition system |
| `Planning.FirstPlannedWins` | apps/api/src/workers/signal.worker.ts:136-219 | key by key: a new key gets the row its first planned item asks for, an old key keeps its row and gets only what its status asks for, no other key moves |
| `Planning.FirstProcessing` | apps/api/src/workers/signal.worker.ts:136-164 | on first processing the rows are exactly the planned keys, each as a newborn action of its first planned item |
| `Planning.PlanOnePlansItsRow` | apps/api/src/workers/signal.worker.ts:136-219 | one round, risk by risk: a new action is born pending and enqueued, waiting with its approval, or skipped; an old one gets only what its status asks for and lacks; no other row moves |
| `Planning.ReplayIsHarmless` | apps/api/src/workers/signal.worker.ts:144-219 | a replay from any later state changes no action or approval and adds an outbox row only to a `PENDING` action |
| `Planning.PlannedExactly` | apps/api/src/engines/rule.engine.ts:79-104 | the planned list position by position: the actions of matched rules with well-formed actions, in the order of the query and of each rule, each once, and no more |
| `Planning.MatchesAreRecorded` | apps/api/src/engines/rule.engine.ts:79-85 | the row of a rule's execution records its last verdict |
| `Planning.OtherMatchesStay` | apps/api/src/engines/rule.engine.ts:81-85 | and rows of other rules or signals stay as they are |
| `Planning.Processor.EvaluateRules` | apps/api/src/engines/rule.engine.ts:60-107 | the rule loop: the planned list in order, and the rule-execution rows |
| `Planning.Processor.PlanRound` | apps/api/src/workers/signal.worker.ts:136-219 | one round of the loop, with what it leaves in the new or old row spelled out risk by risk |
| `Planning.Processor.Process` | apps/api/src/workers/signal.worker.ts:94-225 | the signal transaction, with the fallback when no rule plans anything and nothing on a processed signal |
| `SignalRuns.PlansAreApplied` | apps/api/src/workers/signal.worker.ts:76-238 | for any deliveries in any interleaving, plans applied equal late failure marks plus one if the signal reads processed; without such a mark, at most one is ever applied |
| `SignalRuns.StatusMoves` | apps/api/src/workers/signal.worker.ts:33-225 | a signal is queued once from received, taken up unless processed, processed only by an applied plan, and failed or reopened only by the failure mark of a delivery that had taken it up |
| `SignalRuns.ActionsComeFromTheirFirstPlan` | apps/api/src/workers/signal.worker.ts:136-164 | over all deliveries, and whatever happened to the actions since, there is one action for each key ever planned, born as its first planned item says |
| `SignalRuns.ReplaysAddNothing` | apps/api/src/workers/signal.worker.ts:143-164 | with the same plan each time, the actions are those of one application |
| `SignalRuns.SignalActionsAreSafe` | apps/api/src/workers/signal.worker.ts:94-225 | every action of every reachable signal satisfies the gate, the ledger and the outcome invariants |
| `SignalRuns.LateFailureReopens` | apps/api/src/workers/signal.worker.ts:33-37 | a run in which a late failure mark reopens a processed signal and another plan adds an action |
| `SignalRuns.PlanCasesIsPlanAll` | apps/api/src/workers/signal.worker.ts:136-219 | on the rows, the loop over whole actions is the transaction of `Planning` |
| `Pipeline.ClearedWorkIsSettled` | apps/api/src/workers/action.worker.ts:11-21 | a planned action that policy or an approver cleared has exactly one outbox row, and its job ends it executed with attempt and effect, or dead-lettered and open, decided by its last delivery |
| `Pipeline.FreshRowYieldsItsJob` | apps/api/src/workers/outbox.dispatcher.ts:78-88 | the round for a fresh row decides: if it reaches the queue the row is processed and its job added, else it is put back with the first backoff and no job |
| `Pipeline.ClearedHasOneRow` | apps/api/src/routes/actions.routes.ts:187-198 | a cleared action gives the dispatchers exactly one fresh row, due at once with five attempts, under the key of its first reason |
| `Pipeline.JobsNameTheirAction` | apps/api/src/lib/outbox.ts:35-52 | a row's key names its action and reason and no other |
| `Pipeline.FromPlanToEnd` | apps/api/src/workers/outbox.dispatcher.ts:30-35 | from the plan to the end: the outbox rows that plan and approval left are the dispatchers' rows; if the round reaches the queue, the job ends the action executed or dead-lettered as its last delivery decides, else the action is untouched |
| `Pipeline.EndIsARun` | apps/api/src/services/action-execution.service.ts:18-106 | plan, approval and job together are one run of the transition system with nothing left under way |
| `Pipeline.EndIsReal` | apps/api/src/services/action-execution.service.ts:18-106 | so an executed end has its attempt and effect, and a dead one its open dead letter |
| `Worker.JobIsARun` | apps/api/src/workers/action.worker.ts:11-21 | a job with all its redeliveries is a run of the transition system |
| `Sessions.LineagesAreChains` | apps/api/src/routes/auth.routes.ts:225-242 | in every reachable state links are acyclic and injective, a session has one successor if rotated and none otherwise, and only the last of a chain is live |
| `Sessions.RevocationIsPermanent` | apps/api/src/routes/auth.routes.ts:236-239 | rows are never deleted or handed over, and a revoked row never changes again |
| `Sessions.FirstRefreshWins` | apps/api/src/routes/auth.routes.ts:225-242 | of any number of refreshes that read one live session, the first commit rotates it and all others leave no trace |
| `Sessions.ReplayEndsEverySession` | apps/api/src/routes/auth.routes.ts:105-125 | its commit leaves no live session of that user in that tenant, and no session of that time nor any successor of one authenticates in any later run |
| `Sessions.ReplayedTokenEndsEverySession` | apps/api/src/routes/auth.routes.ts:202-213 | whoever presents a rotated token, expired or not, and whatever interleaves, the report's commit leaves its owner no live session in that tenant until the next login there |
| `Sessions.LogoutAllEndsEverySession` | apps/api/src/routes/auth.routes.ts:298-303 | the same of logging out everywhere, refreshes under way included |
| `Sessions.LogoutEndsTheSession` | apps/api/src/routes/auth.routes.ts:268-281 | from any state, a logout that names the caller's own session, with a fitting token if one is presented, ends it: no later run accepts a token bound to it; any other such logout changes nothing, and no other session is touched |
| `Sessions.RevokeEndsTheSession` | apps/api/src/routes/auth.routes.ts:334-340 | the same of revoking a session by its id |
| `Sessions.LoginLasts` | apps/api/src/middleware/authz.ts:22-43 | a token bound to a login's session is accepted, in every later run, if and only if it names its user and tenant, the user is an active member with the token's role, the session has not expired and nothing has revoked it |
| `Sessions.EndedForGood` | apps/api/src/middleware/authz.ts:30-43 | once none of a user's sessions in a tenant is live, access tokens bound to them are rejected for good |
| `Sessions.NoneLiveUntilLogin` | apps/api/src/routes/auth.routes.ts:225-242 | once none of a user's sessions in a tenant is live, none is until that user logs in there again |
| `Sessions.RefreshIsARun` | apps/api/src/routes/auth.routes.ts:189-242 | an undisturbed refresh is a read and a commit of the transition system |
| `Sessions.RefreshHandsOver` | apps/api/src/routes/auth.routes.ts:197-242 | a refresh grants a new live session of the same owner, with the keys and expiry it was given, exactly if it presents the token of a live, unexpired session of an active member and the keys are free, and links the old one to it; a rotated token revokes all of its owner's live sessions there; nothing else changes |
| `Sessions.RevokeAll` | apps/api/src/routes/auth.routes.ts:107-110 | a bulk revocation leaves none of the owner's sessions live and touches no other |
| `Sessions.Auth.IssueTokens` | apps/api/src/routes/auth.routes.ts:74-103 | inserts a live session exactly if its id and its token hash are unused |
| `Sessions.Auth.RevokeWhere` | apps/api/src/routes/auth.routes.ts:298-303 | the owner's live sessions carry the reason, and no other row changes |
| `Sessions.Auth.RevokeSession` | apps/api/src/routes/auth.routes.ts:334-340 | counts 1 exactly for a live session of that user in that tenant, with the presented hash if there is one; it then carries the reason and no other row changes; else nothing does |
| `Sessions.Auth.Logout` | apps/api/src/routes/auth.routes.ts:268-281 | the same for the named session, and all of the owner's live sessions when none is named |
| `Sessions.Auth.Refresh` | apps/api/src/routes/auth.routes.ts:189-242 | the whole handler: the session granted, the reuse answered, or nothing changed, as `RefreshHandsOver` spells out |
| `RuleCache.CacheNeverLies` | apps/api/src/services/rule-engine.service.ts:20-37 | after any sequence of atomic listings, creates, patches, drops and expiries, a listing answers what the query would |
| `RuleCache.CreateKeepsCoherent` | apps/api/src/routes/rules.routes.ts:47-61 | dropping the new rule's key is enough |
| `RuleCache.PatchKeepsCoherent` | apps/api/src/routes/rules.routes.ts:82-94 | dropping the old and the new trigger's keys is enough |
| `RuleCache.QueryAnswers` | apps/api/src/services/rule-engine.service.ts:31-34 | the answer is ordered by priority and then age, and holds each active rule of that tenant and trigger as often as the table does, and no other |
| `RuleCache.PatchedIsListed` | apps/api/src/routes/rules.routes.ts:76-94 | after an applied patch its rule is listed for a trigger exactly if the patch, or else the old row, makes it active and gives it that trigger |
| `RuleCache.KeysDoNotCollide` | apps/api/src/services/rule-engine.service.ts:7-9 | cache keys are equal exactly for equal tenant and trigger, if tenant ids hold no colon |
| `RuleCache.ColonsCollide` | apps/api/src/services/rule-engine.service.ts:7-9 | with a colon they can collide |
| `RuleCache.StalenessIsBounded` | apps/api/src/services/rule-engine.service.ts:35-41 | with interleaved requests and failing deletions, an unexpired entry was right less than the TTL plus the longest listing delay ago |
| `RuleCache.FreshStoresAreExact` | apps/api/src/services/rule-engine.service.ts:31-46 | with interleaved requests, if no listing stores an answer from a replaced version, every entry is what the query answers now, except those whose invalidation is still owed |
| `RuleCache.ExactWhenNothingIsOwed` | apps/api/src/routes/rules.routes.ts:92-94 | so with such stores a key whose altering changes were all followed by its drop is exact |
| `RuleCache.ExactIffStoresAreFresh` | apps/api/src/services/rule-engine.service.ts:31-35 | for any key: every run with stores at most so many versions old, and no invalidation owed to the key, leaves it exact, if and only if that number is 0 |
| `RuleCache.LateStoreIsStale` | apps/api/src/services/rule-engine.service.ts:31-35 | a store that lands after the invalidation leaves an old answer, from any table, with no invalidation owed and an answer one version old |
| `RuleCache.SpoiledExactly` | apps/api/src/services/rule-engine.service.ts:31-35 | an exact cache entry stops being exact exactly by a change that alters its answer, or by a store of an answer that differs |
| `RuleCache.RuleEngine.ListActiveRules` | apps/api/src/services/rule-engine.service.ts:20-37 | a hit answers from the cache and changes nothing; a miss answers the query and caches exactly that |
| `RuleCache.RuleEngine.InvalidateRules` | apps/api/src/services/rule-engine.service.ts:39-46 | drops exactly the key of the trigger, or without one all keys of the tenant |
| `RuleCache.RuleEngine.CreateRule` | apps/api/src/routes/rules.routes.ts:46-61 | adds the rule and drops its trigger's key exactly if neither its id nor its name in its tenant is used |
| `RuleCache.RuleEngine.PatchRule` | apps/api/src/routes/rules.routes.ts:80-94 | changes exactly the fields given, of exactly the rule with that id in that tenant, to a name that no other rule of it has, and drops the keys of the old and the new trigger |
| `Ingestion.IngestionIsIdempotent` | apps/api/src/routes/signals.routes.ts:46-120 | whatever interleaves, an accepted key has exactly one signal and one signal.process row for ever, all accepted replies name it, and only one was not a replay |
| `Ingestion.LosersAreAnswered` | apps/api/src/routes/signals.routes.ts:105-119 | a request that loses the race for its key is answered with the winner's signal |
| `Ingestion.SignalsAreAsSent` | apps/api/src/routes/signals.routes.ts:61-76 | whatever interleaves, each signal holds the tenant, the key and the body of the request that inserted it |
| `Ingestion.PostIsARun` | apps/api/src/routes/signals.routes.ts:42-121 | an undisturbed request is a run of the transition system |
| `Ingestion.Signals.PostSignal` | apps/api/src/routes/signals.routes.ts:42-121 | a known key is answered with its signal and changes nothing; else the signal, its index entry and its outbox row are inserted together, as sent |
| `Keys.JobIdsCollideExactly` | apps/api/src/queues/action.queue.ts:15-17 | for alphanumeric action ids, when exactly two events share a job id |
| `Keys.JobIdsIdentifyWork` | apps/api/src/workers/outbox.dispatcher.ts:30-35 | with the suffixes the code creates, a job id identifies the action and the reason |
| `Keys.JobIdsAreQueueSafe` | apps/api/src/queues/action.queue.ts:15-17 | a job id holds only letters, digits, `_` and `-`, and an underscore replaces each other character of the reason, and no safe one |
| `Keys.DedupeKeysIdentifyWork` | apps/api/src/routes/actions.routes.ts:94-95 | an outbox dedupe key identifies the action and the reason |
| `Keys.KeysAsWritten` | apps/api/src/routes/actions.routes.ts:94-95 | the four dedupe keys, spelled out |
| `Keys.ActionKeysIdentifyPlans` | apps/api/src/workers/signal.worker.ts:143-143 | an action dedupe key identifies signal, rule or fallback, and type |
| `Keys.TokensRoundTrip` | apps/api/src/lib/security.ts:21-29 | a refresh token splits back into its parts exactly when both are non-empty and free of dots |

## Left out

- Condition matching, correlation, fallback decisions and payload rendering: the planner's verdicts are inputs of `Planning`.
- Error texts and their classification: an error is retryable or not as the environment chooses, except that an unknown type is always fatal.
- Webhook providers: an external step that may succeed or throw; only the built-in provider name resolves.
- Audit rows, metrics, read models, pagination, messages and most timestamps; an audit write that fails is a throw at that point.
- Hashing, JWT, bcrypt, cookies, CSRF, CORS and rate limits: a verified access token and a token hash are inputs.
- Prisma, PostgreSQL, Redis and BullMQ: tables are maps with the schema's unique keys, each transaction is atomic, and a job handler may be called any number of times.
- Several clocks: `Lease` and `Dispatch` use one clock for all processes; `Lifecycle` allows any clock values.
- The dispatcher's interval timer with its `running` and `stopped` flags, and the batch size.
- Progress without a delivery: no sweeper re-enqueues a `RUNNING` action, so nothing is claimed about an action nobody is told about.
- Workers that call `claim` without a worker id, as no caller in the workflow does.
- `Sessions.ReplayEndsEverySession`: speaks of access tokens bound to a session; a token that carries no session id is not checked against the table by the code either.
- `TimedRuns.OneCallOnTheLatestAttempt`: starts from an action past the gate with nothing at work on it.
- `Pipeline.FromPlanToEnd`: the queue is taken to deliver a job that was added; one that forgets jobs, or drops a job whose id it remembers, is not modelled.
- `AttemptLedger.AttemptsAreConserved`: the configured attempt limit stays the same for a whole run.
- `Worker.OneJobSettlesOneAction`: assumes that nobody else works on the action and that the queue's attempt limit is the action's own, as both come from one setting.
- `RuleCache.QueryAnswers`: rules of equal priority and creation time are taken in table order, where the database may choose any.
- `Lease.MutualExclusionIff`: needs two spare attempts and a period of at least one second to build the run that breaks exclusion.
- `Dispatch.BackoffHoldsIff`: is stated for limits from three attempts to the thousand that the batch query lets through; with fewer there is no third claim to come too early.
- `Lease.FullCareIff`: is stated for an action with one attempt left, so that the first call is already the one the max-attempts branch can hit.
- `Planning.FirstPlannedWins`: an action is addressed by its dedupe key, which never changes, instead of its generated id.
