# VowGrid trust workflow: a verified model

VowGrid lets an agent propose an action, simulates it, evaluates policies, collects approvals stage by stage, and only
then asks a connector to execute it, with a rollback path and an audit trail behind it. Usage and overage are metered
and invoiced. This project models that workflow in Dafny and proves what its parts promise together. `dafny verify
dfyconfig.toml` checks everything.

## The parts

| file | part of the system |
|---|---|
| `IntentStates` | the thirteen intent states, the transition table, and the histories it allows |
| `PolicyEngine` | one policy's first-match evaluation, the stable priority sort, the aggregate loop |
| `ApprovalStages` | stage definitions: submission schema, normalization, storage, parsing back, reviewer roles; `Stage.name` is the source's `label`, a reserved word here |
| `ApprovalLedger` | one decision at a time on a multi-stage request, and the view derived for display |
| `Lifecycle` | every service call and queue delivery as one step over an intent's rows, and the invariant they keep |
| `Outcomes` | what each whole call and delivery makes of an intent, read from its rows and the environment's part |
| `LifecycleGuarantees` | what the invariant gives: evidence, rollback discipline, bounds, where a life can end |
| `StrandedRuns` | reachable intents that nothing moves on any more |
| `IntentStore` | the services and workers as imperative methods, each proved to perform its step of `Lifecycle` |
| `Interleaving` | the same protocol, simulations and submissions included, with only single row reads and writes atomic, and stale snapshots |
| `WholeCalls` | the two granularities agree: a call that runs alone is the step of `Lifecycle`, and every life is a run |
| `AtMostOnce` | how often the connector is asked to execute under that interleaving |
| `Settlement` | where an execution settles under that interleaving: by what the call did |
| `ReviewRaces` | overlapping reviews: exactly when a user is recorded twice, exactly when an approved row can be lost |
| `Walks` | stretches of the interleaved protocol in which one process runs on alone, from any state |
| `StaleRuns` | reachable states that show what the interleaved protocol does not promise |
| `Orderliness` | which processes there can be at which status, and who alone can still queue the intent |
| `Prospects`, `Outlook` | whether an intent can still come to be approved: what is ruled out stays ruled out, what is not does come about |
| `Forecasts`, `CallForecasts`, `ReviewForecasts` | exact conditions on the present rows and processes: clearance, denials, connector calls, repeated users |
| `CanonicalJson` | recursive key sorting before hashing |
| `AuditTrail` | the per-workspace hash chain, and verification of stored events |
| `AuditReplay` | one intent's audit events read back as its history |
| `CsvExport` | the audit CSV printer and a reader for it |
| `Rounding`, `Proration`, `Invoices` | rounding, mid-period plan changes, line items, totals, payment items |
| `Metering` | usage counters, limits, overage, and intents created by idempotency key |

Two granularities of the same protocol are kept apart on purpose. In `Lifecycle` a service call or a job delivery is one
step; `IntentStore` is the imperative form and refines it. In `Interleaving` a status transition is a read in one step
and an overwrite in a later one, reviewers work on snapshots, and deliveries may overlap. `WholeCalls` ties them: with
nothing in between, the single reads and writes of a call leave the rows as its one step does (`CallAloneIsItsStep`).

## Where the code and its promises part

- A rollback delivery that finds no registered connector, or one without `rollback()`, throws before the `try` block.
  `docs/ROLLBACK_PROCESSING.md` says such a failure is written; the code leaves the attempt in progress and, after the
  last delivery, the intent in `rollback_pending` for good (`RollbackCanStrand`). `RollbackSettles` gives the outcome of
  every delivery sequence. An execution can be stranded too, when the queue refuses its message or its delivery finds no
  connector (`QueueCanStrand`, `ExecutionCanStrand`). `RestExactlyWhen` names every place where a life can end, including
  a failed execution: the table's edges out of `failed` are taken by no service.
- With `transitionIntent` not atomic the connector can be asked twice (`TwoCallsHappen`), and `TwiceExactlyWithOverlap`
  says through what. `CalledTwiceExactlyWhen` reads it from the present: the intent can still come to be queued, or a
  delivery past its check stands beside another or beside a call already made. `AtomicTransitionsSuffice` and
  `ExclusiveDeliverySuffices` are the two ways out.
- A submission that has read `simulated` can still record a denial after another one has opened the request and the intent
  has been approved, queued and executed (`DenialBehindExecution`); its own move to `rejected` is then refused. A denial
  can still be recorded in exactly the cases of `DeniesExactlyWhen`, and once it is recorded or under way it is no bar: the
  intent comes to be cleared behind it if and only if it can come to be cleared at all (`DenialIsNoBar`,
  `ClearsExactlyWhen`).
- The status itself can be overwritten late. A rejection that has checked `pending_approval` and is slow can land on an
  executing intent: the connector's call has returned and its job is completed, yet the intent ends rejected and the job
  failed (`RejectedWhileExecuting`). Without overlapping claims the outcome is at least never invented: `SettledByTheCall`.
- A stale reviewer can put the request row back to pending after approval (`RowFallsBack`). An approved row stays
  approved if and only if no request in flight is about to write a rejection or an approval that its own reads do not
  count as the last (`RowStaysExactlyWhen`).
- One user's two requests can both be recorded (`OneUserDecidesTwice`), if and only if both can come to stand between
  the check for an earlier decision and the insert (`RepeatsExactlyWithDoubleVote`). `RepeatsExactlyWhen` reads it from
  the present: the request is pending or can still be opened or reopened, or the requests in flight already suffice.
  Reviews that take turns rule both out (`TurnsKeepTheRow`, `TurnsKeepUsersDistinct`). With no restriction at all the decisions, which only grow, are the
  evidence (`NoClearanceWithoutApprovals`).
- Inside one policy an amount rule can hide later rules that deny (`AmountHidesADenial`): `SplittingNeverRelaxes` and
  `RaisingTheAmountRelaxes` give the exact conditions.
- Canonicalization is blind to key order exactly when no two keys of one object compare as equal
  (`BlindExactlyWhenSeparated`); an audit event verifies after storage exactly when its metadata was supplied
  (`VerifiesExactlyWhenSupplied`).
- A coupon's discount stays within the amount exactly when its own figure is not negative, which the catalogue loader
  does not check (`DiscountWithinAmountExactlyWhen`).
- After a change of plan within the month the old plan's overage line stays until a unit exceeds the new plan's limit:
  `PlanChangeKeepsTheOldLine` says exactly when the line on the invoice is the new plan's.
- The plan catalogue prices every metric it limits, so every unit above a limit is billed as long as one account is in
  force all month (`CatalogueBillsEverything`). Units used before a change of plan wait for the next unit: a trial that
  has used 15000 intents and then takes Launch stands 13000 above its limit with nothing on the invoice, and the next
  intent bills 13001 (`UnitsBeforeAChangeWait`).
  A new entry has to keep to that: overage is allowed for both metrics as soon as either has a price, and a limited
  metric without one would go unbilled (`PricedMetricIsBilled`, `UnbilledExactlyWhen`).
- A repeated empty idempotency key is answered with a database error, not with the earlier intent, and a key used in
  another workspace with that workspace's intent (`ReplayAddsNothing`).

## Model

| member | source | states |
|---|---|---|
| IntentStates.GuardReadsTheTable | apps/api/src/modules/intents/state-machine.ts:28-63 | the transition guard is membership in the table, and a state is terminal exactly when no transition leaves it |
| IntentStates.PathFollowsSpine | apps/api/src/modules/intents/state-machine.ts:28-49 | every legal history follows draft, proposed, simulated, pending approval, approved, queued, executing in order until it is rejected |
| IntentStates.StartedNeedsTheSpine | apps/api/src/modules/intents/state-machine.ts:28-49 | no history reaches executing, or anything after it, without all six earlier states in order |
| IntentStates.NeverBackBeforeQueue | apps/api/src/modules/intents/state-machine.ts:28-49 | once executing has been reached no history returns to a state before the queue |
| IntentStates.PathLengthBound | apps/api/src/modules/intents/state-machine.ts:28-42 | a history has at most seven moves plus two for each rollback entered and three for each requeue after a failure |
| IntentStates.BoundIsAttained | apps/api/src/modules/intents/state-machine.ts:28-42 | for every number of rollbacks and requeues there is a legal history of exactly that many moves |
| IntentStates.RejectedExactlyBeforeTheQueue | apps/api/src/modules/intents/state-machine.ts:28-42 | an intent can be rejected from proposed to approved, and from no other state |
| PolicyEngine.EvaluationIsFirstMatch | apps/api/src/modules/policies/engine.ts:44-156 | a policy's verdict is that of the first of its nine one-rule policies that objects; all earlier ones allow |
| PolicyEngine.AllowedExactlyWhen | apps/api/src/modules/policies/engine.ts:44-156 | a policy allows exactly when a numeric amount is at most both limits, no block list holds the action, environment or known connector, every allow list does, and a known role is among the required ones |
| PolicyEngine.SentForApprovalExactlyWhen | apps/api/src/modules/policies/engine.ts:52-76 | it asks for approval exactly when the amount is above the threshold and not above the maximum |
| PolicyEngine.DeniedExactlyWhen | apps/api/src/modules/policies/engine.ts:52-147 | it denies exactly when the amount is above the maximum, or not above the threshold while a list is violated |
| PolicyEngine.SplittingNeverRelaxes | apps/api/src/modules/policies/engine.ts:44-156 | splitting a policy into one-rule policies never relaxes the verdict, and changes it exactly when the amount is above the approval threshold, not above the maximum, and a later rule denies |
| PolicyEngine.RaisingTheAmountRelaxes | apps/api/src/modules/policies/engine.ts:52-76 | a larger amount relaxes the verdict if and only if it crosses the approval threshold within the maximum and hides a later denial |
| PolicyEngine.AmountHidesADenial | apps/api/src/modules/policies/engine.ts:66-86 | a policy and intent exist that are denied at a small amount and only sent for approval at a larger one |
| PolicyEngine.SortIsStablePermutation | apps/api/src/modules/policies/engine.ts:167-170 | the sort is descending by priority, keeps every policy as often, and keeps the order inside each priority |
| PolicyEngine.StableOrderIsUnique | apps/api/src/modules/policies/engine.ts:167-170 | descending priority and the order inside each priority determine the whole order |
| PolicyEngine.EvaluatePolicies | apps/api/src/modules/policies/engine.ts:162-185 | the loop with its early exit returns the decisions in sorted order and the most restrictive verdict of the enabled policies |
| PolicyEngine.Aggregate | apps/api/src/modules/policies/engine.ts:172-184 | the declarative aggregate is the greatest severity that an enabled policy reaches, allow when there is none |
| PolicyEngine.AggregateFromDecisions | apps/api/src/modules/policies/engine.ts:172-182 | a verdict that tops the decisions seen before the early exit is the aggregate over all enabled policies |
| PolicyEngine.AggregateIgnoresOrder | apps/api/src/modules/policies/engine.ts:162-185 | any reordering of the policy list leaves the aggregate unchanged |
| PolicyEngine.AggregateIsMonotone | apps/api/src/modules/policies/engine.ts:162-185 | adding policies anywhere in the list can only make the aggregate more restrictive |
| PolicyEngine.DecisionsAreTheStableOrder | apps/api/src/modules/policies/engine.ts:167-170 | there is one decision per enabled policy, in the only stable priority-descending order there is |
| ApprovalStages.StageRoundTrip | apps/api/src/modules/approvals/model.ts:46-88 | for every submission the schema accepts, parsing the stored stages with the stored total gives back exactly the normalized stages, single-stage counts above five included |
| ApprovalStages.TrimTakesOffSpaces | packages/contracts/src/schemas.ts:83 | trimming takes off the spaces around a label and nothing else |
| ApprovalStages.AcceptedExactlyWhen | packages/contracts/src/schemas.ts:82-116 | exactly which submissions the schema accepts: two to five stages within bounds, at most ten approvals in all, and a required count that agrees |
| ApprovalStages.StagesAreAsSubmitted | apps/api/src/modules/approvals/model.ts:46-64 | the protocol runs on the submitted stages in order, with their counts, roles and trimmed labels, or on one final stage open to every role with the submitted count or one |
| ApprovalStages.StoredStagesReadBack | apps/api/src/modules/approvals/model.ts:58-88 | a stored form reads back as its entries within the schema, or as one final stage when there are none |
| ApprovalStages.MayReviewExactlyWhen | apps/api/src/modules/approvals/service.ts:19-24 | a role may review exactly when it is the owner or at least as senior as a listed one, in the order viewer, member, admin, owner |
| ApprovalStages.ParseEntriesYieldsCanonical | packages/contracts/src/schemas.ts:82-86 | every stage the stored-entry filter lets through is within the stage schema's bounds and trimmed |
| ApprovalStages.CanonicalEntriesSurvive | apps/api/src/modules/approvals/model.ts:66-88 | stages within the schema's bounds pass the filter unchanged and in order |
| ApprovalStages.PermissionIsAThreshold | apps/api/src/modules/approvals/service.ts:65-88 | a role may review exactly when its rank reaches the lowest listed role's rank or it is the owner |
| ApprovalLedger.RecordDecision | apps/api/src/modules/approvals/service.ts:233-297 | the step-by-step writes of an accepted decision produce the specified request and intent move |
| ApprovalLedger.ApprovalRecounts | apps/api/src/modules/approvals/service.ts:280-297 | a recorded approval stores count, stage index and status counted anew from all decisions, whatever stood in the row |
| ApprovalLedger.DecideKeepsLedger | apps/api/src/modules/approvals/service.ts:205-317 | every decision, refused or recorded, keeps the ledger: filled stages before the current one, fewer approvals than asked at it while not approved, none after it, distinct users; the intent moves exactly when the request settles |
| ApprovalLedger.RecordedExactlyWhen | apps/api/src/modules/approvals/service.ts:205-242 | a decision is recorded, at the current stage and under its name, exactly when the request is pending, the user has not decided and the current stage's own roles admit the user's; otherwise the answer names the first that fails and nothing changes |
| ApprovalLedger.EveryDecisionWasAdmitted | apps/api/src/modules/approvals/service.ts:205-242 | after any sequence of votes every recorded decision is the verdict of a voter whose role may review that decision's own stage |
| ApprovalLedger.NewRequestHasLedger | apps/api/src/modules/approvals/service.ts:97-154 | a request opened from any accepted submission starts with the ledger and reads back its stages |
| ApprovalLedger.LedgerTotals | apps/api/src/modules/approvals/service.ts:280-297 | the current count is the sum of the stages' approvals, reaches the required count exactly when approved, and bounds the decisions recorded |
| ApprovalLedger.RowIsDerivedFromDecisions | apps/api/src/modules/approvals/service.ts:290-297 | stage index, count and status of the row can all be recomputed from the decisions and the chain |
| ApprovalLedger.RejectionOnlyAtCurrentStage | apps/api/src/modules/approvals/model.ts:101-111 | a stage shows a rejection exactly when the request is rejected and it is the current stage |
| ApprovalLedger.ViewAgreesWithLedger | apps/api/src/modules/approvals/model.ts:90-192 | the displayed statuses are approved before the current stage, the request's own state at it, pending after it; one active stage exactly while pending; counts add up |
| ApprovalLedger.StageShowsExactlyWhen | apps/api/src/modules/approvals/model.ts:90-128 | for any stored row and decisions, exactly when a stage shows as rejected, approved, active or pending |
| ApprovalLedger.OldDecisionsCountFirst | apps/api/src/modules/approvals/model.ts:97-101 | decisions stored without a stage count for the first stage and no other |
| ApprovalLedger.RunsKeepLedger | apps/api/src/modules/approvals/service.ts:184-326 | the ledger survives any sequence of votes |
| ApprovalLedger.EveryRunIsConsistent | apps/api/src/modules/approvals/service.ts:184-326 | after any votes on any request a submission opens, row, totals and view agree with the decisions |
| ApprovalLedger.OwnersCarryTheRequest | apps/api/src/modules/approvals/service.ts:280-317 | as many different owners in favour as approvals are required, and not one fewer, approve the request |
| Lifecycle.DecisionsReportDenial | apps/api/src/modules/approvals/service.ts:125-143 | the recorded policy decisions contain a denial exactly when the submission is turned down |
| Lifecycle.SubmitKeepsSound | apps/api/src/modules/approvals/service.ts:90-182 | a submission keeps the invariant tying status, audited changes, review, execution, receipts and rollbacks together |
| Lifecycle.DecideKeepsSound | apps/api/src/modules/approvals/service.ts:184-326 | a reviewer's decision keeps the invariant |
| Lifecycle.SimulateKeepsSound | apps/api/src/modules/simulations/service.ts:13-106 | a simulation keeps the invariant |
| Lifecycle.QueueKeepsSound | apps/api/src/modules/executions/service.ts:13-85 | a request to execute keeps the invariant, whether or not the queue accepts the message |
| Lifecycle.DeliverExecutionKeepsSound | apps/api/src/jobs/execution.worker.ts:23-146 | a delivery of the execution keeps the invariant whatever the connector does, redeliveries after a failure included |
| Lifecycle.RequestRollbackKeepsSound | apps/api/src/modules/executions/service.ts:87-179 | a rollback request keeps the invariant, a failed enqueue included |
| Lifecycle.DeliverRollbackKeepsSound | apps/api/src/jobs/rollback.worker.ts:35-181 | a delivery of a rollback attempt keeps the invariant whatever the connector does |
| Lifecycle.RunKeepsSound | apps/api/src/modules/intents/service.ts:134-181 | every sequence of calls and deliveries keeps the invariant |
| Outcomes.SimulationOutcome | apps/api/src/modules/simulations/service.ts:13-106 | an accepted simulation of a proposed intent, and nothing else, records the simulation and moves it |
| Outcomes.SubmissionOutcome | apps/api/src/modules/approvals/service.ts:90-182 | a submission counts exactly on a simulated intent within plan and schema; it records all decisions and rejects if an enabled policy denies, else opens an undecided request on the stages asked for |
| Outcomes.DecisionOutcome | apps/api/src/modules/approvals/service.ts:184-326 | a recorded rejection rejects the intent, the recorded approval that reaches the required count approves it, anything else leaves its status |
| Outcomes.QueueOutcome | apps/api/src/modules/executions/service.ts:13-85 | a request to execute counts exactly on an approved intent within plan; message and unit follow only if the queue accepts |
| Outcomes.FirstDeliveryOutcome | apps/api/src/jobs/execution.worker.ts:23-146 | the first delivery ends succeeded with a completed job and a receipt when the call returns, failed with a failed job when it throws, executing without a connector |
| Outcomes.RedeliveryOutcome | apps/api/src/jobs/execution.worker.ts:27-34 | later deliveries call nothing and only mark the job, three deliveries in all |
| Outcomes.RollbackRequestOutcome | apps/api/src/modules/executions/service.ts:87-179 | a rollback request counts exactly on a succeeded intent, or one whose rollback failed, with a connector that supports it |
| Outcomes.RollbackDeliveryOutcome | apps/api/src/jobs/rollback.worker.ts:35-181 | a rollback delivery calls the connector at most once and leaves a receipt exactly of what returned |
| LifecycleGuarantees.ExecutionNeedsEvidence | apps/api/src/modules/executions/service.ts:27-81 | a queued or later intent has its simulation, no denial, a fully approved request and its job; an earlier one has no job; one connector call and one usage unit at most |
| LifecycleGuarantees.RollbackDiscipline | apps/api/src/jobs/rollback.worker.ts:88-163 | rollback pending means one live attempt, rolled back means the last attempt completed, all others failed; at most one receipt of each kind, the rollback's behind the execution's |
| LifecycleGuarantees.TrailIsLegalPath | apps/api/src/modules/intents/service.ts:149-169 | replaying the audited changes is a legal path from draft to the current status |
| LifecycleGuarantees.AuditReplaysTheLife | apps/api/src/modules/intents/service.ts:149-169 | that path has at most seven changes plus two per rollback attempt, and begins with the whole spine once execution has started |
| LifecycleGuarantees.RollbackStep | apps/api/src/jobs/rollback.worker.ts:43-180 | what one delivery does to the intent, the attempt and the queue, in each of its three outcomes |
| LifecycleGuarantees.RollbackSettles | apps/api/src/jobs/rollback.worker.ts:35-181 | after the queue's last delivery the attempt is completed, failed, or left in progress with no delivery to come, and exactly when each happens |
| LifecycleGuarantees.RollbackKnowsTheExecution | apps/api/src/jobs/rollback.worker.ts:19-33 | a rollback is always given what the execution returned: the job's result when it is an object, else the receipt's object holding it |
| LifecycleGuarantees.RollbackCallsAreBounded | apps/api/src/jobs/rollback.worker.ts:35-181 | in every reachable state the connector has been asked to roll back at most three times for each attempt |
| LifecycleGuarantees.RestIsKept | apps/api/src/modules/executions/service.ts:27-107 | rejected, rolled back, failed and stranded intents keep their status under every continuation |
| LifecycleGuarantees.RestExactlyWhen | apps/api/src/modules/intents/state-machine.ts:28-42 | a reachable intent keeps its status forever if and only if it is rejected, rolled back, failed or stranded |
| StrandedRuns.QueueCanStrand | apps/api/src/modules/executions/service.ts:44-69 | a reachable intent is queued with no message and keeps that status forever |
| StrandedRuns.ExecutionCanStrand | apps/api/src/jobs/execution.worker.ts:35-50 | a reachable intent is executing after a delivery without connector and keeps that status forever |
| StrandedRuns.RollbackCanStrand | apps/api/src/jobs/rollback.worker.ts:61-70 | a reachable intent is rollback pending after its last delivery and keeps that status forever |
| IntentStore.Store.TransitionIntent | apps/api/src/modules/intents/service.ts:134-172 | the status and its audit entry are written exactly when the table allows the move |
| IntentStore.Store.ProposeIntent | apps/api/src/modules/intents/service.ts:174-181 | performs the propose step; succeeds exactly on a draft |
| IntentStore.Store.SimulateIntent | apps/api/src/modules/simulations/service.ts:13-106 | performs the simulate step; succeeds exactly on a proposed intent the connector accepts |
| IntentStore.Store.SubmitForApproval | apps/api/src/modules/approvals/service.ts:90-182 | performs the submit step and reports the aggregate verdict; a denial rejects, anything else waits for approval |
| IntentStore.Store.ProcessApprovalDecision | apps/api/src/modules/approvals/service.ts:184-326 | performs the decide step; the decision is recorded exactly when no refusal applies |
| IntentStore.Store.QueueForExecution | apps/api/src/modules/executions/service.ts:13-85 | performs the queue step; a successful call leaves the intent queued with a message and one more unit |
| IntentStore.Store.ProcessExecution | apps/api/src/jobs/execution.worker.ts:23-146 | performs the delivery step; not throwing means the connector returned and the intent succeeded |
| IntentStore.Store.AskForRollback | apps/api/src/modules/executions/service.ts:87-179 | performs the rollback request step, compensating when the queue refuses |
| IntentStore.Store.ProcessRollback | apps/api/src/jobs/rollback.worker.ts:35-181 | performs the rollback delivery step |
| Interleaving.OverwriteKeepsApprovable | apps/api/src/modules/approvals/service.ts:280-297 | overwriting the request row from a stale snapshot never points past a stage that lacks approvals |
| Interleaving.InsertKeepsApprovable | apps/api/src/modules/approvals/service.ts:233-242 | inserting a decision keeps what every concurrent request relies on |
| Interleaving.StepKeepsApprovable | apps/api/src/modules/approvals/service.ts:192-317 | every single row read or write of any process keeps the interleaved invariant |
| Interleaving.NoClearanceWithoutApprovals | apps/api/src/modules/approvals/service.ts:90-317 | under every interleaving an intent is approved or beyond, and its connector called, only when it has been simulated, an evaluation of its policies that denied nothing is on record, and every stage holds at least its required approvals |
| Orderliness.RunKeepsOrderly | apps/api/src/modules/executions/service.ts:27-69 | on every interleaving only the process that created the unique job can still queue the intent, nothing has started before it does, and an intent in review has its request |
| WholeCalls.CallAloneIsItsStep | apps/api/src/jobs/execution.worker.ts:23-146 | each whole call or delivery, its single reads and writes run with nothing in between, leaves status, request, decisions, job, calls, simulation and denial as its one step does |
| WholeCalls.EveryLifeIsARun | apps/api/src/modules/intents/service.ts:134-181 | every life made of whole calls and deliveries is a run of the interleaved protocol with the same rows |
| WholeCalls.RequestFindsAJob | apps/api/src/modules/executions/service.ts:33-54 | from any state a request to execute that finds a job, whatever its status, writes nothing |
| WholeCalls.SubmissionFindsARequest | apps/api/src/modules/approvals/service.ts:104-156 | from any state a submission that finds a request there records its evaluation and nothing else |
| WholeCalls.SimulationFindsAnother | apps/api/src/modules/simulations/service.ts:75-90 | from any state a second simulation writes nothing |
| AtMostOnce.AtMostOneCall | apps/api/src/jobs/execution.worker.ts:30-73 | the connector is asked at most once on every run in which no two deliveries overlap between reading and overwriting the status |
| AtMostOnce.OverlapAllowsTwoCalls | apps/api/src/modules/intents/service.ts:141-159 | from any state with such an overlap four steps ask the connector twice more |
| AtMostOnce.TwiceExactlyWithOverlap | apps/api/src/modules/intents/service.ts:141-159 | from a run without overlap so far, a second call can come if and only if an overlap can come |
| AtMostOnce.AtomicTransitionsSuffice | apps/api/src/modules/intents/service.ts:134-159 | with the worker's transition atomic, any queue schedule asks the connector at most once |
| AtMostOnce.ExclusiveDeliverySuffices | apps/api/src/jobs/execution.worker.ts:23-73 | without any atomicity, one delivery at a time also suffices |
| Settlement.SettledByTheCall | apps/api/src/jobs/execution.worker.ts:67-130 | on every run without overlapping claims an intent is succeeded or failed only after its one call, succeeded exactly when the call returned, and a job completed only when it did |
| Settlement.SettlesWhatItFinds | apps/api/src/jobs/execution.worker.ts:76-130 | from any state a delivery about to settle an intent that is still executing does so |
| Settlement.ReturnedCallIsMarkedFailed | apps/api/src/jobs/execution.worker.ts:76-130 | from any state a delivery whose call returned, but whose intent has been moved away, leaves the intent there and marks the job failed |
| ReviewRaces.UsersStayDistinct | apps/api/src/modules/approvals/service.ts:219-242 | decisions are by different users on every run in which no two requests of one user stand between check and insert |
| ReviewRaces.DoubleVoteRepeats | apps/api/src/modules/approvals/service.ts:219-242 | from such a pair two steps record the user twice |
| ReviewRaces.RepeatsExactlyWithDoubleVote | apps/api/src/modules/approvals/service.ts:219-242 | from a run without such a pair so far, a user can come to be recorded twice if and only if such a pair can come about |
| ReviewRaces.RowStaysExactlyWhen | apps/api/src/modules/approvals/service.ts:192-297 | an approved row stays approved under every continuation if and only if no request in flight is about to write a rejection or an approval that its snapshot does not complete |
| ReviewRaces.TurnsKeepTheRow | apps/api/src/modules/approvals/service.ts:192-297 | with at most one request between first read and row write, a row once approved stays approved |
| ReviewRaces.TurnsKeepUsersDistinct | apps/api/src/modules/approvals/service.ts:192-297 | with at most one request between first read and row write, decisions are by different users |
| StaleRuns.RowFallsBack | apps/api/src/modules/approvals/service.ts:290-297 | a reachable run leaves the intent approved and its request row pending |
| StaleRuns.OneUserDecidesTwice | apps/api/src/modules/approvals/service.ts:219-242 | a reachable run records two decisions of one user |
| StaleRuns.TwoCallsHappen | apps/api/src/jobs/execution.worker.ts:30-73 | a reachable run asks the connector to execute twice |
| StaleRuns.DenialBehindExecution | apps/api/src/modules/approvals/service.ts:104-137 | a reachable run records a policy denial behind an intent that is executing and whose connector has been called |
| StaleRuns.RejectedWhileExecuting | apps/api/src/modules/approvals/service.ts:258-270 | a reachable run has the connector's call returned and the job completed, and then the intent rejected by a stale reviewer and the job failed |
| Prospects.ActLeavesImpossible | apps/api/src/modules/approvals/service.ts:192-317 | no step of any process brings back an approval that the present rows and processes rule out |
| Outlook.ApprovedComes | apps/api/src/modules/approvals/service.ts:192-317 | an approval that is not ruled out comes about in some continuation, which leaves the job, the queue, the calls and the denials alone |
| Forecasts.ClearsExactlyWhen | apps/api/src/modules/intents/service.ts:134-159 | from every reachable state, some continuation clears the intent if and only if it is cleared, a process is about to make it so, or it can reach review with the request unsettled or an approval of it in flight |
| Forecasts.DeniesExactlyWhen | apps/api/src/modules/approvals/service.ts:104-137 | from every reachable state, some continuation has a denial on record if and only if one is, a submission is evaluating, or the intent can come to be simulated |
| Forecasts.DenialIsNoBar | apps/api/src/modules/approvals/service.ts:104-137 | once a denial is on record or a submission is evaluating, some continuation has the intent cleared with the denial on record if and only if the intent can come to be cleared |
| CallForecasts.CalledExactlyWhen | apps/api/src/jobs/execution.worker.ts:30-73 | from every reachable state, the connector can come to have been asked if and only if it has been, a delivery is past its check, or the intent can come to be queued |
| CallForecasts.CalledTwiceExactlyWhen | apps/api/src/jobs/execution.worker.ts:30-73 | from every reachable state, the connector can come to have been asked twice if and only if it has been, a delivery past its check stands beside another or a call made, or the intent can come to be queued |
| ReviewForecasts.RepeatsExactlyWhen | apps/api/src/modules/approvals/service.ts:192-297 | from every reachable state, some continuation records a user twice if and only if one is, the request is pending or can be opened or reopened, a request past the check is of a recorded user, or two requests of one user can both insert |
| CanonicalJson.SortIsIdempotent | apps/api/src/lib/audit-integrity.ts:22-36 | canonicalizing a canonical value changes nothing, whatever the collation ties |
| CanonicalJson.SortKeepsTheValue | apps/api/src/lib/audit-integrity.ts:22-36 | the canonical form is the same value up to key order, at every depth |
| CanonicalJson.KeyOrderIsForgotten | apps/api/src/lib/audit-integrity.ts:22-36 | values that differ only in key order, at any depth, have one canonical form when no keys of an object tie |
| CanonicalJson.CanonicalFormDecidesSameness | apps/api/src/lib/audit-integrity.ts:22-36 | without ties, two values have one canonical form if and only if they differ in nothing but key order |
| CanonicalJson.TiesShow | apps/api/src/lib/audit-integrity.ts:28-33 | where two keys tie, some reordering of the same value has another canonical form |
| CanonicalJson.BlindExactlyWhenSeparated | apps/api/src/lib/audit-integrity.ts:22-36 | canonicalization is blind to a value's key order if and only if no object in it has tied keys |
| AuditTrail.AuditLog.EmitAuditEvent | apps/api/src/modules/audits/service.ts:23-66 | appends the event hashed behind its workspace's latest one, or leaves the trail as it was when storing fails |
| AuditTrail.LatestIsFirstInOrder | apps/api/src/modules/audits/service.ts:27-34 | the event an emission is chained to is the workspace's first in descending order of time and id, for any stored events |
| AuditTrail.SerialRunsStayInOrder | apps/api/src/modules/audits/service.ts:27-34 | with serial emission the latest event by time and id is the last one written, in every workspace |
| AuditTrail.EveryWorkspaceIsLinked | apps/api/src/modules/audits/service.ts:23-66 | however workspaces interleave and whichever emissions fail, each workspace's events form an unbroken hash chain |
| AuditTrail.VerifiesExactlyWhenSupplied | apps/api/src/lib/audit-integrity.ts:42-62 | a stored event whose metadata keys were reordered still verifies; one emitted without metadata does not |
| AuditTrail.EqualHashesAgree | apps/api/src/lib/audit-integrity.ts:42-46 | equal hashes mean equal events in every hashed field, metadata up to key order |
| AuditTrail.LastHashCommitsHistory | apps/api/src/modules/audits/service.ts:27-60 | two linked chains that end in the same hash agree event by event |
| AuditTrail.EmittedHistoriesAreCommitted | apps/api/src/modules/audits/service.ts:23-66 | the same for the chains that serial emissions write |
| AuditReplay.ChangeIsRead | apps/api/src/modules/intents/service.ts:161-169 | an audited status change is read back from its metadata by its own intent and by no other |
| AuditReplay.EventsReplayTheLife | apps/api/src/modules/intents/service.ts:149-169 | whatever is emitted in between of other entities, or of the intent without a status pair, the changes read from the stored events are the intent's own if and only if none of those emissions failed, and then replay to a legal path from draft to its status |
| AuditReplay.ServiceEventsTellNoChange | apps/api/src/modules/approvals/service.ts:156-171 | an event whose metadata holds only the keys of the services' other events is of that kind |
| CsvExport.ReadField | apps/web/src/app/(app)/app/settings/export/audit/route.ts:4-17 | any escaped cell is read back whole, whatever commas, quotes and line feeds it contains |
| CsvExport.ReadRow | apps/web/src/app/(app)/app/settings/export/audit/route.ts:34 | any joined row is read back cell by cell |
| CsvExport.ReadingUndoesExport | apps/web/src/app/(app)/app/settings/export/audit/route.ts:4-34 | reading the export as section 2 of RFC 4180 describes, with a line feed between records, gives back the table |
| CsvExport.QuotedExactlyWhen | apps/web/src/app/(app)/app/settings/export/audit/route.ts:4-17 | a cell is changed exactly when it holds a quote, comma or line feed, and then stands in quotes |
| CsvExport.AuditExportReads | apps/web/src/app/(app)/app/settings/export/audit/route.ts:21-34 | the audit export reads back as its header and one row per event |
| CsvExport.FieldsStandUnderTheirHeaders | apps/web/src/app/(app)/app/settings/export/audit/route.ts:21-34 | read back, the first row is the eight names and every further row the event's fields in those places |
| CsvExport.AuditExportIsFaithful | apps/web/src/app/(app)/app/settings/export/audit/route.ts:21-34 | two exports with the same text list the same events, field by field |
| Rounding.RoundBounds | apps/api/src/modules/billing/invoices.ts:372-374 | rounding errs by at most one half, and by exactly one half only upwards |
| Proration.RatioInRange | apps/api/src/modules/billing/invoices.ts:367-372 | inside the period the rounded remaining ratio lies between nothing and the whole |
| Proration.RatioIsAccurate | apps/api/src/modules/billing/invoices.ts:369-372 | the ratio is the remaining part of the period to half a ten-thousandth, at any time |
| Proration.PricedExactlyWhen | apps/api/src/modules/billing/invoices.ts:336-365 | a change has a price exactly when there are a plan and a period to leave, plan or cycle differ, and both are priced |
| Proration.PreviewIsAccurate | apps/api/src/modules/billing/invoices.ts:352-385 | credit and charge of a preview are the remaining part of the full source and target prices within the rounding error, and net is their difference |
| Proration.AmountsWithinPrices | apps/api/src/modules/billing/invoices.ts:352-385 | inside the period credit and charge lie between zero and the full plan prices, and net is their difference |
| Proration.AmountsFallOverTime | apps/api/src/modules/billing/invoices.ts:367-374 | waiting never raises the credit or the charge |
| Proration.AmountIsAccurate | apps/api/src/modules/billing/invoices.ts:367-374 | each amount is within price/20000 plus half a cent of the exact pro-rata amount, at any time and for any period |
| Proration.NetFollowsThePrices | apps/api/src/modules/billing/invoices.ts:345-385 | a dearer target never pays back, and swapping source and target negates the net |
| Invoices.DiscountWithinAmountExactlyWhen | apps/api/src/modules/billing/customer.ts:195-211 | the discount lies between zero and the positive amount, for every amount, if and only if the coupon's figure is not negative |
| Invoices.DiscountIsAccurate | apps/api/src/modules/billing/customer.ts:203-210 | a fixed coupon takes off its figure up to the amount, a percentage its share to half a cent, and everything from 100 percent on |
| Invoices.CouponsComeOffTheTotal | apps/api/src/modules/billing/invoices.ts:168-175 | for every sum and figure a fixed coupon leaves the sum less its figure or nothing, a percentage its complement to half a cent, no coupon the sum |
| Invoices.TaxIsItsShare | apps/api/src/modules/billing/invoices.ts:168-175 | the tax is the rate's share of what is left to half a cent, and the total is the two together |
| Invoices.TotalsAreNatural | apps/api/src/modules/billing/invoices.ts:168-175 | for any lines, coupon and rate, net and tax are never negative and the total is the net with its rounded tax; with a proper coupon discount and net add up to the positive subtotal |
| Invoices.TotalRisesWithTheLines | apps/api/src/modules/billing/invoices.ts:168-175 | under any fixed coupon and rate a larger line-item sum never lowers the total |
| Invoices.StartInvoicePayment | apps/api/src/modules/billing/mercado-pago.ts:202-223 | the filter and push produce the billable items and the tax, or fail when there is nothing |
| Invoices.CheckoutCollectsEverything | apps/api/src/modules/billing/mercado-pago.ts:202-223 | the items sent sum to all items plus tax, and the request fails exactly when that sum is zero |
| Invoices.PaymentAsksForTheTotal | apps/api/src/modules/billing/invoices.ts:180-201 | a payment request for an invoice carries exactly its total and is never empty when there is something to pay |
| Invoices.PutLooksUp | apps/api/src/modules/billing/invoices.ts:289-318 | an upsert keeps one line per kind and changes only its own kind |
| Invoices.ProrationLooksUp | apps/api/src/modules/billing/invoices.ts:408-480 | what a recorded proration leaves under each kind of line, overage untouched |
| Invoices.ProrationIsRecordedOnce | apps/api/src/modules/billing/invoices.ts:408-480 | recording a proration twice equals recording it once, for any earlier lines |
| Invoices.ProrationReplacesTheNet | apps/api/src/modules/billing/invoices.ts:408-480 | after recording the calculated preview its two lines are its net, whatever the plans, period and time, and the line-item sum moves by that net less the old lines |
| Invoices.OpenInvoice.SyncTotals | apps/api/src/modules/billing/invoices.ts:151-222 | stores the totals of the lines and a payment for exactly that total; keeps the old ones exactly when a needed payment cannot be created |
| Invoices.OpenInvoice.RecordOverage | apps/api/src/modules/billing/invoices.ts:261-326 | upserts the overage line exactly when usage exceeds the limit and a unit price exists, then synchronizes |
| Invoices.OpenInvoice.RecordProration | apps/api/src/modules/billing/invoices.ts:388-488 | updates, creates or deletes the charge and credit lines as the preview says, then synchronizes |
| Metering.WarningAgreesWithStatus | apps/api/src/modules/billing/usage.ts:105-185 | the warning timestamp, set at the rounded-up threshold, appears exactly when the displayed status is no longer ok |
| Metering.ShownExactlyWhen | apps/api/src/modules/billing/usage.ts:169-186 | exactly when a metric shows as over, blocked, warning or ok |
| Metering.EntitledExactlyWhen | apps/api/src/modules/billing/entitlements.ts:231-279 | exactly when a workspace is read-only, when it bills overage, and whose limits it has |
| Metering.RefusedExactlyWhen | apps/api/src/modules/billing/entitlements.ts:357-387 | a unit is refused exactly in read-only mode, or at the limit with overage off |
| Metering.MonthInClosedForm | apps/api/src/modules/billing/entitlements.ts:456-498 | under one plan, count, warning time, limit time and overage line of a metric are functions of that metric's requests alone, however the two meters and recorded prorations interleave |
| Metering.LimitOrOverage | apps/api/src/modules/billing/entitlements.ts:357-387 | overage off: never above the limit and nothing billed; overage on: nothing refused, and one line of max(0, n - limit) units or none |
| Metering.EachMetricOnItsOwnTerms | apps/api/src/modules/billing/entitlements.ts:456-498 | in one month intents and executed actions are each held to their own limit, or billed above it at their own unit price |
| Metering.UnbilledExactlyWhen | apps/api/src/modules/billing/entitlements.ts:231-306 | for any plan at all, units above the limit stay off the invoice if and only if the plan is active and prices only the other metric or this one at nothing |
| Metering.PricedMetricIsBilled | apps/api/src/modules/billing/invoices.ts:269-318 | a metric with a unit price has every unit above its limit on the overage line |
| Metering.CatalogueBillsEverything | packages/contracts/src/billing.ts:78-190 | with the four plans of the catalogue, under one account all month, no subscription or trial leaves a unit above a limit unbilled |
| Metering.UnitsBeforeAChangeWait | apps/api/src/modules/billing/invoices.ts:261-318 | after a trial's 15000 intents and a change to the smallest plan nothing is on the invoice; the next intent bills 13001 units |
| Metering.PlanChangeKeepsTheOldLine | apps/api/src/modules/billing/invoices.ts:261-318 | after a mid-month change of plan the line is the new plan's if and only if the count is above its limit or the old plan left no line; otherwise the old line stays |
| Metering.UnitsAreIntents | apps/api/src/modules/intents/service.ts:14-63 | from any desk, over any calls within a month, each workspace's count moves by exactly the intents created there, through replays, refusals and account changes |
| Metering.AnsweredExactlyWhen | apps/api/src/modules/intents/service.ts:20-44 | exactly when a request to create an intent is answered with an earlier one, a demand for payment, a database error or a new intent |
| Metering.DeskRunsTheMeters | apps/api/src/modules/intents/service.ts:14-63 | under one account, calls within a month leave it as the metered requests among them would, replays asking for nothing |
| Metering.DeskObeysTheLimit | apps/api/src/modules/billing/entitlements.ts:340-370 | over any calls within a month under one account the count rises by all that is asked, or stops at the limit with overage off, or does not move in read-only mode |
| Metering.EveryMonthCountsItsOwn | apps/api/src/modules/billing/usage.ts:51-125 | in every later month a workspace's count is the number of intents created there since the month began |
| Metering.ReplayAddsNothing | apps/api/src/modules/intents/service.ts:20-28 | a replay changes nothing, however many months later, under any account and from any workspace, and answers with the first intent exactly when the key is not empty |
| Metering.Workspace.IncrementMonthlyUsageCounter | apps/api/src/modules/billing/usage.ts:51-125 | adds to the counter and sets each timestamp at the first crossing only |
| Metering.Workspace.AssertCanUse | apps/api/src/modules/billing/entitlements.ts:340-387 | refuses exactly what the metric status and overage setting refuse |
| Metering.Workspace.TrackUse | apps/api/src/modules/billing/entitlements.ts:456-498 | counts one unit and records its overage when the account bills overage |
| Metering.Workspace.CreateIntent | apps/api/src/modules/intents/service.ts:14-63 | replays, refuses, fails on a duplicate empty key, or creates and counts, as the specification says |

## Left out

- Routes, pages, SDK, metrics, logging, sessions, OAuth, email, encryption, webhooks, member and connector administration.
- Connectors: a call is an outcome that returns or throws; what it does outside is not modelled.
- Database faults between two writes of one job, backoff timing, and redelivery by the queue of a rollback job that is already settled.
- Plan prices and environment defaults: prices and rates are parameters, and so are limits and unit prices except where a lemma is about the catalogue itself.
- Floating point: amounts are exact integers and rationals, 0.8 is 4/5, and `Math.round` rounds halves upwards.
- The conversion of policy parameters to numbers: a parameter either has a real value or none; infinities are not modelled.
- Explanatory texts of policy decisions and errors: each stands as a constructor.
- String lengths count characters rather than UTF-16 units.
- Integer-like object keys, which the language places first: placement after sorting is itself an order, and the order is a parameter of `CanonicalJson`.
- The keyed hash and the serialization under it: one function from values to strings, injective where a lemma says so.
- Concurrent audit emission: chain lemmas are about emissions one after another with increasing time and id.
- Expiry of approval requests, and the mode column that only repeats whether there is more than one stage.
- Invoice listing, which recomputes the net but not the tax and total, and so agrees with the stored row only while coupon and profile stay as they were.
- LifecycleGuarantees.ExecutionNeedsEvidence: is stated for whole calls as steps, because with single reads and writes as steps its clause on denials is false (`StaleRuns.DenialBehindExecution`); what survives there is `Interleaving.NoClearanceWithoutApprovals`.
- Rollback attempts in the interleaved machine, where a rollback is a guarded status write with no row of its own.
- Forecasts.DenialIsNoBar: is stated from the moment a submission is evaluating; before that, `DeniesExactlyWhen` and `ClearsExactlyWhen` say when either can come about, not when both can together.
