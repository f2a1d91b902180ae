# RecoveryOS: a verified model of the durable recovery protocol

RecoveryOS recovers failed payments. Every failed payment opens a *case*; a policy decides what to
do next (wait, send a payment link, contact the customer, ask for a promise to pay, escalate, stop);
a worker claims each scheduled *action*, performs it outside any transaction and completes it in a
second one; webhooks, customer replies and a reconciler change the same rows in between. Each
transaction locks the case row, so a run of the system is some interleaving of whole transactions.
Leases expire and there is no fencing token, so several workers may be in flight on one action.

This project models that protocol and proves what its documentation promises of it, over every run.

## How the model is built

* `Rows`, `Guardrails`, `Policy`, `Ranking`, `MerchantTime`: the rows of a case, the guardrails, the
  dispatcher over the session of its caller, the two stacked stable sorts, dates and promise validation.
* `Runtime`, `Orchestrator`: one function per transaction, from the case before to the case after.
* `Protocol`: the events of a case, when each is enabled, and runs. A worker that crashes is a worker
  whose next step never comes; a duplicate or late delivery is a step like any other.
* `LiveAction`, `History`, `ContactCap`, `AttemptBudget`, `Latch`, `Promises`, `Effects`, `Columns`,
  `Termination`, `Timing`, `Runs`, `ModeRefinement`: the invariants and theorems, per step and over
  whole runs.
* `Workers`, `Provider`, `ProviderAgreement`, `ProviderCap`, `Attempts`, `Progress`: workers in their
  phases and the provider as a list of links that refuses a used reference. Every run of this world is
  a protocol run with the same changes, and its inbound steps are the inbound commits of the world, so
  the theorems about runs, bounded worker runs included, hold there too.
* `PolicyEngine`, `RevenueCase` with `Meaning` and `Settlement`, `WebhookGateway` with `Webhooks`, `Sweep`,
  `TaskQueue`: the services in their own imperative form, with loops and fields assigned in place. A
  handler does what the transaction function says; a transaction commits, and takes one reachable case to
  another. What each transaction means is said a second time in `Meaning` and `Settlement`, row by row and
  column by column, without the transaction functions.
* `Findings`: the concrete runs behind the section below.

Conventions: times count microseconds and amounts count paise. An action is named by its position in
the case, which is also its age. `backoff`, `resolvedAt`, `effects` and `decisions` record history, so
that theorems can speak about it. The session does not flush before a query
(backend/app/core/database.py:7): `visible` is what its queries see, and it lags behind the rows of the
case until the code flushes or commits.

Assumptions: two commits on one case never carry the same time (`_is_superseded` compares `created_at`
strictly); a transaction commits no earlier than the `now` it works with; `max_attempts` is at least 1;
the provider refuses a reference it has already accepted, as razorpay_client.py:204-206 states, and
gives each link its own id. The configuration does not change during a run.

## What was found

* Shadow mode is documented as free of side effects. The recommendation itself is: it works on the live
  case object and puts it back on every path, and runs in shadow mode are baseline runs whatever goes
  wrong while it scores. But when the scoring code cannot even be imported, the error row that is logged
  flushes the transaction before the baseline runs, so the failure being handled already counts towards
  the stopping rule and its cancelled contacts no longer count towards the contact limits. The exact
  condition is `ModeRefinement.ShadowErrorIsHarmlessExactly`, and `Findings.ShadowErrorCanDiffer` is a
  reachable case where the baseline escalates and shadow contacts the customer.
* A payment-link claim whose worker is gone is recovered only by a lookup the provider answers. While
  the provider stays silent no run of any length helps, and this is the only such case
  (`Progress.StuckExactly`, `Progress.SilentSweepChangesNothing`).
* The comment at temporal_runtime.py:287-288 says the next attempt will reconcile again. The code
  performs the create call again: between its claim and its call a worker never looks anything up
  (`Attempts.NoLookupBetweenClaimAndCall`, with the run `Findings.CreateIsRepeatedWithoutLookup`).
  Agreement with the provider still holds, because the provider refuses the used reference.
* The worker reads the amount after its claim, without a lock. If a rebill comes in between, it asks the
  provider for a link over `max_automated_amount` (`Findings.RebillMakesLinkOverLimit`);
  `ProviderCap.LinkExceedsCapExactly` says exactly when, and `ProviderCap.OverLinksAreNeverRecorded`
  that no case ever adopts such a link.
* The case stores one link id, and a paid link is matched against that alone. It is always the link of
  the newest executed link action, so the payment of an older link is ignored
  (`ProviderCap.PaymentRecoversExactly`, with the run `Findings.OlderLinkIsPaidForNothing`).
* A reconciliation mismatch looks only at the action, so it can move a terminal case to HUMAN_REVIEW
  (`Latch.TerminalOrder` says exactly when, `Findings.MismatchReopensDispute` is a run that does it).
* The guardrails treat all contacts alike, so the second contact of a category's ranking is never
  reached (`GuardrailEngine.BaselineClosedForm`), and the branch of `complete_followup` that keeps a
  promise of a RECOVERED case is never taken (`PromiseLedger.KeptExactlyByRecovery`).

## Model

| member | source | states |
|---|---|---|
| Runs.CommittedStates | backend/app/services/temporal_runtime.py:22-212 | in every reachable case: never DETECTED, DIAGNOSED or DECISION_READY; WAITING and ACTION_SCHEDULED have a live newest action of the matching type; only the newest action can be SCHEDULED; an open promise under AWAITING_OUTCOME has a live follow-up linked to exactly it; only the newest promise can be PENDING, and none is while the case waits, acts or is recovered; terminal cases have nothing SCHEDULED |
| LiveAction.StepKeepsCore | backend/app/services/temporal_runtime.py:22-212 | every step of webhook, reply, worker or reconciler keeps the live-action and promise invariants, one step at a time |
| LiveAction.InboundKeepsCore | backend/app/services/orchestrator.py:130-188 | failures, captures, paid links, disputes and replies keep the live-action and promise invariants |
| LiveAction.WorkerKeepsCore | backend/app/services/temporal_runtime.py:139-212 | claims, completions, retries, mismatch writes, delayed cancels and recovered leases keep the live-action and promise invariants |
| LiveAction.OnlyNewestGoesForward | backend/app/services/temporal_runtime.py:101-112 | while a case waits, acts or holds an open promise, an action is superseded exactly if it is not the newest |
| LiveAction.OpenedCaseIsCore | backend/app/services/orchestrator.py:262-292 | a new case starts inside the invariants, whatever the policy mode and whether or not its capture came first |
| History.StepEvolvesRows | backend/app/services/temporal_runtime.py:139-212 | no step rewrites the identity of a row or touches an EXECUTED, CANCELLED or FAILED one, and a wait or contact goes forward only as the newest action |
| History.WorkerChangesOneRow | backend/app/services/temporal_runtime.py:22-83 | a worker step other than a finished wait changes nothing but the clock, or exactly one row |
| History.StepAppendsByRule | backend/app/services/policy_engine.py:145-194 | a step appends at most one action: a follow-up, or one the guardrails allow at the amount the step leaves on the case and the time it started with, on rows that agree with the case |
| ContactCap.StepKeepsCap | backend/app/services/policy_engine.py:106-142 | total, weekly and spacing limits over every contact that was executed or still can be survive each step, though the guardrail does not count EXECUTING contacts; and each wait kind stays once-only |
| ContactCap.GuardedContactKeepsCap | backend/app/services/policy_engine.py:123-140 | a contact the guardrail lets through fits all three limits, because supersession rules out every older one the guardrail does not count |
| Runs.ContactLimitsHold | backend/app/services/policy_engine.py:66-88 | in every reachable case the SCHEDULED and EXECUTED contacts are at most the case cap, any seven days hold at most the weekly cap, and any two are at least the minimum interval apart |
| AttemptBudget.StepTransitions | backend/app/services/temporal_runtime.py:342-416 | every row change of every step is one of six: cancel, claim with one more attempt, finish, fail, or go back to SCHEDULED within budget with at most one more delay; appended rows start fresh |
| AttemptBudget.StepKeepsBudget | backend/app/services/temporal_runtime.py:351-365 | attempts and collected backoff of every row stay within budget although the claim never checks it |
| AttemptBudget.RetryCycleDoublesDelay | backend/app/services/temporal_runtime.py:395-409 | the k-th failed attempt waits base * 2^(k - 1), so the backoff bound is reached exactly by a row that keeps failing |
| Runs.AttemptLimitsHold | backend/app/services/temporal_runtime.py:75-77 | in every reachable case SCHEDULED means attempts below the maximum, EXECUTING means between one and the maximum, and the backoff ever added to one action is at most base * (2^(max_attempts - 1) - 1) |
| Termination.WorkerStepLowersMeasure | backend/app/services/temporal_runtime.py:139-166 | each worker or reconciler step leaves the case as it was or strictly lowers a measure of attempts left and waits not yet executed |
| Termination.WorkerRunsAreBounded | backend/app/services/temporal_runtime.py:497-527 | without inbound events, a run of any length with any crashes, duplicates and sweeps changes the case at most as often as the measure says |
| Progress.NeverStuckWithAnswers | backend/app/services/temporal_runtime.py:419-598 | from every world that can arise, a case that waits, acts or holds an open promise can be moved on by workers alone, to a status that is not CANCELLED, if lookups are answered |
| Progress.StuckExactly | backend/app/services/temporal_runtime.py:462-476 | once no worker is in flight, the case can go on without any answered lookup exactly if its newest action is not a claimed payment link |
| Progress.RipeWorkMovesOn | backend/app/services/temporal_runtime.py:546-579 | anything but a claimed link is moved on by one move of a free worker as soon as it is due or its lease is over |
| Progress.AnsweredSweepMovesOn | backend/app/services/temporal_runtime.py:419-579 | the four moves of a sweep settle an expired link claim whatever the provider answers: one adoptable link makes the action EXECUTED with that id, an empty list puts it back for now while attempts are left, everything else fails it and asks for review |
| Progress.AnswerLeadsToFinish | backend/app/services/temporal_runtime.py:271-339 | where every answer sends a sweep, and a worker whose call was unclear: no answer, an empty list, one adoptable link, and everything else |
| Progress.FinishSettles | backend/app/services/temporal_runtime.py:183-416 | while the claim stands, the last transaction of a worker records its result, hands a found link on, retries or fails after a failed or unclear call, or sends a refused link to review |
| Progress.SilentSweepChangesNothing | backend/app/services/temporal_runtime.py:464-476 | a sweep whose lookup gets no answer brings the world back exactly to where it began |
| Timing.OnlyAwaitedWorkStarts | backend/app/services/temporal_runtime.py:36-83 | work starts only by a claim, on the newest action, when it is due, in the state that awaits this kind of action, and for a follow-up with its promise still open |
| Timing.DecidedActionStartsExactlyWhenDue | backend/app/services/policy_engine.py:167-182 | a decided wait or contact can be started exactly from the end of its configured delay on |
| Timing.FollowUpStartsExactlyAfterTheDay | backend/app/services/orchestrator.py:632-642 | the follow-up of an accepted promise can be started exactly once the promised merchant-local day is over |
| Timing.RecoveredLeaseRestartsAtOnce | backend/app/services/temporal_runtime.py:566-572 | a recovered lease can be claimed again at once, at the price of exactly one more attempt |
| Latch.StepKeepsLatch | backend/app/services/orchestrator.py:138-159 | human review, the terminal states and AWAITING_OUTCOME with an open promise are closed under every step, mismatch writes included, and no step there decides, contacts or applies an effect |
| Latch.PendingPromiseLatches | backend/app/services/orchestrator.py:142-159 | a case with an open promise is latched |
| Runs.LatchHoldsForever | backend/app/services/orchestrator.py:469-663 | once latched, no later step of any run records a decision, schedules another outreach or applies an effect |
| Latch.TerminalOrder | backend/app/services/orchestrator.py:370-376 | the exact next state of a terminal case on every step, and that it leaves the terminal states exactly on a mismatch write for a payment-link action still EXECUTING |
| Latch.OnlyPaymentsRecover | backend/app/services/orchestrator.py:320-462 | a case becomes RECOVERED exactly on a capture or the payment of the link it stores, and DISPUTED exactly on a dispute or a reply that disputes or claims payment; workers, sweeps and the policy never do either |
| PromiseLedger.StepEvolvesPromises | backend/app/services/ptp_followup.py:39-58 | the terms of a promise never change, it leaves PENDING at most once, at the time of that step, and a new promise starts PENDING |
| PromiseLedger.StepNeverBreaksEarly | backend/app/services/ptp_followup.py:52-58 | no step marks a promise BROKEN before its merchant-local day has ended, lease resets included |
| PromiseLedger.ClaimedOnlyWhenDue | backend/app/services/temporal_runtime.py:39-40 | whatever the step, no row starts executing before its scheduled time |
| PromiseLedger.KeptExactlyByRecovery | backend/app/services/orchestrator.py:299-307 | a promise becomes KEPT exactly if it is open and a capture, or the payment of the stored link, comes to a case neither RECOVERED nor DISPUTED; it is then resolved at the time of that step |
| PromiseLedger.SupersededExactlyByReply | backend/app/services/orchestrator.py:594-619 | a promise becomes SUPERSEDED exactly if it is open and a reply brings a newer one, which is then open |
| PromiseLedger.BrokenExactlyByFollowUp | backend/app/services/ptp_followup.py:39-58 | a promise becomes BROKEN exactly if it is open and its own follow-up comes to its end, claimed and newest, or due |
| Runs.HistoryIsNeverRewritten | backend/app/services/temporal_runtime.py:128-212 | over any run EXECUTED, CANCELLED and FAILED rows never change again, and neither do resolved promises |
| EffectLedger.StepKeepsEffectsOnce | backend/app/services/action_executor.py:105-201 | the success of an action has been applied exactly once if it is an EXECUTED contact or link and never otherwise, for any number of overlapping workers |
| EffectLedger.OnlySuccessExecutes | backend/app/services/temporal_runtime.py:200-212 | a contact or link becomes EXECUTED only in the completion of that very action, which logs its effect |
| EffectLedger.StepKeepsDecisionsBounded | backend/app/services/policy_engine.py:210-220 | every step keeps the count: as many wait-driven decisions as executed waits, at most as many failure-driven ones as failures, and those within the stopping rule |
| EffectLedger.WaitDecisions | backend/app/services/temporal_runtime.py:147-162 | a finished wait brings exactly one decision, which is wait-driven, and exactly one more executed wait, itself |
| Runs.DecisionLimitsHold | backend/app/services/policy_engine.py:91-121 | in every reachable case at most max_total_attempts + 2 failure-driven and two wait-driven decisions, no two executed waits of one kind, each effect applied at most once |
| Runs.StepKeepsInvariant | backend/app/services/temporal_runtime.py:1-598 | one step keeps all invariants together |
| Runs.ReachableCasesAreSound | backend/app/services/orchestrator.py:191-225 | every case reachable from any opening by any run satisfies all invariants |
| GuardrailEngine.BaselineChoiceIsFirstAllowed | backend/app/services/policy_engine.py:197-249 | the baseline stops exactly when the failure budget is exceeded, and otherwise picks the best-ranked candidate no guardrail blocks, or escalates when all are blocked |
| GuardrailEngine.BaselineClosedForm | backend/app/services/policy_engine.py:54-63 | the choice per failure category in terms of finished waits and the contact limits alone; a second contact in a ranking is never reached |
| GuardrailEngine.AllowedExactly | backend/app/services/policy_engine.py:106-142 | for all rows, a contact is allowed exactly if the amount is within the limit and the rows with one more contact made now still meet the total, weekly and spacing limits; a wait exactly if none of its kind is EXECUTED; everything else always |
| PolicyDispatch.FeasibleExactly | backend/app/services/ml_policy.py:50-61 | an action is ranked exactly if it is no follow-up, the guardrails permit it, and it is no native retry outside a subscription; ESCALATE always is, so the fallback of the filter is never needed |
| PolicyDispatch.AdaptiveChoiceIsBestFeasible | backend/app/services/ml_policy.py:64-142 | the adaptive choice passes every guardrail and the feasibility filter, and no other such action comes before it by utility, expected value and position |
| PolicyDispatch.AdaptiveChoiceExistsExactly | backend/app/services/ml_policy.py:93-126 | there is an adaptive choice exactly with a trained model that gives every feasible action but STOP a probability |
| PolicyDispatch.AdaptiveChoicePaysForItself | backend/app/services/ml_policy.py:104-126 | STOP is always feasible and worth nothing, so what the chosen action is expected to recover, in rupees, is at least its cost and its weighted friction |
| PolicyDispatch.ChoiceIsGuarded | backend/app/services/policy_dispatcher.py:28-60 | in every mode the choice obeys the stopping rule and the guardrails on the rows it looked at, and is never a follow-up |
| PolicyDispatch.FallbackModesDecideLikeBaseline | backend/app/services/policy_dispatcher.py:63-166 | on the same session, in any case state, shadow mode whatever happens while it scores, and adaptive mode with a model that always fails, decide exactly when and what the baseline decides |
| PolicyDispatch.FailingModelsNeverChoose | backend/app/services/ml_policy.py:97-101 | no adaptive choice comes from a missing model, or from one whose prediction for ESCALATE, always ranked, is no probability |
| ModeRefinement.RunsRefineBaseline | backend/app/services/policy_dispatcher.py:63-130 | through the dispatcher with its recommendation and fallback, a run in those modes is a run exactly if the same run in baseline mode is, with the same cases, actions, statuses and times; on finished waits even a failed import is harmless |
| ModeRefinement.OpeningRefinesBaseline | backend/app/services/policy_dispatcher.py:63-166 | a new case in those modes is the case baseline mode opens |
| ModeRefinement.ShadowErrorIsHarmlessExactly | backend/app/services/policy_dispatcher.py:80-91 | where the scoring code cannot be imported, a failure step in shadow mode is the baseline step exactly if the failure does not reach the policy, or the case is past its last permitted failure, or before it with no contact that only the flush frees |
| Findings.ShadowErrorCanDiffer | backend/app/services/policy_dispatcher.py:80-91 | a reachable case and a failure on it: the baseline step ends in HUMAN_REVIEW, the shadow step in ACTION_SCHEDULED |
| Ranking.RankedIsLexicographic | backend/app/ml/scorer.py:225-272 | the expected-value sort followed by the utility sort is a permutation in one lexicographic order: utility, expected value, policy order |
| Ranking.SortRefinesOrder | backend/app/ml/scorer.py:237 | a stable descending sort keeps the earlier order among equal keys and loses no entry |
| Ranking.RankedIsTheLexicographicSort | backend/app/ml/scorer.py:258-272 | any permutation in that lexicographic order is the ranking |
| Ranking.TopIsUniqueMaximum | backend/app/services/ml_policy.py:124-126 | the first ranked action strictly precedes every other ranked action |
| Ranking.TopHasMaximalUtility | backend/app/ml/friction.py:84-97 | no ranked action has a higher utility than the chosen one |
| Ranking.WorthExactly | backend/app/ml/friction.py:28-97 | an action comes before WAIT by utility exactly if what it recovers beyond WAIT exceeds its rupee cost and its weighted friction, 12 points more for a contact per earlier contact and for no other action; STOP is worth zero |
| Ranking.FrictionIsMonotone | backend/app/ml/friction.py:57-97 | raising a non-negative friction weight never moves the choice to more friction or a higher expected value |
| Ranking.ProfilesAreOrdered | backend/app/ml/friction.py:50-81 | revenue_first, balanced and low_friction choose with decreasing friction and expected value |
| PolicyEngine.ContactsForCase | backend/app/services/policy_engine.py:79-88 | returns exactly the SCHEDULED and EXECUTED contacts, each once |
| PolicyEngine.CheckActionAllowed | backend/app/services/policy_engine.py:106-142 | the chain of checks answers exactly what the policy permits: a contact that still fits all limits as the next row, a wait not yet finished, and everything else |
| PolicyEngine.ChooseBaseline | backend/app/services/policy_engine.py:204-249 | chooses what the baseline function says and records every candidate with the verdict the guardrails give it |
| PolicyEngine.TryCandidates | backend/app/services/policy_engine.py:222-233 | finds the first allowed candidate if there is one, and a verdict for every candidate |
| PolicyEngine.FeasibleActions | backend/app/services/ml_policy.py:76-91 | the guardrail loop and the semantic filter yield the feasible set in policy order |
| PolicyEngine.RankActions | backend/app/ml/scorer.py:185-237 | fails exactly on a probability outside [0, 1], else scores all actions and sorts them by expected value |
| PolicyEngine.RankActionsWithFriction | backend/app/ml/scorer.py:240-272 | scoring first and adding friction later gives the lexicographic ranking of the fully scored actions |
| PolicyEngine.EnrichCommutesWithSort | backend/app/ml/scorer.py:258-271 | adding friction and utility does not disturb the order by expected value |
| PolicyEngine.AdaptiveChoose | backend/app/services/ml_policy.py:64-142 | computes the adaptive choice, or nothing exactly where a model failure is raised |
| MerchantTime.EndOfDayIsExclusive | backend/app/core/time.py:10-18 | an instant lies before the end of a merchant-local day exactly if its local date is at most that day |
| PromiseValidation.AcceptedExactly | backend/app/services/ptp_extractor.py:41-112 | exactly which extractions become promises, and that the promise records the newer of each field and its legacy twin |
| PromiseValidation.AcceptedPromiseIsTimely | backend/app/services/ptp_extractor.py:87-100 | an accepted promise is for a positive amount within the balance, and its follow-up is strictly after now and at most fifteen days away |
| CaseTransactions.RevenueCase.Open | backend/app/services/orchestrator.py:262-292 | opens a reachable case with the columns of the failure: RECOVERED without any action exactly if its capture came first, else diagnosed with exactly one decision, which counts no failure yet |
| CaseTransactions.RevenueCase.CancelScheduledActions | backend/app/services/orchestrator.py:95-103 | cancels exactly the SCHEDULED actions, returns their number, leaves all else as it was |
| CaseTransactions.RevenueCase.ResolvePendingPromises | backend/app/services/orchestrator.py:594-601 | resolves exactly the PENDING promises, in place |
| CaseTransactions.RevenueCase.OnPaymentCaptured | backend/app/services/orchestrator.py:368-376 | recovers every case neither RECOVERED nor DISPUTED: scheduled actions are CANCELLED, open promises KEPT at the time of the step, nothing else changes; any other case stays as it is |
| CaseTransactions.RevenueCase.OnPaymentLinkPaid | backend/app/services/orchestrator.py:394-416 | recovers the case in the same way exactly if the paid link is that of its newest executed link action and the case is neither RECOVERED nor DISPUTED, and otherwise changes nothing |
| CaseTransactions.RevenueCase.OnDispute | backend/app/services/orchestrator.py:444-462 | disputes any case, reports the state before, cancels what is scheduled and leaves everything else, open promises included, as it was |
| CaseTransactions.RevenueCase.OnFailure | backend/app/services/orchestrator.py:228-260 | counts the failure and takes over its amount and currency; a latched case keeps state and rows; any other gets its scheduled actions cancelled and exactly one decision, made on the rows and the count before the failure, with its action, delay and state, STOP past the last permitted failure; the amount is within the limit wherever a contact is the newest action |
| TransactionMeaning.FailureStopsExactly | backend/app/services/policy_engine.py:203-220 | a failure on a case still being worked on ends in STOPPED exactly if the decision is STOP, in every mode when the failures before it exceed the budget, and in baseline mode only then |
| CaseTransactions.RevenueCase.TakeFailure | backend/app/services/orchestrator.py:130-188 | inside the transaction the policy looks at the rows before the cancellations, which nothing has flushed |
| CaseTransactions.RevenueCase.OnCustomerReply | backend/app/services/orchestrator.py:545-663 | a reply that validates supersedes the open promise and records exactly one PENDING promise with the amount and day the customer named, and one SCHEDULED follow-up linked to it that is due the instant the local day is over; a dispute or payment claim disputes the case; any other reply goes to review; a terminal case takes none |
| CaseTransactions.RevenueCase.ShadowRecommendation | backend/app/services/ml_policy.py:145-189 | borrows the state of the live case, ranks on the unflushed session, catches every error, and leaves case and session exactly as they were |
| CaseTransactions.RevenueCase.DecideShadow | backend/app/services/policy_dispatcher.py:63-130 | the baseline decides on what the recommendation left behind; the comparison it notes is between what was decided and what was suggested, and is noted exactly if there was a suggestion |
| CaseTransactions.RevenueCase.DecideForCase | backend/app/services/policy_dispatcher.py:28-176 | decides exactly on a DIAGNOSED case, and then what the dispatcher in closed form says, recommendation, fallback and flushes included |
| CaseTransactions.RevenueCase.ClaimAction | backend/app/services/temporal_runtime.py:22-83 | succeeds exactly on a SCHEDULED, due action the case awaits, which then is the newest, EXECUTING since now with one attempt more, within its attempts; a due one the case does not await is CANCELLED, and nothing else ever changes |
| CaseTransactions.RevenueCase.CompleteWaitAction | backend/app/services/temporal_runtime.py:139-166 | a claim that still stands is the first wait of its kind to finish: it becomes EXECUTED and one wait-driven decision follows that sees it so; any other claim is CANCELLED and nothing else changes |
| CaseTransactions.RevenueCase.ProcessDueFollowups | backend/app/services/ptp_followup.py:61-90 | a pass over a case is one protocol step: the newest action, if it is a due follow-up, breaks its open promise or just finishes, nothing else changes, and the counts say which |
| CaseTransactions.RevenueCase.CompletePtpAction | backend/app/services/temporal_runtime.py:169-180 | a claim that still stands breaks its promise, whose local day is over, and sends the case to review; with nothing newer but the promise resolved it just finishes; any other claim is CANCELLED and nothing else changes |
| CaseTransactions.RevenueCase.CompleteExternalAction | backend/app/services/temporal_runtime.py:200-212 | a claim that still stands becomes EXECUTED with exactly this result, is logged for the only time, sets AWAITING_OUTCOME, and stores a link on the case; any other claim is CANCELLED and nothing else changes |
| CaseTransactions.RevenueCase.RecordExternalFailure | backend/app/services/temporal_runtime.py:342-416 | a claim that still stands goes back to SCHEDULED after base * 2^(attempts - 1) while attempts are left, and else fails and goes to review; any other claim is CANCELLED and nothing else changes |
| CaseTransactions.RevenueCase.RecordMismatch | backend/app/services/temporal_runtime.py:290-299 | fails the action and sends the case to review whatever its state, exactly if the action is EXECUTING, and otherwise changes nothing |
| CaseTransactions.RevenueCase.CancelAfterLook | backend/app/services/temporal_runtime.py:435-444 | the cancel after an unlocked look cancels the claim if it is still EXECUTING and changes nothing else |
| CaseTransactions.RevenueCase.RecoverExpiredLease | backend/app/services/temporal_runtime.py:556-579 | leaves a claim younger than the timeout alone; an older one that still stands is SCHEDULED for now with attempts left and fails without, one that does not is CANCELLED; counts exactly what it did |
| CaseTransactions.RevenueCase.SettleUnclearCall | backend/app/services/temporal_runtime.py:236-339 | whatever the lookup after an unclear call ends in: a found link is recorded as a success with that id, a refused one fails and goes to review, no link and no answer count as a failed call, a terminal case only cancels the claim |
| CaseTransactions.RevenueCase.SettleClaim | backend/app/services/temporal_runtime.py:504-527 | the end of the work on whatever the worker finds, by kind of action and by how the call ended, with the outcome it reports |
| Settlement.StandingClaimEnds | backend/app/services/temporal_runtime.py:504-527 | a claim that stands when the worker settles it ends as its call did: the result shown, the link refused, or the call failed |
| CaseTransactions.RevenueCase.ProcessAction | backend/app/services/temporal_runtime.py:497-527 | a duplicate or early delivery changes nothing; a due action the case does not await is CANCELLED; any other is the newest, costs one attempt, and ends as its work did: a wait in one decision, a follow-up in its broken promise, a call in the success with its result, the retry after the doubled delay, or review |
| TransactionMeaning.TransactionEnds | backend/app/services/temporal_runtime.py:86-98 | a committed transaction ends in a reachable case, rewrites no final row or resolved promise, and keeps a latched case latched without new outreach |
| TransactionMeaning.DoneWaitIsFirst | backend/app/services/policy_engine.py:110-121 | a wait that can finish is the newest action and the first of its kind to finish |
| TransactionMeaning.PassIsOneStep | backend/app/services/ptp_followup.py:69-88 | the loop over due follow-ups of a case equals the single step on its newest action |
| Provider.OwnLinkIsAdoptedExactly | backend/app/services/razorpay_client.py:249-308 | a link the client made passes the lookup exactly while amount and currency are unchanged and the link is neither expired nor cancelled |
| Provider.ByReferenceIsUnique | backend/app/services/razorpay_client.py:201-233 | where the provider keeps references unique, the filtered list has at most one link, and has it if it exists |
| Provider.LookupAcceptsExactly | backend/app/services/razorpay_client.py:249-308 | for every list the provider may return: an empty one is absent, a single link is adopted exactly if reference, and amount, currency and notes where given, agree and it is neither expired nor cancelled, and everything else is a mismatch |
| Workers.MovesAreProtocolSteps | backend/app/services/temporal_runtime.py:497-527 | every move of a worker, the provider or the sweep leaves the case alone or is the enabled protocol step it names, inbound only for an inbound commit |
| Workers.PhasesAreStable | backend/app/services/temporal_runtime.py:236-339 | what a worker relies on between its transactions stays true under every step of anyone else, however late it continues |
| Workers.CallKeepsLinksSound | backend/app/services/razorpay_client.py:136-152 | a create call, committed or not, answered or not, never gives an action a second link |
| Workers.MoveKeepsSound | backend/app/services/temporal_runtime.py:215-494 | every move keeps the case invariants, unique links, agreement of EXECUTED link actions, and that every external call is paid for by a claim |
| ProviderAgreement.ProviderAgrees | backend/app/services/temporal_runtime.py:215-339 | in every world that can arise the provider holds at most one link per action, and an EXECUTED payment-link action records exactly that link |
| ProviderAgreement.LinksAreNotShared | backend/app/services/razorpay_client.py:157-165 | two payment-link actions never record the same link |
| ProviderAgreement.PerformsAreBounded | backend/app/services/temporal_runtime.py:75-77 | an action is performed externally at most max_attempts times |
| ProviderAgreement.LateWorkersCanAlwaysFinish | backend/app/services/temporal_runtime.py:256-268 | a worker may always run its final transaction, however late; the unconditional delayed cancel only meets superseded actions or latched cases |
| ProviderAgreement.LookupFindsOurLink | backend/app/services/temporal_runtime.py:271-339 | if the provider has the link of an action, an answered lookup never calls it absent, and adopts it exactly while it is unchanged and usable |
| ProviderAgreement.WorldRunsAreProtocolRuns | backend/app/services/temporal_runtime.py:497-598 | a run of workers and provider is a protocol run of the case, with as many changes, whose inbound steps are inbound commits of the world run |
| ProviderAgreement.WorldRunsAreBounded | backend/app/services/temporal_runtime.py:497-598 | without inbound commits a run of the world, of any length, changes the case at most as often as its measure says |
| Attempts.NoLookupBetweenClaimAndCall | backend/app/services/temporal_runtime.py:497-527 | in every run, a worker about to call the provider has done nothing since its claim of that action but take the snapshot |
| Findings.CreateIsRepeatedWithoutLookup | backend/app/services/temporal_runtime.py:271-289 | two runs with two create calls for one action: one without any answered lookup, one with the lookup of the earlier attempt answered |
| CaseColumns.StepKeepsAmountWithinCap | backend/app/services/policy_engine.py:123-124 | while the newest action is a contact, the amount of the case stays within the automation limit, rebills included |
| CaseColumns.StepKeepsLinkColumn | backend/app/services/action_executor.py:117-118 | the stored link id is always that of the newest executed payment-link action |
| ProviderCap.LinkExceedsCapExactly | backend/app/services/temporal_runtime.py:183-197 | the provider is asked for more than the limit exactly if, between claim and snapshot, the last rebill that reached the case was for more |
| ProviderCap.OverLinksAreNeverRecorded | backend/app/services/temporal_runtime.py:200-212 | the action of a link over the limit is not the newest and not EXECUTED, no action records that link, and its payment changes nothing |
| ProviderCap.PaymentRecoversExactly | backend/app/services/orchestrator.py:394-416 | the payment of a link at the provider recovers the case exactly if the case is open for it and the link belongs to the newest executed link action |
| Findings.RebillMakesLinkOverLimit | backend/app/services/temporal_runtime.py:509-522 | a run with default settings in which the provider ends up with a link over the limit |
| Findings.OverLimitAsPredicted | backend/app/services/temporal_runtime.py:183-197 | the same run through the general condition: the last rebill before the snapshot is over the limit, so the link is |
| Findings.OlderLinkIsPaidForNothing | backend/app/services/orchestrator.py:394-405 | a reachable case with two executed links that ignores the payment of the first and recovers on that of the second |
| Findings.MismatchReopensDispute | backend/app/services/temporal_runtime.py:290-299 | a reachable DISPUTED case that a mismatch write sends to HUMAN_REVIEW |
| Webhooks.WebhookFold | backend/app/services/orchestrator.py:228-376 | for any deliveries on one payment id, with worker steps between: no case if nothing failed, DISPUTED exactly if a dispute follows the first failure, else RECOVERED exactly if a capture came at any time, nothing SCHEDULED in either |
| Webhooks.RedeliveryChangesNothing | backend/app/routers/webhooks.py:58-74 | delivering a seen event id again changes neither the event log nor the case, at any later point |
| WebhookEndpoint.WebhookGateway.RazorpayWebhook | backend/app/routers/webhooks.py:58-84 | a seen id changes nothing; a new event is stored, linked exactly if there is a case then; a failure opens the case, RECOVERED exactly if an unlinked capture came first and linking the latest of those, or is taken by it; a capture recovers the case, a dispute disputes it, and neither opens one; log and case are as the fold says |
| WebhookEndpoint.WebhookGateway.TakeUnlinkedRecovery | backend/app/services/orchestrator.py:106-127 | finds an unlinked recovery event exactly if there is one, and links the latest |
| WebhookEndpoint.LinksTheLatest | backend/app/services/orchestrator.py:117-127 | linking the newest match of the descending scan is linking the latest event of the log |
| Sweep.Reconciler.StaleIds | backend/app/services/temporal_runtime.py:537-544 | returns exactly the EXECUTING actions claimed at least the timeout ago, each once |
| Sweep.Reconciler.SweepLeases | backend/app/services/temporal_runtime.py:546-579 | takes exactly the claims older than the timeout, turn by turn, each turn as the answer says and touching no other row; every claim that stood ends EXECUTED with the found link, FAILED and in review, or SCHEDULED for now, by its answer and its attempts; the counts are the resets and failures made |
| Sweep.LoopSettlesStanding | backend/app/services/temporal_runtime.py:546-579 | however many older claims of the same case are swept before or after it, a claim that stands ends exactly as its own answer says, and is untouched until its turn |
| Sweep.YoungClaimIsLeftAlone | backend/app/services/temporal_runtime.py:533-558 | no sweep, whatever the provider answers, changes a case for a claim younger than the timeout |
| Sweep.Reconciler.Republish | backend/app/services/temporal_runtime.py:581-598 | from any queue contents, every SCHEDULED queueable Razorpay action ends with a registered job, registered jobs stay, and the counts are exact |
| Sweep.Reconciler.EnqueueAction | backend/app/services/task_queue.py:40-122 | publishes exactly the queueable SCHEDULED actions, replacing a finished job of the same generation |
| Sweep.Reconciler.ReconcileActions | backend/app/services/temporal_runtime.py:530-598 | after one unlimited sweep every claim that stood is settled as its answer says, no expired claim is left but links without an answer, the counts are exact, and with publishing up every SCHEDULED action a worker can run, of a Razorpay case, has a registered job named by its id and attempts |
| Sweep.SweepIsAProtocolStep | backend/app/services/temporal_runtime.py:419-494 | what the sweep does to one case is one enabled protocol step, so every run theorem covers it, and it is by answer: a refused link fails and goes to review, a found one is adopted, a missing one put back while attempts are left, a terminal or superseded one CANCELLED |
| TaskQueue.JobIdsAreDistinct | backend/app/services/task_queue.py:78-80 | two generations share a job id only if action and attempt count are equal, even for ids with dashes |

## Left out

- HTTP, Redis, RQ, SQLAlchemy, FastAPI, signatures, authentication, logging, migrations, the frontend and the dashboards: plumbing and read models; the unique event id, the transaction boundaries and the set of jobs remain.
- Row objects: inside a case the rows are values in sequences that the methods reassign, so aliasing between ORM objects of one session is not captured.
- Columns without influence on the protocol: executed_at, enqueued_at, queue_job_id, last_error, results, explanations, guardrails_applied, policy_mode, expected value and error fields; of the audit rows only the failure count that the stopping rule reads.
- Message drafts: the rule that suppresses a second message with the same body is not modelled; `effects` counts the applications of success instead.
- Classification of failures, extraction of promises from text, drafting and the trained model: their results are arbitrary inputs; NaN probabilities do not exist over reals.
- Floating point: amounts are whole paise, scores and the friction weight are reals, so rounding is not modelled; `float(outstanding)` in the reply handler is the amount itself.
- Daylight saving: the merchant zone is a fixed offset.
- Legacy follow-ups without a promise link: a follow-up without a link counts as ineligible, its repair is not modelled.
- Failure injection, simulation mode of the payment links, synthetic cases and the scripts, including the manual link reconciler that forces EXECUTING.
- Matching a case by subscription among several: reduced to whether the failure reaches this case through its subscription, with its new amount and currency; conflicting identifiers and the insert race on a new case are not modelled.
- Concurrency inside the sweep: `reconcile_actions` runs as one sequential pass with the lookup answers as input; that its single transactions interleave safely is what the protocol and worker theorems say. A limit on the pass is not modelled.
- Sweep.Reconciler.ReconcileActions: starts from cases that runs of the protocol reach, which all committed cases are, and gives each turn of its loop a later commit time than the one before.
- A publish that fails after the finished job was deleted: publishing is either up or down for a whole pass.
- Sweep.Reconciler.Republish: does not state the order in which jobs are published, because each job is keyed by its action and generation alone.
- CaseTransactions.RevenueCase.ProcessAction: runs its transactions without others in between, and takes the results of call and lookup as input; the interleavings are those of the world.
- CaseTransactions.RevenueCase.CompleteWaitAction: requires, like its siblings, the kind of action that `process_action` has dispatched on.
- CaseTransactions.RevenueCase.DecideForCase: in adaptive mode an error that is no model failure aborts the transaction in the code, so no step is taken; database errors are not modelled in any mode.
- CaseTransactions.RevenueCase.ProcessDueFollowups: works on one case and, like process_due_followups, takes no lock; the pass over several cases is this pass on each of them.
- Webhooks.WebhookFold: speaks of deliveries without a subscription id, and of runs between them without mismatch writes, without paid links and without replies that dispute or claim payment, because those change the final state by themselves.
- Workers.MoveKeepsSound: a link's status and the worker's view may change at any time, but the provider never deletes a link or changes its reference, amount, currency or notes.
- Ranking.FrictionIsMonotone: for a fixed set of actions, probabilities and contact count, since a different weight changes later contacts of a whole run.
