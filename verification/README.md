# Recovery case engine: a verified model

This project models the engine that recovers failed payments. A webhook opens a case for a failed payment. A pipeline
drives the case through a state machine: it diagnoses, lets a decision source (a language model, or a deterministic
table) choose a strategy, asks a policy gate of fourteen ordered rules, and lets executors charge a saved token, send a
payment link or ask a human. Captures are recorded wherever they are seen, every fact is written to a hash-chained
audit log, and a batch runner drives many cases and scores the result. Time is in integer minutes, money in integer
paise, confidence in hundredths.

## How it is organised

| files | what they hold |
|---|---|
| Enums, Fsm, Diagnosis, Strategies, PolicyRules, PolicyEngine, Decide | the pure tables and rules, and the loops that evaluate and propose |
| Trail, Rows | audit event payloads with the replay that reads them back; the rows of the tables |
| CaseService, Verification, Gateway, Executors, Pipeline, HumanDecisions | the services: specification functions on rows, and methods on mutable cases, payments, clock and gateway proved equal to them |
| CaseRuns, Core | everything that can happen to one case in any order; the step on the few columns it depends on, with its refinement |
| Gatekeeping, ActionRows, Limits, Spacing, Waiting, GatewayRuns, Numbering | what every run of a case keeps |
| GateLaws, Decisions, Attempts, Recoveries, Escalations, Actors | what a step does and what a run tells, in plain comparisons: the gate's answers, where decisions, action rows, credits and escalation rows come from, and who moved the case |
| Transactions, LiveLinks, Witnesses | what other transactions ever see of a case, and of a paid link; runs that only a driver committing between steps could take |
| TableGate, Ladder, BatchOutcome, Termination, TableRuns | the decision table, its closed form, termination, and where the driving loop raises |
| Ingest, Clashes, IngestLaws, OpenedCases, Redelivery, World | webhook ingestion, when customer rows clash, its laws over delivery sequences, the rows they leave, and many cases in one interleaving |
| BatchRuns, Batch, BatchResults, Scoring, ReportChecks, Concurrency | the batch runner, the merchant's budget, the report, and two workers at once |
| Audit, Refs, Breaker, Sessions | the hash chain, references and idempotency keys, the circuit breaker, sessions of requests through it |

Three views of the pipeline are used. A drive (`Pipeline.Advance`) is the deterministic loop of `advance_case`; outcome
and termination are proved over drives. A run (`CaseRuns.Run`, `World.WorldRun`) is any sequence of atomic events:
single worker steps in batch or live mode under any model answers, human decisions, webhooks, time; an exception leaves
the state as it was. Runs allow more than the code does, and safety is proved over them. A sequence of transactions
(`Transactions.Committed`) is what the code does: whole drives, each committed or rolled back, and the other events
between them. Every drive and every sequence of transactions is a run (`BatchRuns.AdvanceIsARun`,
`Transactions.CommittedIsARun`), so what holds of runs holds of both; what fails on a run fails for a driver that
commits between steps, and is shown for the shipped code only where a transaction or a drive is exhibited.

## Where code and comments or documents differ

The model follows the code.

- The "deterministic fallback" after a BLOCK (app/services/pipeline.py:318) asks the model again: a case terminates if
  the model's answers end (`Termination.FiniteAnswersTerminate`), and `Termination.StubbornModelNeverEnds` shows what a
  model that goes on answering can do.
- Live mode does not park a case (app/services/pipeline.py:310, app/worker.py:5): see `Termination.LiveModeNeverParks`.
  As a drive is one transaction, no case parked for a human is ever committed, and an approval never changes a case
  (`Transactions.CommittedCasesAreSettled`).
- A live drive closes an unpaid case in the step after its link went out (app/services/pipeline.py:387-388, 435-436),
  and a closed case takes no capture: a customer who pays that link is never credited (`LiveLinks.PaidLinksAreLost`).
- A customer is looked up by the provider's id only, but contacts are unique (app/services/ingest.py:79-101,
  app/db/models.py:84-86): a later payment event of a stored contact without a stored id raises and is rolled back, so
  ingestion is not safe to replay for it and "exactly one case per failed payment" fails. `Clashes` says exactly when,
  with inputs, and the laws of `IngestLaws` are stated where it does not happen.
- An amount of -100000 paise or less makes the risk score raise (app/risk/engine.py:37-40) whenever the case is driven
  (`Termination.UnscorableRaises`).
- The budget is not locked: two workers can both spend its last retry (`Concurrency.TwoWorkersOverspend`); cases driven
  one after another keep it (`Batch.BudgetIsKept`). Ticks that start at the same oldest case are serialised by its row
  lock; the two overlap when one starts at a case the other did not see, such as an older one committed late.
- The gate, the transition table and the decision endpoint would not by themselves keep the bounds if drives committed
  between steps: the contact cap (docs/GUARDRAILS.md:36) binds the gate but not human approvals, an approval may follow
  POLICY_CHECK, and a charge refused under a mirror that says CAPTURED is not stamped. `Limits` and `Spacing` give the
  bounds in terms of exactly these, and `Witnesses` attains them.
- The breaker does not probe with one call after its cooldown (app/integrations/razorpay.py:22):
  `Breaker.LapseAllowsFullBurst`.
- A forced escalation is decided again on re-entry when retry_count is above zero (app/services/pipeline.py:279-288);
  this is why the closed form ends link cases with an earlier attempt in BLOCKED.
- BANK_DOWNTIME is retried without a saved token (app/domain/strategies.py:91-96), against the prompt's own rule.
- A confidence of exactly zero counts as full confidence where an escalation reason is chosen
  (app/services/pipeline.py:205), and as 50 in a forced decision (app/services/pipeline.py:231).
- Ingestion is idempotent for equal ids only under an exact condition on the deliveries
  (`Redelivery.RedeliveriesChangeNothingIff`), which equal content alone does not meet (`Redelivery.ReplayOpensACase`).
  The condition is about every store, including stores that no run of the engine reaches.

## Model

| member | source | states |
|---|---|---|
| `PolicyEngine.Evaluate` | app/policy/engine.py:24-60 | the ordered evaluator: the first rule that fails decides the verdict; ALLOW exactly when every rule passes; one trace entry per rule, those after the failure marked as not evaluated |
| `PolicyEngine.CatalogOrder` | app/policy/rules.py:184-199 | walking P01..P14 in catalog order finds the rule the closed rule chain names |
| `GateLaws.ContextAnswers` | app/policy/engine.py:24-60 | on any context, also those the pipeline never builds, ALLOW, ESCALATE and WAIT each if and only if plain comparisons hold |
| `GateLaws.GateAnswersPlainly` | app/policy/rules.py:87-174 | for every case, payment, decision, config and budget use, ALLOW, ESCALATE and WAIT each if and only if plain comparisons hold: ESCALATE exactly for an attempt in its turn on a failed payment beyond the limit, or with diagnosis or strategy confidence below the floor |
| `GateLaws.ClearedByDefault` | app/policy/config.py:19-27 | what the shipped config clears, in figures |
| `GateLaws.GateNamesTheRule` | app/policy/engine.py:24-60 | POLICY_EVALUATED names exactly the first rule the case, payment or decision offends, with that rule's verdict; four rules are never named |
| `GateLaws.EveryAttemptWasCleared` | app/services/pipeline.py:296-338 | over every run and decision source, each action row rests on an approval that still stood; a charge or link the policy approved was decided with both confidences at or above the floor, amount within the limit, a delay absent or in [15, 4320], and a charge with a retry left, after the cooldown, within budget, and of no diagnosis that forbids it |
| `Diagnosis.Diagnose` | app/domain/diagnosis.py:11-57 | a mapped reason yields its class at 90, else a mapped code its class at 70, else UNKNOWN at 40; a self-heal is never diagnosed |
| `Diagnosis.ClassesAreToldBy` | app/domain/diagnosis.py:11-57 | for each class exactly the reasons, and the codes where no reason is mapped, that lead to it |
| `TableGate.TableChoices` | app/domain/strategies.py:54-120 | what all table choices share: retries and links only for fresh, cheap, confident, known failures with fewer than two attempts |
| `TableGate.TableIsExact` | app/domain/strategies.py:54-120 | for each strategy and delay, exactly when the table chooses it |
| `TableGate.TableRespectsGate` | app/agent/decide.py:38-64 | for every input and every config with max_retries >= 2, a table decision never fails P03, P05, P06, P10 or P13 |
| `TableGate.TableVerdicts` | app/policy/rules.py:87-174 | so without a model ESCALATE is unreachable, WAIT comes only from P04 and BLOCK only from P01, P08, P11 or P12 |
| `TableGate.TwoRetriesNeeded` | app/domain/strategies.py:87-96 | the condition on max_retries is exact: it holds for all inputs if and only if max_retries >= 2 or no diagnosis is ever confident enough to retry |
| `TableGate.WaitCoversCooldown` | app/services/pipeline.py:311-317 | under any config the fast-forward after a WAIT is at least P04's clamped cooldown |
| `TableGate.OneWaitSuffices` | app/policy/rules.py:104-110 | a gate context advanced by the fast-forward of its WAIT passes P04 |
| `Waiting.NoAttemptWaitsTwice` | app/services/pipeline.py:296-317 | over every run with fast-forward, under any config and decision source, two WAIT evaluations on a trail always have another evaluation, or a human approval, between them |
| `Waiting.StepRules` | app/services/pipeline.py:143-163 | a worker step adds an evaluation to the trail exactly when it passes the gate, and it is the gate's verdict |
| `Waiting.ClockMoves` | app/services/pipeline.py:311-403 | exactly how far each step moves the clock: the two-day window, a charge's missing cooldown, the ladder's 30, 120 or 480 minutes, or nothing; a live step never does |
| `TableGate.LadderDominatesGate` | app/domain/strategies.py:37-51 | with the default config the 30/120/480 ladder covers P04 exactly for attempt numbers up to 4 |
| `Limits.VerdictTells` | app/policy/engine.py:33-49 | ALLOW means P01, P03, P04, P08 and P12 passed; ESCALATE only that P01, P03 and P04 did |
| `Decide.Propose` | app/agent/decide.py:160-191 | the loop over model calls returns the first valid answer of at most two calls, else the table's decision |
| `Decide.DecisionIsVetted` | app/agent/decide.py:112-124 | whatever the model answers, the decision is the table's own or one of the first two answers and passed validation, and its origin says which |
| `Decide.DecideAndPersist` | app/agent/decide.py:193-217 | appends the decision, stamps the case and appends DECISION_RECORDED; nothing else changes |
| `Decisions.AnswersAreDecisions` | app/agent/decide.py:112-124 | valid answers and model decisions with both confidences in 0..100 correspond one to one: reading the answer for a decision gives it back, and no other valid answer does |
| `Decisions.StepDecides` | app/services/pipeline.py:265-330 | a step takes a decision exactly on analysis, on re-entry after a retry, when the gate blocks a model's decision, or when the ladder forces one; it is appended, stamped and told, and no other step changes decisions or stamps |
| `Decisions.EveryDecisionHasItsStep` | app/agent/decide.py:160-217 | over every run, each decision is, field by field, the first valid of the two answers of the step that took it, or without one the table's for the case as it stood, or the escalation the ladder forced |
| `Decisions.CasesAreStamped` | app/agent/decide.py:193-217 | over every run, the i-th decision event tells the i-th decision, and the case's diagnosis, confidence and strategy are those of the newest decision, with the stated exceptions of a forced decision and a capture webhook |
| `CaseService.Transition` | app/services/case_service.py:60-78 | raises exactly on an illegal edge and then changes nothing; otherwise sets the status and appends one STATE_TRANSITION |
| `Verification.RecordCapture` | app/verification/service.py:18-56 | raises exactly when RECOVERED cannot be reached; a recovered case keeps its first capture; otherwise status, amount, outcome, payment and both events change together |
| `Verification.CloseUnrecovered` | app/verification/service.py:59-78 | raises exactly when the status cannot be closed; otherwise sets outcome, status and events |
| `Recoveries.StepCredits` | app/verification/service.py:18-56 | a step recovers a case exactly when the verifier sees the mirror captured or an executor's answer says paid, and credits the capture to whoever saw it, at the mirror's amount |
| `Recoveries.FirstAttemptIsDrawn` | app/executors/actions.py:105-134 | the first attempt at a payment recovers its case if and only if the gateway's next draw is below the payment's own chance, or else its diagnosis' |
| `Recoveries.CreditIsTold` | app/verification/service.py:27-56 | over every run, a recovered case has a single CAPTURE_CONFIRMED with its amount, and outcome SELF_HEALED if and only if the source of that event is the webhook; closing outcome and time are on exactly the closed cases, and no other case has money |
| `Recoveries.CreditIsEarned` | app/services/ingest.py:182-196 | over every run, behind that event is a capture webhook, or a worker step that saw the payment captured, with that source and amount |
| `Recoveries.BatchCreditsAreEarned` | app/batch/run_eval.py:286-301 | for every finished batch, agent_recovered_cases is the number of cases whose capture an executor or the verifier saw, and self_healed_cases of those whose capture a webhook brought |
| `Executors.StartAction` | app/executors/actions.py:62-84 | inserts an action numbered count + 1 and appends ACTION_STARTED |
| `Executors.FinishAction` | app/executors/actions.py:87-102 | settles the newest action and appends ACTION_FINISHED |
| `Executors.ExecuteRetryCharge` | app/executors/actions.py:105-134 | one RETRY_CHARGE row, one retry counted, one question to the gateway, and a capture exactly when it answers yes |
| `Executors.ExecuteSendLink` | app/executors/actions.py:170-217 | raises exactly when the adapter does; a refused link fails the action; without a real adapter the gateway is asked and a yes is a capture |
| `Executors.ExecuteEscalation` | app/executors/actions.py:232-251 | one CREATE_ESCALATION action and one open escalation with the reason the columns give |
| `Attempts.StepLeavesRow` | app/executors/actions.py:62-251 | a step whose approved strategy acts leaves exactly one settled row, of the strategy's kind, with mode and status by the adapter's reply, and no other step leaves or settles any |
| `Attempts.EveryRowHasItsStep` | app/services/pipeline.py:333-359 | over every run, each action row is the one a step of its own left |
| `Attempts.RowsAreSettled` | app/executors/actions.py:87-102 | over every run no row is EXECUTING, the i-th is SUCCEEDED if and only if the i-th ACTION_FINISHED has ok true, and one is FAILED if and only if it is a link the adapter refused, and then it is the newest and the case FAILED |
| `HumanDecisions.DecideEscalation` | app/main.py:234-267 | marks the escalation and moves the case, or raises and changes nothing when the escalation is unknown or the edge illegal |
| `Actors.PeopleDecideWhen` | app/domain/fsm.py:75-92 | exactly when a person's approval or rejection is taken |
| `Actors.TransitionsFit` | app/services/case_service.py:60-78 | over every run, each transition on the trail was made by the actor whose it is, from a status it may leave: only people escalate, only the verifier recovers, and nothing expires or is cancelled; RISK_SCORED, CAPTURE_CONFIRMED and CASE_CLOSED come exactly after the transitions they explain |
| `Gateway.SimulatedGateway.Ask` | app/integrations/simulated_gateway.py:31-35 | the first question about a payment draws once and is remembered; later ones repeat it and draw nothing |
| `Gateway.AnswersRepeatTheFirst` | app/integrations/simulated_gateway.py:31-68 | all answers about one payment in a run equal the first, whatever the probabilities and the questions in between |
| `Gateway.OneDrawPerPayment` | app/integrations/simulated_gateway.py:31-35 | exactly one draw per distinct payment not rolled before |
| `Gateway.MemoKeeps` | app/integrations/simulated_gateway.py:27-35 | the memo never loses or changes a roll and holds exactly the payments asked about |
| `Gateway.ProbabilityDecides` | app/integrations/simulated_gateway.py:31-35 | a first roll never succeeds at probability 0, always does at 1, and a larger probability never turns success into failure |
| `Pipeline.EnsureEscalation` | app/services/pipeline.py:192-222 | creates one escalation with its event only when the case has none |
| `Pipeline.ReasonsDiffer` | app/services/pipeline.py:201-210 | the two places that choose an escalation reason disagree exactly at a zero confidence, or at none under a floor above 100, once retries are exhausted |
| `Pipeline.ForceEscalationDecision` | app/services/pipeline.py:225-247 | appends the forced S5 decision and LADDER_OVERRIDE without re-stamping the diagnosis |
| `Pipeline.ExpireOpenEscalations` | app/services/pipeline.py:412-424 | expires the open escalations and leaves the decided ones |
| `Escalations.ApplyMovesRows` | app/services/pipeline.py:192-222 | exactly which events raise an escalation row, open and with the reason that amount, diagnosis, confidence and retries give; old rows keep their reason and change status only by a person's decision or an elapsed window |
| `Escalations.ParkingIsTold` | app/services/pipeline.py:304-307 | the trail of a parking at the gate: the evaluation with its rule, ESCALATION_CREATED with the new row's reason exactly if the case had none, and the transition |
| `Escalations.RowsTellDecisions` | app/main.py:234-267 | over every run, a row is APPROVED or REJECTED if and only if a person decided on it, as the newest such decision says, and EXPIRED only if nobody did and the window elapsed |
| `Escalations.WindowLeavesNoneOpen` | app/services/pipeline.py:397-424 | when the approval window elapses the case is ESCALATED and no row stays open |
| `Pipeline.DoEvaluate` | app/services/pipeline.py:297-302 | the gate's loop evaluates the context built from the case, clock and budget, and appends POLICY_EVALUATED |
| `Pipeline.DoVerdict` | app/services/pipeline.py:304-330 | what each verdict does, in batch and live mode, refines the specification step |
| `Pipeline.DoApproved` | app/services/pipeline.py:333-359 | an approved case runs its strategy and goes where that strategy's outcome leads |
| `Pipeline.DoVerifying` | app/services/pipeline.py:365-392 | the ladder's terminations and re-entries, in the code's order |
| `Pipeline.DoStep` | app/services/pipeline.py:250-403 | the whole imperative step computes the specification step on every state, raising where it raises |
| `Pipeline.AdvanceCase` | app/services/pipeline.py:427-436 | the driving loop with its step counter and final close computes `Advance` |
| `Core.StepRefines` | app/services/pipeline.py:250-403 | the step on full rows is exactly the step on the columns, counts and trail the later proofs use |
| `Core.FactsKept` | app/services/pipeline.py:250-403 | a step changes no payment facts, keeps attempts numbered, and never turns the clock back |
| `Gatekeeping.EveryActionApproved` | app/services/pipeline.py:296-338 | over every run and decision source, each ACTION_STARTED event of the trail rests on its own earlier approval, a policy ALLOW or a human's, of the decision then current, with no decision in between |
| `ActionRows.EveryActionRowApproved` | app/executors/actions.py:62-84 | over every run, the i-th action row is the i-th ACTION_STARTED event, with its kind and mode, which is backed by such an approval; of two rows the later one's approval comes after the earlier one's start |
| `Trail.ApprovalsAreDistinct` | app/services/pipeline.py:333-338 | two actions never rest on the same approval |
| `Trail.GatedMeansBacked` | app/services/audit.py:35-73 | a trail the replay accepts has every action backed |
| `Gatekeeping.TrailReplaysStatus` | app/services/case_service.py:60-78 | over every run, replaying STATE_TRANSITION from DETECTED gives the current status along legal edges, and a terminal status is never left |
| `Trail.LegalTrails` | app/domain/fsm.py:75-92 | each transition of a legal trail starts where the replay stood and is an allowed edge |
| `Trail.TerminalIsForGood` | app/domain/fsm.py:59-87 | after a terminal status only self-loops appear |
| `Gatekeeping.MoneyIsHonest` | app/verification/service.py:27-56 | over every run, RECOVERED, the closing outcome, and the trail's single CAPTURE_CONFIRMED with the recovered amount come together or not at all |
| `Limits.AttemptsAreBounded` | app/executors/actions.py:105-121 | over every run of atomic steps, retry_count is the prior attempts plus the charges, at most max(prior, max_retries) plus one per approval given in the gate's place, and contacts are within the cap plus one per approval |
| `Limits.ApprovalDuringCheckSkipsGate` | app/domain/fsm.py:28-34 | for a driver that commits between steps: an approval landing on POLICY_CHECK skips the gate, and the retry bound survives if and only if one more retry was left |
| `Witnesses.SkippedGatePassesRetryBound` | app/domain/fsm.py:75-92 | a run of such a driver from a fresh case attains the bound, one retry beyond max(prior, max_retries) |
| `Limits.HumanApprovalPassesContactCap` | app/policy/engine.py:33-49 | for a driver that commits between steps: at the contact cap the gate blocks a link if and only if P05 and P06 pass; otherwise a human is asked and the approved link goes beyond the cap |
| `Witnesses.ApprovalPassesContactCap` | app/services/pipeline.py:304-307 | a run of such a driver from a fresh case attains the contact bound, one contact beyond the cap |
| `Spacing.ChargesRespectCooldown` | app/policy/rules.py:104-110 | in any state a run reaches, a step that charges does so at least the clamped cooldown after the last stamped attempt, unless its approval was given in the gate's place |
| `Spacing.UnstampedCharge` | app/services/pipeline.py:352-359 | a charge leaves the case EXECUTING and unstamped if and only if it is refused while the payment's mirror says CAPTURED |
| `Spacing.ChargesAreSpaced` | app/policy/rules.py:78-110 | over every run whose charges are vouched for by the gate and not left unstamped, consecutive charges are the cooldown apart, and n charges span the matching clamped geometric sum |
| `Witnesses.UnstampedChargesComeTooClose` | app/services/ingest.py:116-136 | a run of a driver that commits between steps, with a payment.failed that claims a capture, whose charges are 120 minutes apart where the gate asks for 400 |
| `Transactions.CommittedIsARun` | app/db/session.py:40-45 | every sequence of whole transactions leaves a case where a run of its events leaves it |
| `Transactions.CommittedCasesAreSettled` | app/worker.py:55-74 | in every committed state a case is DETECTED or terminal, and a human approval changes nothing |
| `Transactions.CommittedCasesAreBounded` | app/services/pipeline.py:427-436 | in every committed state, with no further condition: retry_count, contacts and the spacing of charges are within the gate's bounds |
| `LiveLinks.SentLinksAreAbandoned` | app/services/pipeline.py:387-388 | a live drive of a fresh case behind a real adapter that sends a link leaves it closed or failed and without money, under any decision source, where the contact cap allows more than one contact |
| `LiveLinks.LateCapturesAreLost` | app/domain/fsm.py:75-92 | in every state committed after a case ended without recovery it stays there, and a capture of its payment changes nothing |
| `LiveLinks.PaidLinksAreLost` | app/verification/service.py:27-40 | so the payment of a link that a live drive sent is never credited, whatever is committed afterwards |
| `GatewayRuns.RecoveredAtFirstAttempt` | app/executors/actions.py:120-133 | over every run without a real adapter, a case an executor recovered has exactly one charge or link behind it, under any decision source |
| `GatewayRuns.StepAsks` | app/executors/actions.py:209-216 | a step asks the gateway exactly when it charges or sends a link |
| `Ladder.ClimbIsFate` | app/services/pipeline.py:365-403 | the round-by-round climb lands at the closed form's status, charges, links, step count and clock |
| `BatchOutcome.GateAnswers` | app/services/pipeline.py:296-331 | on the ladder, with budget for the next charge, the gate only ever allows or blocks, never waits, and blocks exactly stale cases and links beyond the cap |
| `BatchOutcome.StepClimbs` | app/services/pipeline.py:250-403 | each pipeline step of a batch run under the table is one rung of the climb, the gateway's roll staying fixed |
| `BatchOutcome.AdvanceIsFate` | app/services/pipeline.py:427-436 | for every fresh failed case of a scorable amount under the table and default config, with budget for the closed form's charges, `advance_case` ends in the closed form's status after exactly its number of steps, at most 22, and of minutes on the clock, never raising, never waiting and never closing for an exhausted budget |
| `Termination.StepDescends` | app/services/pipeline.py:365-403 | under any config and decision source every fast-forwarded step of an open case makes a move and lowers a measure over retries, contacts, pending wait, status and origin of the decision, which only an answer of the model can raise, by less than 16 |
| `Termination.FiniteAnswersTerminate` | app/services/pipeline.py:318-330 | if the model's answers end at some step, the loop without MAX_STEPS reaches a terminal status within 16 steps per retry and contact left and per answer given plus 15, never raising, and a larger budget changes nothing |
| `Termination.TableTerminates` | app/services/pipeline.py:427-436 | under the table the loop reaches a terminal status without MAX_STEPS, within 16 steps per retry and contact left plus 15, and a larger budget changes nothing |
| `Termination.UnscorableRaises` | app/risk/engine.py:37-40 | a new case's first step raises if and only if its amount is -100000 paise or less, and then the driver does |
| `Termination.DriveIsDriveFor` | app/services/pipeline.py:429-434 | the driving loop is the budgeted loop with budget MAX_STEPS |
| `Termination.AdvanceRaises` | app/services/pipeline.py:433-436 | `advance_case` raises if and only if a step did or the loop was left in flight anywhere but VERIFYING |
| `Termination.LiveModeNeverParks` | app/services/pipeline.py:308-310 | in live mode a step that makes no move closes an unpaid case in VERIFYING and makes the driver raise for any other |
| `Termination.StubbornModelNeverEnds` | app/services/pipeline.py:318-330 | a model that keeps giving a blocked answer spins the case through all 32 steps and the driver raises, for every payment and config |
| `TableRuns.TableRunsAreHarmless` | app/services/pipeline.py:296-331 | over whole table-driven runs with max_retries >= 2 the trail holds no ESCALATE, only P04 waits, and blocks only from P01, P08, P11 and P12; the run raises only for an amount that cannot be scored |
| `Refs.RefsAreInjective` | app/services/case_service.py:17-26 | rendered references are equal if and only if prefix and counter are, for any number of digits |
| `Refs.RefReadsBack` | app/services/case_service.py:17-26 | a reference reads back as its prefix and counter, in exactly six digits below a million and in as many as needed, without leading zeros, beyond |
| `Refs.Counters.NextRef` | app/services/case_service.py:17-26 | increments the counter of the kind, creating it at zero, and renders the new value |
| `Refs.Counters.NextRefs` | app/services/case_service.py:17-26 | a series of mints of any kinds yields pairwise distinct references |
| `Refs.KeysAreInjective` | app/executors/actions.py:71 | an idempotency key names one case, action type and attempt number |
| `Numbering.AttemptsAreNumbered` | app/executors/actions.py:53-76 | over every run the attempts of each type are numbered 1..n in creation order and no two actions share an idempotency key |
| `Audit.AuditLog.AppendEvent` | app/services/audit.py:35-73 | appends one row chained onto the case's latest event, or onto nothing without a case |
| `Audit.AuditLog.ValidateChain` | app/services/audit.py:76-93 | the validating loop answers true exactly for an intact chain in ascending order |
| `Audit.AscendingSorts` | app/services/audit.py:77-79 | the ascending read is a sorted permutation of the rows |
| `Audit.LatestIsMaximal` | app/services/audit.py:47-54 | the descending read finds a row no other row of the case comes after |
| `Audit.AppendsKeepChains` | app/services/audit.py:47-93 | interleaved appends with increasing keys keep every case's chain valid, and reading it back gives exactly what was appended for the case |
| `Audit.RowsChainWithinCases` | app/services/audit.py:35-73 | over interleaved appends with increasing keys each row hashes what it was given and chains onto the newest earlier row of its own case, onto nothing if there is none or it has no case |
| `Audit.LateKeysBreakTheChain` | app/services/audit.py:47-54 | the condition on keys is exact: an append keeps the chain valid if and only if its key does not come before the case's latest |
| `Audit.LastHashFixesChain` | app/services/audit.py:21-32 | two valid chains with the same last hash are of one case and equal event by event |
| `Audit.TamperingShows` | app/services/audit.py:76-93 | against a valid log, rows keeping the last hash validate if and only if they hold the same events |
| `Audit.CuttingTheEndIsValid` | app/services/audit.py:76-93 | cutting events off the end leaves a valid chain |
| `Breaker.CircuitBreaker.IsOpen` | app/integrations/razorpay.py:30-38 | answers whether the breaker is open and resets it when the cooldown has lapsed |
| `Breaker.CircuitBreaker.RecordFailure` | app/integrations/razorpay.py:40-43 | counts the failure and opens at the threshold |
| `Breaker.OpenTellsHistory` | app/integrations/razorpay.py:30-47 | `is_open` is true if and only if at least threshold failures were recorded since the last reset and the newest is within the cooldown |
| `Sessions.RequestTells` | app/integrations/razorpay.py:64-88 | a request, answered or not, leaves the breaker where the signals it emits leave it (a read per attempt, then a success or a failure), and ends as the last of them tells |
| `Sessions.RunSession` | app/integrations/razorpay.py:64-88 | a session of any requests leaves a new breaker where all its signals leave it, and each request ended as its own signals tell |
| `Sessions.AnswerForgets` | app/integrations/razorpay.py:79-80 | after a request that was answered the breaker is as new |
| `Sessions.OpenAfterSession` | app/integrations/razorpay.py:30-47 | after any session `is_open` holds if and only if at least threshold failures came after the last answer or lapsed read and the newest is within the cooldown |
| `Breaker.Request` | app/integrations/razorpay.py:64-88 | the attempt loop: stops at an open breaker or an answer, records every failure |
| `Breaker.FailingSessionIsThrottled` | app/integrations/razorpay.py:64-88 | sequential requests against an upstream that never answers send at most threshold * (1 + floor(span / cooldown)) calls |
| `Breaker.LapseAllowsFullBurst` | app/integrations/razorpay.py:34-37 | after the cooldown a whole threshold of failing calls goes through before the breaker opens again |
| `Ingest.Database.UpsertCustomer` | app/services/ingest.py:67-102 | finds the customer by the provider's id or inserts one, raising if and only if the contact is stored and that id is missing or not stored |
| `Ingest.Database.IngestEvent` | app/services/ingest.py:140-222 | one delivery changes the store as specified or, raising, not at all; duplicates, failures and new cases are reported as such |
| `Clashes.RaisesWhen` | app/services/ingest.py:67-102 | a new readable payment event raises if and only if its contact is stored and its customer's id is missing or not stored, or it captures a case that can no longer be recovered |
| `Clashes.NoneClashesIff` | app/services/ingest.py:78-101 | over any sequence from the empty store, no delivery meets a customer clash if and only if no two deliveries that take effect bring new customers with one contact |
| `Clashes.SmoothHolds` | app/services/ingest.py:149-164 | then the ids spent, contacts and customers stored are exactly those of the deliveries that take effect |
| `Clashes.OwnCustomersAreSmooth` | app/services/ingest.py:78-83 | in particular when contacts always come with one customer id |
| `Clashes.AnonymousClashIsForGood` | app/db/models.py:84-86 | a payment event without customer id of a stored contact raises for ever, whatever else is delivered |
| `Clashes.AnonymousCaptureNeverHeals` | app/services/ingest.py:182-196 | a failing input: failure and capture of one payment, one contact, no customer id; the case is never healed, however often the capture is delivered |
| `Clashes.SecondPaymentGetsNoCase` | app/services/ingest.py:198-222 | a failing input: a second failed payment of one contact, under no id or another, gets no case |
| `Redelivery.SecondIsIdleIff` | app/services/ingest.py:149-164 | of two deliveries under one id the second changes nothing on any store if and only if the first surely commits, the second cannot be read, or it is refused wherever the first is: a capture of the same payment for a capture, the same contact under the same or no customer id for a contact |
| `Redelivery.RedeliveriesChangeNothingIff` | app/services/ingest.py:149-164 | a sequence leaves on every store what the first delivery of each id leaves if and only if that first delivery settles, in this sense, every later one under its id, and no delivery in between can store their customer under another contact |
| `Redelivery.ReplaysChangeNothing` | app/services/ingest.py:149-164 | in particular when equal ids carry equal deliveries and customer ids keep their contact |
| `Redelivery.ReplayOpensACase` | app/services/ingest.py:78-101 | a failing input: a failure refused for its contact opens a case when it is delivered again, after its customer was stored under another contact |
| `Redelivery.OtherContentUnderAnId` | app/services/ingest.py:152-164 | a failing input: after an unreadable first delivery, other content under its id is taken |
| `IngestLaws.CasesAreFailedPayments` | app/services/ingest.py:198-222 | where no customers clash, a payment has a case if and only if some verified readable payment.failed for it came after nothing but unreadable payment events under its event id |
| `IngestLaws.CasesComeFromFailures` | app/services/ingest.py:198-222 | whatever clashes, a payment with a case had a verified readable payment.failed |
| `IngestLaws.ForgeryTakesTheId` | app/services/ingest.py:156-171 | a failing input: an unsigned delivery that uses the id first is committed, and the genuine one is skipped |
| `IngestLaws.RejectionsAreCounted` | app/services/ingest.py:156-171 | where no customers clash, the rejections are exactly the unsigned deliveries that were the first to spend their id |
| `IngestLaws.EveryOrderOpensTheSameCases` | app/services/ingest.py:198-222 | every permutation of the deliveries opens cases for the same payments, if contacts always come with one customer id and failures with event ids of their own |
| `IngestLaws.CasesAreNumbered` | app/services/case_service.py:38-41 | case references number the cases 1..n, each once |
| `IngestLaws.PaymentsDoNotInterfere` | app/services/ingest.py:105-222 | a payment and its case end up, up to case_ref, as if only the payment's own deliveries had been ingested, if nothing else uses their event ids or their contact and customer differently |
| `IngestLaws.FailedThenCapturedHeals` | app/services/ingest.py:182-196 | whatever arrives in between, where no customers clash a case is self-healed if and only if some capture takes effect after a failure did, and then holds the amount of the first such capture |
| `OpenedCases.CasesAreAsOpened` | app/services/ingest.py:198-222 | where no customers clash, each case is a fresh row with the prior attempts and capture probability of its payment's first failure that takes effect, and that delivery's token flag, or its customer's as first stored where ground truth is silent; or that row healed |
| `OpenedCases.PaymentsAreMirrored` | app/services/ingest.py:105-137 | where no customers clash, a payment is mirrored if and only if some delivery about it takes effect, and the mirror is the last such delivery's entity, with status CAPTURED where it healed |
| `OpenedCases.FlagsHold` | app/services/ingest.py:67-102 | where no customers clash, a stored customer has the token flag it was first brought with |
| `IngestLaws.LateWebhooks` | app/services/ingest.py:133-136 | on a recovered case a later payment.failed resets only the payment mirror, a later capture only re-stamps diagnosis and strategy, and either changes nothing when its customer clashes |
| `World.TurnFollows` | app/db/session.py:40-45 | one event of a many-case world moves each case exactly as the event that case sees |
| `World.CasesEndRuns` | app/services/ingest.py:140-222 | in every world, each case is the end of a run of its own |
| `World.EveryCaseIsSound` | app/services/pipeline.py:250-403 | in every interleaving of webhooks, worker steps and human decisions over many cases, each case has only approved actions, one row per started action, a replayable trail and honest money |
| `BatchRuns.DriveIsARun` | app/services/pipeline.py:429-434 | the driving loop is a run, with exactly the worker steps taken |
| `BatchRuns.AdvanceIsARun` | app/services/pipeline.py:427-436 | the whole of `advance_case`, with its final close, is a run of the case's events |
| `BatchRuns.DrivenCaseIsBounded` | app/batch/run_eval.py:191-195 | a driven case keeps retry_count within max(prior, max_retries) and contacts within the cap, under any decision source |
| `BatchRuns.DrivenCaseRecoversAtOnce` | app/batch/run_eval.py:191-195 | a driven case an executor recovered has exactly one charge or link |
| `Batch.RunBatch` | app/batch/run_eval.py:191-195 | the loop over the cases, each with its own clock over one gateway, computes the batch, raising where a case does |
| `Batch.BudgetIsKept` | app/services/pipeline.py:100-107 | over a batch of any number of cases and any decision source, the merchant's charges never exceed max(initial use, simulation_budget) |
| `Concurrency.TwoWorkersOverspend` | app/worker.py:55-74 | two overlapping live worker transactions that each drive a fresh case of their own, with one charge left in the budget as committed, both commit a charge, and the merchant ends one over |
| `BatchResults.BatchCasesAreBounded` | app/batch/run_eval.py:191-195 | every fresh case of a finished batch keeps its retry and contact bounds and has one attempt behind an executor's recovery, under any decision source and config |
| `BatchResults.CaseEndsAtFateIff` | app/batch/run_eval.py:183-195 | in any finished batch under the table, whatever its other cases, a fresh failed case ends at its own closed form if and only if the budget at its turn had room for the closed form's charges |
| `BatchResults.BatchEndsAtFates` | app/batch/run_eval.py:183-195 | a batch under the table of fresh failed cases and cases already ended never raises, if the budget has room for the charges the closed forms bring at most; each fresh case ends at its own closed form and the others stay |
| `BatchResults.BatchDrawsOncePerPayment` | app/integrations/simulated_gateway.py:31-35 | from a new gateway a batch of cases not attempted before draws exactly once for each distinct payment attempted, under any decision source |
| `Scoring.Score` | app/batch/run_eval.py:241-304 | the counting loop's money and case totals are the number of cases by status and outcome and the sum of recovered amounts |
| `Scoring.TotalsAreHonest` | app/batch/run_eval.py:286-301 | on sound cases the recovered total is the sum over CAPTURE_CONFIRMED events and agent_recovered_cases counts exactly the outcome RECOVERED |
| `Scoring.BatchReportIsHonest` | app/batch/run_eval.py:183-304 | so every finished batch, whatever its cases went through before, reports exactly what the trails confirm |
| `ReportChecks.ChainsValid` | app/batch/run_eval.py:269-273 | the report's chain flag is true exactly when every case's chain validates |
| `ReportChecks.ReportedChainsAreValid` | app/batch/run_eval.py:269-273 | and it is, for any interleaving of appends with increasing keys |
| `ReportChecks.RepeatsAreViolations` | app/batch/run_eval.py:274-281 | the groups counted as violations are empty exactly when no key repeats |
| `ReportChecks.BatchReportsNoViolations` | app/batch/run_eval.py:274-281 | and they are, over all actions of all cases of every finished batch, under any decision source |

## Left out

- Spacing.ChargesAreSpaced: over runs of single steps it asks that charges be vouched for and stamped, because a driver that commits between steps can violate it; over transactions `Transactions.CommittedCasesAreBounded` asks nothing.
- Scoring.Score: the report's accuracies, per-scenario counts and action counts are not computed; the totals of money and cases are, and `ReportChecks` has the chain flag and the idempotency violations.
- FailingSessionIsThrottled: sequential requests; two requests in flight at once can each pass the breaker before either fails.
- BudgetIsKept: no case is in APPROVED when the batch starts.
- Policy decision rows, notification rows, risk scores and SLA deadlines; the POLICY_EVALUATED, NOTIFICATIONS_QUEUED and RISK_SCORED events stand for them.
- References on rows: rows are identified by position, and `Refs` states why the rendered references are distinct.
- Customer rows: contact, provider's id and saved-token flag only; the flag is copied to the case when it is opened, as a customer never changes. Names, tenure and value enter the risk score alone.
- Hashing and JSON: a digest is an injective structure. Keys of audit rows are given, strictly increasing where a lemma says so; the generator of time-ordered ids is not modelled.
- Confidence in hundredths and time in minutes: rounding of floating-point confidences and sub-minute times is not modelled.
- Parameters of a model answer other than delay_minutes, and a delay that is not an integer (the original raises in P13).
- A negative or non-integer prior_attempts, and malformed fields one by one: a payload that cannot be read raises as a whole.
- The live clock is read once per drive; minutes that pass while a drive runs are not modelled.
- Row locks and the isolation of workers that reach one case, and a crash between a gateway call and its commit: every event is atomic.
- HTTP routes, signature checks, the model call and its prompt, the HTTP client and its jittered sleeps: their results are parameters.
- Baselines, dataset generation, dashboards, scripts and the frontend: reporting only.
- Merchants: the batch's cases all belong to one merchant, as in the batch runner.
