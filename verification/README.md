# An event-sourced organism, verified

A Dafny model of the organism's kernel, its six components and their joint behaviour.

One FIFO **kernel** appends every published event to a log, schedules it, and hands it to the components' handlers in
the order the composition root wires them. Perception turns readings and research intents into observations; the World
Model turns those into beliefs weighted by learned sensor reliability; the Executive clusters beliefs into
opportunities, proposes plans, ranks them against two budgets and asks for research; the Governor decides on plans and
research spending under a constitution, budgets, an owner's word and learned vetoes; the Executor runs granted actions
in a sandbox with retries; Memory records outcomes, resolves predictions and runs three learning loops whose results
flow back to the World Model and the Governor.

Most of the results are about all of this at once: they hold over every run of the wired organism, by any interleaving of
deliveries, outside publications and configuration, with events dropped by shutdowns, processes that die between two
dispatches or in the middle of one, and successors that replay the log. Where a result does not survive such a loss, it is
proved for the runs that lose nothing; the exact condition on the log under which it holds after any number of deaths is
proved, and so is the exact condition on the queue under which the first crash or the first stop keeps it; and a run that
breaks it is exhibited.

## How it is laid out

- `Prelude`, `Ordering`, `Ranking`, `Rounding`: folds over sequences, Python's `sorted`, ranking, `round`.
- `Events`: ids, the event types, who publishes each, and the rank each has in the publication order.
- `SchedulerModel`, `KernelModel`, `Rules`, `GovernorModel`, `MemoryModel`, `ExecutiveModel`, `Deliberation`,
  `ExecutorModel`, `WorldModelModel`, `PerceptionModel`: what each handler does, as functions on values.
- `Scheduler`, `Persistence`, `Kernel`, `Governor`, `Memory`, `Executive`, `Executor`, `WorldModel`, `Perception`: the
  objects, with the fields the Python classes have, updated in place; each method is proved to do what the function does.
  The table below lists those with loops, and the ones that drive them; the straight-line handlers have no row.
- `KernelTheorems`, `GovernorTheorems`, `Verdicts`, `OwnerDecisions`, `Explanations`, `ExecutorTheorems`, `MemoryTheorems`,
  `Searches`, `Clusters`, `Portfolio`: runs of one component. Many of these are told from the events alone: a function of
  the events delivered says what must be pending, held or on record, and the component's stores are proved to say the same.
- `Organism`, `Runs`, `Processes`: the wiring; runs of the whole; and that whatever is called on the kernel is such a run.
- `Openings`, `Authority`, `Causality`, `Custody`, `Decisions`, `Identities` with `Reckoning` and `Novelty`, `Replicas`,
  `Evidence`, `Ranges`, `ExecutiveLife`: what every run keeps, whatever it loses.
- `Learning`, `Sandboxes`, `PlanLife` with `PlanLog` and `FirstOutcome`: what runs keep that lose nothing, and what losses
  make of it; `Scenarios`: runs that lose something.
- `Aggregation`: one batch of beliefs, drained. `Recovery`: snapshots and replay; `Restarts`: what is kept across restarts
  from snapshots.

## Runs and what they lose

A run is a list of moves (`Runs.Move`): something is published from outside (`Enter`), the head of the queue is dispatched
(`Next`), it is written off in shutdown (`Drop`), the process dies between two dispatches and a new one finds the log
(`Reboot`), it dies in the middle of one and the new one finds a beginning of what the dispatch published (`Tear`), the new
one replays an entry (`Hear`), a component is configured by a direct call (`Configure`). `Legal` says that each move is one
the public methods allow where it is made, and `Here` is where a run stands. `Loses(.., NoDrops)` means that no shutdown
drops anything; `Loses(.., NoTears)` that besides no process dies in the middle of a dispatch; `Loses(.., NoLoss)` that
besides every process that dies has nothing queued that it published or was given. In the table, "in every run" means any
run; "that loses nothing" means `NoLoss`. `Crash` extends a run by the death of its process between two dispatches and the
replay of its successor, `Halt` by `stop()`.

## Conventions

- Fresh ids are `Minted(tick, component, path)` where `tick` numbers the delivery that mints them, so distinct mints are
  distinct; ids from outside are `Given`. Clock readings and tool outcomes are arbitrary functions of the delivery.
- Sentences the components compose are `Phrase` values turned into text by an arbitrary `say`; number formatting,
  number parsing and the research request digest are arbitrary functions too (`Notation`).
- Numbers are reals; `round(x, 4)` and `round(x, 6)` are modelled exactly, ties to even.
- A handler that raises keeps the effects it had before raising and publishes nothing after. Where the raise is a lookup
  that "cannot" fail, that is proved over all runs: `Openings.MemoryNeverRaises`, `ExecutiveLife.ExecutiveNeverRaises`.

## Where the code and its documentation differ

- The kernel's class comment (`spawn/src/kernel/__init__.py:330-332`) says events queued before shutdown are preserved.
  The code dispatches nothing but lifecycle events once `stop()` has begun, so they stay in the log and reach no
  subscriber: `KernelTheorems.StopLosesTheQueue`, with the input in `StoppingLosesWhatWasJustPublished` and, on the
  organism, `Scenarios.StoppingMakesViewsDiffer`. What the process was handed and what its successor is handed agree exactly
  when nothing was queued: `KernelTheorems.ReplayAgreesAfterStopIffNothingWasQueued`.
- The comment on `replay()` (`spawn/src/kernel/__init__.py:434-442`) says that what a handler publishes again during replay
  is already in the log. It is not when the process died before the event was first dispatched: the event is then dispatched
  for the first time by the replay, and what it gives rise to is suppressed. `Scenarios.LearningCanFail` and
  `Scenarios.FirstOutcomeCanFail` are such runs, and `Learning.CrashKeepsLearningInStepIff` and
  `FirstOutcome.CrashKeepsFirstOutcomeRulingIff` say exactly when it does no harm, as `Learning.LearningIsInStepIff` and
  `FirstOutcome.FirstOutcomeRulesIff` do for any number of deaths. What is promised of sandbox executions
  survives it (`Sandboxes.SandboxesAreSettled`), unless the process died in the middle of a dispatch
  (`Sandboxes.SandboxesAreSettledIff`, `Scenarios.TornSandboxesCanFail`).
- The same comment says every historical event is dispatched exactly once. An event published before the first `start()` is
  dispatched then and again by the replay `start()` makes: `KernelTheorems.EarlyEventsAreDeliveredTwice`,
  `Scenarios.EarlyPublishMakesViewsDiffer`.
- `create_snapshot()` (`spawn/src/kernel/__init__.py:395-405`) stores the components as they are under the latest sequence
  number of the log, which is ahead of them while anything is queued: `KernelTheorems.SnapshotSkipsTheQueue`,
  `Scenarios.EarlySnapshotMakesViewsDiffer`.

- The comment on `ResolvedSituation` (`spawn/src/executive/__init__.py:205-214`) has situations resolved after a snapshot known
  again from the events replayed after it, and `spawn/docs/adr/0001-replay-time-id-nondeterminism.md:15-20` has replay differ
  from the original run in surrogate keys only. But the Executive's replay proposes each plan under a new id
  (`spawn/src/executive/__init__.py:804-841`), and the outcomes it replays are of the ids on the log, so it finds no plan of
  its own for them (`spawn/src/executive/__init__.py:752-758`) and resolves nothing. Exactly what is held resolved, in any
  run, is `Novelty.ResolvedIsTracked`; `Novelty.RestartForgets` is the consequence and `Scenarios.ResolvedCanBeForgotten`
  a run. While the process lives, what is promised holds: `Novelty.ResolvedIsNotPursuedAgain`.

## Model

| member | source | states |
|---|---|---|
| Persistence.FieldRoundTrip | spawn/src/kernel/__init__.py:38-65 | decoding an encoded field gives it back exactly when its value has the type declared for it, optional and nested types included |
| Persistence.DataclassRoundTrip | spawn/src/kernel/__init__.py:68-81 | a record decodes to what was encoded exactly when every field is well typed |
| Persistence.EventRoundTrip | spawn/src/kernel/__init__.py:84-90 | an event survives its line of the log exactly when its class is in the module's table and every field holds what its type hint says |
| Persistence.LogReopensIffStorable | spawn/src/kernel/__init__.py:117-128 | a log reopens as it was, entries and next number included, exactly when every event on it can be stored |
| Persistence.LogSurvivesRestarts | spawn/src/kernel/__init__.py:102-140 | after any appends of storable events and any restarts the log holds exactly those events, numbered 1 to n in order, and the next one gets n + 1 |
| Persistence.EventLog.LoadExisting | spawn/src/kernel/__init__.py:117-128 | the loading loop reads every line or raises, and continues the numbering of the last |
| Persistence.EventLog.ReadFrom | spawn/src/kernel/__init__.py:146-150 | reading from number k is exactly the suffix starting at entry k |
| SchedulerModel.AnyInterleavingMeetsSpecification | spawn/src/kernel/__init__.py:223-324 | after any interleaving of schedule, schedule_at, advance_time, cancel and run_next: every parked timer is strictly in the future and in heap order; every id is in exactly one of queue, heap, ran and cancelled; and everything queued or run was asked for and due |
| SchedulerModel.RunsAtMostOnceAndNeverAfterCancel | spawn/src/kernel/__init__.py:277-304 | no task runs twice and no cancelled task runs |
| SchedulerModel.ReleasedExactlyTheDue | spawn/src/kernel/__init__.py:260-275 | an advance readies exactly the timers due by then, and leaves parked exactly those due later |
| SchedulerModel.AdvanceReleasesDueTimers | spawn/src/kernel/__init__.py:260-275 | they join the back of the queue in (due time, id) order |
| SchedulerModel.AdvanceInTwoSteps | spawn/src/kernel/__init__.py:260-275 | advancing to a and then to b readies the same queue as advancing straight to b |
| SchedulerObject.Scheduler.Advance | spawn/src/kernel/__init__.py:260-275 | advance_time refuses to go backwards and otherwise readies the due timers in order |
| SchedulerObject.Scheduler.CancelTask | spawn/src/kernel/__init__.py:277-291 | cancel removes pending work, ready or parked, and says whether it found one |
| KernelObject.Kernel.Dispatch | spawn/src/kernel/__init__.py:528-531 | handlers run in order and what they publish is accepted in order; during replay it is ignored |
| KernelObject.Kernel.RedispatchAll | spawn/src/kernel/__init__.py:453-454 | the replay loop hands over every event of the tail, in order |
| KernelObject.Kernel.RunUntilIdle | spawn/src/kernel/__init__.py:521-526 | the drain loop ends, in the state the drain function describes |
| KernelObject.Kernel.Publish | spawn/src/kernel/__init__.py:475-501 | publish drains at once before the first start and for lifecycle events, and only queues otherwise |
| KernelObject.Kernel.Replay | spawn/src/kernel/__init__.py:431-458 | replay restores the snapshot and hands the rest of the log to the handlers once, in order, publishing nothing and leaving the log alone; it is refused after start or a second time |
| KernelObject.Kernel.Start | spawn/src/kernel/__init__.py:407-416 | start replays once, then announces starting and started |
| KernelObject.Kernel.Stop | spawn/src/kernel/__init__.py:418-425 | stop announces stopping and stopped around the drain |
| KernelModel.ProcessLowersMeasure | spawn/src/kernel/__init__.py:503-526 | each dispatch lowers (top rank queued, how many of that rank, distance to the first of them), when handlers publish only below the rank they react to |
| KernelModel.DrainEmpties | spawn/src/kernel/__init__.py:521-526 | a drain ends with nothing queued, unless it was stopped |
| KernelTheorems.RunsAreFaithful | spawn/src/kernel/__init__.py:395-531 | for every wiring with a tracked view, over any calls, crashes and restarts that publish only once started, lose nothing at shutdown and snapshot only when drained: the view is the fold of the delivered log, and a snapshot is sound for the position it is stored under |
| KernelTheorems.ReplayReproducesLiveState | spawn/src/kernel/__init__.py:431-473 | after any such run a drained kernel, a full replay of its log, and a replay of the tail after its snapshot agree on the tracked view; replay leaves the log unchanged |
| KernelTheorems.RunsKeep | spawn/src/kernel/__init__.py:395-531 | what every delivery and every restore of a capture keeps, subscribers keep whatever is called, lost, captured and restored, in any number of processes |
| KernelTheorems.LogsKeep | spawn/src/kernel/__init__.py:395-531 | and what the log keeps when anything reacts to one of its events, and when anything admitted is published, it keeps whatever is called, lost, captured and restored |
| KernelTheorems.StopLosesTheQueue | spawn/src/kernel/__init__.py:418-425 | stop() hands subscribers only its own two announcements; everything queued is written off, so nothing is lost exactly when nothing was queued |
| KernelTheorems.ReplayAgreesAfterStopIffNothingWasQueued | spawn/src/kernel/__init__.py:418-458 | for every wiring: a process that stops and its successor, which replays the log, are handed the same events exactly when nothing was queued at the stop |
| KernelTheorems.StoppingLosesWhatWasJustPublished | spawn/src/kernel/__init__.py:407-425 | the failing input, for every wiring: start, publish one event, stop; that event is on the log and was handed to nobody |
| KernelTheorems.EarlyEventsAreDeliveredTwice | spawn/src/kernel/__init__.py:407-458 | for every wiring: what is published before start() is handed over then and again by the replay start() makes, so a first start hands over its log's tail once exactly when nothing was published early |
| KernelTheorems.RunsAreCorrelated | spawn/src/kernel/__init__.py:475-526 | between calls an id is active exactly while something is queued, unstamped events inherit their stretch's id, and the terminal counter equals the terminal lifecycle events queued |
| KernelTheorems.StretchesAreTold | spawn/src/kernel/__init__.py:475-501 | unstamped events of one stretch share its first event's id; two stretches opened unstamped never share one |
| KernelTheorems.DispatchedOnceInLogOrder | spawn/src/kernel/__init__.py:475-531 | a process over any existing log and snapshot, once started: the replayed tail, then what is delivered and what is dropped, interleaved, are exactly the log up to its head, each event once and in order |
| KernelTheorems.PublishedIsLogged | spawn/src/kernel/__init__.py:475-501 | an event is logged next, keeping the correlation id it was published with, else taking the active one, else minting the first of its stretch |
| KernelTheorems.StartsAndStops | spawn/src/kernel/__init__.py:407-425 | a start leaves the kernel running and replayed, a stop leaves it stopped with its shutdown over, and doing either twice does nothing more |
| Rules.RuleRegistry.Judge | spawn/src/governor/__init__.py:153-165 | evaluating the declared rules in a loop yields the joined, sorted violations of all known rules, or raises when one is malformed |
| Rules.DeclarationOrderIsIrrelevant | spawn/src/governor/__init__.py:135-165 | permuting the rules changes neither the verdict nor the reason |
| Rules.PassesIffEveryRuleIsSatisfied | spawn/src/governor/__init__.py:153-165 | the verdict is the conjunction of all known rules |
| Rules.MoreRulesPassLess | spawn/src/governor/__init__.py:153-165 | adding a rule can only turn a pass into a fail |
| Rules.FoundRuleIsDeclared | spawn/src/governor/__init__.py:116-122 | the arguments found for a rule name are those of a declared rule of that name |
| Rules.RuleReads | spawn/src/governor/__init__.py:45-53 | a rule written as a name and arguments is read back as that name and those arguments |
| Rules.PlanPassesIff | spawn/src/governor/__init__.py:56-83 | under the default rules a plan passes exactly when it keeps every cap declared on its capital, on its attention, and on costs being non-negative |
| Rules.ResearchPassesIff | spawn/src/governor/__init__.py:86-113 | and a research request exactly when it keeps every cap declared on its depth, on its deliberation's searches, and on spending in the window |
| GovernorTheorems.PlanDecision | spawn/src/governor/__init__.py:785-841 | a plan is granted exactly when the constitution passes it, the active budget covers it and no anti-pattern vetoes it; the grant follows a passed policy and a sufficient budget announced for it; only a grant charges the budget |
| GovernorTheorems.VetoIffEnforceable | spawn/src/governor/__init__.py:931-964 | learned knowledge vetoes exactly when some anti-pattern held has reached the threshold |
| GovernorTheorems.BudgetsAreConserved | spawn/src/governor/__init__.py:1004-1027 | whatever is delivered after a funding, what is available is what was funded less the costs of budget-path grants, and stays non-negative if it was |
| GovernorTheorems.RollingWindowIsBounded | spawn/src/governor/__init__.py:843-907 | from any ledger that has kept it so far, under one constitution, non-negative costs and a clock that never runs backwards: for every instant t, approved research recorded in [t - window, t] sums to at most the limit, though the decision reads the clock before the record is stamped (what is announced is `Verdicts.AnnouncedSpendingIsBounded`) |
| GovernorTheorems.ApprovalRespectsLimit | spawn/src/governor/__init__.py:858-883 | when the rules pass a request, the window ending at the decision, this request included, is within the limit (that the request is then answered with an approval is `Verdicts.ResearchIsAnswered`) |
| Verdicts.ResearchIsAnswered | spawn/src/governor/__init__.py:843-929 | a request is answered by one event, an approval of its id at its cost exactly when a constitution with a research rule is in force and its rules pass the request, and recorded as it was answered |
| Verdicts.ResearchIsCapped | spawn/src/governor/__init__.py:843-883 | under the default rules, exactly when it keeps every cap declared on depth, on its deliberation's searches so far and this one, and on the approved spending in the rule's window and its own cost |
| Verdicts.ResearchLedgerIsAnnounced | spawn/src/governor/__init__.py:885-929 | over any events the research ledger holds exactly what was announced, in order: request, verdict, approved cost, instant |
| Verdicts.AnnouncedSpendingIsBounded | spawn/src/governor/__init__.py:843-907 | so the approvals announced with records stamped in the window before any instant cost at most the limit |
| Verdicts.ApprovalsLedgerIsAnnounced | spawn/src/governor/__init__.py:1004-1106 | over any events the approval log holds exactly the decisions announced, in order: plan, verdict, reason |
| OwnerDecisions.AmendmentsAreAdopted | spawn/src/governor/__init__.py:709-765 | over any events: an amendment is pending exactly when the last event about it proposed it, and the constitutions are those there were followed by each one approved while pending, so an approved amendment is in force and a rejected one never is |
| OwnerDecisions.EscalationsAreHeld | spawn/src/governor/__init__.py:1059-1089 | and an escalation is pending exactly when the last event about it created it |
| OwnerDecisions.ResolutionsAreAnswered | spawn/src/governor/__init__.py:1071-1106 | after any events, resolving a pending escalation publishes one decision: a grant of the escalated plan with the escalated actions exactly when the word is "approved", else a denial with the reason given; resolving any other publishes nothing |
| Explanations.EscalationIsExplained | spawn/src/governor/__init__.py:785-793 | without a constitution or a budget the plan goes to the owner, with that as the reason |
| Explanations.PolicyRefusalIsExplained | spawn/src/governor/__init__.py:795-807 | a plan against policy is refused with the rules' own reason, and no budget is looked at |
| Explanations.ShortfallIsExplained | spawn/src/governor/__init__.py:809-831 | a plan the budget does not cover is refused for the balances that fall short, after both were compared in public |
| Explanations.AllowedPlanIsExplained | spawn/src/governor/__init__.py:931-1027 | a plan allowed by both is weighed against all knowledge held, anti-patterns then playbooks, each by id, applied from a consensus of a half on; each weighing is announced and recorded; the ruling names the first anti-pattern applied, or every playbook applied |
| Explanations.KnowledgeIsTold | spawn/src/governor/__init__.py:767-783 | over any events the anti-patterns and playbooks held are those last told, as they were told |
| GovernorTheorems.AlwaysRebuildable | spawn/src/governor/__init__.py:563-590 | the pending amendments and escalations rebuilt from the append-only logs are those held, after any events |
| GovernorObject.Governor.OnPlanProposed | spawn/src/governor/__init__.py:785-841 | the handler escalates without a constitution or budget, denies on policy, checks the budget, then decides, with every event on the way |
| GovernorObject.Governor.ApplyKnowledge | spawn/src/governor/__init__.py:931-964 | every anti-pattern and playbook is weighed, in id order, recorded and announced; the first enforced anti-pattern is the veto, and the applied playbooks support |
| GovernorObject.Governor.ApplyAntiPatterns | spawn/src/governor/__init__.py:941-952 | the anti-patterns are weighed in id order, each recorded and announced, and the first enforced one is the veto |
| GovernorObject.Governor.RestoreAmendments | spawn/src/governor/__init__.py:563-578 | refills the log and rebuilds what is pending from each amendment's latest record |
| GovernorObject.Governor.RestoreEscalations | spawn/src/governor/__init__.py:580-590 | refills the log and rebuilds what is pending from each escalation's latest record |
| MemoryObject.MemoryLedger.Rescore | spawn/src/memory/__init__.py:819-837 | each sensor is scored over exactly the resolutions it contributed to |
| MemoryObject.MemoryLedger.RescoreOne | spawn/src/memory/__init__.py:819-837 | one sensor's score counts exactly the resolutions of plans it stands behind |
| MemoryObject.MemoryLedger.OnOpportunityIdentified | spawn/src/memory/__init__.py:725-733 | an opportunity is attributed to the sensors behind its beliefs, in belief order |
| MemoryObject.MemoryLedger.RestorePredictions | spawn/src/memory/__init__.py:649-657 | refills the ledger and rebuilds what is pending from each plan's latest record |
| Reckoning.ResolutionsAreTrue | spawn/src/memory/__init__.py:764-790 | in every run: a resolution follows the outcome it names, is of its plan and of a prediction as recorded, and has the predicted value as actual and no error if the outcome succeeded, nothing as actual and the whole value as error if it failed |
| Reckoning.ReliabilityIsShareOfSuccesses | spawn/src/memory/__init__.py:465-477 | in every run: a resolution rescores the sensors behind its plan, each to the share, among the resolutions of plans it stands behind, of those whose recorded outcome succeeded, or that predicted nothing |
| Reckoning.ErrorIsMeanLoss | spawn/src/memory/__init__.py:293-298 | in every run: the mean error is minus what was predicted of plans that failed, over the resolutions there are; below zero exactly when a plan of positive value failed, never above |
| Reckoning.KnowledgeIsClassified | spawn/src/memory/__init__.py:404-410 | and knowledge distilled of it is an anti-pattern exactly when that error is below zero |
| MemoryTheorems.LessonsAreCalibrated | spawn/src/memory/__init__.py:871-908 | each lesson is a heuristic held at n/(n + 5) for n resolutions, at most 0.99, and every third starts a revision with its error |
| MemoryTheorems.ConsensusIsMean | spawn/src/memory/__init__.py:391-396 | knowledge is held with the mean of the heuristics' confidences |
| MemoryTheorems.LedgersAreTold | spawn/src/memory/__init__.py:962-1028 | over any events the outcome, action-cost, research and reliability ledgers hold what was delivered, in order, a unit of each budget for a success and nothing for a failure |
| MemoryTheorems.AttributionIsTold | spawn/src/memory/__init__.py:719-751 | over any events: the sensors behind a plan are those behind its opportunity when it was proposed, and those are the provenances of its beliefs when it was identified |
| ExecutiveObject.Executive.RequestResearchBatch | spawn/src/executive/__init__.py:954-976 | candidates ask in ranked order, and each gets back its own request id at its own position |
| Ranking.RankingRanks | spawn/src/executive/__init__.py:965-967 | ranking rearranges: each stands before all worth less, and before those worth as much but listed later |
| ExecutiveObject.Executive.Deliberate | spawn/src/executive/__init__.py:1051-1164 | the pass returns the winner, ranking, abandoned plans and allocations, publishes each step, and leaves nothing pending |
| ExecutiveObject.Executive.BuildCandidates | spawn/src/executive/__init__.py:1068-1073 | every pending plan is judged, in order, and becomes a candidate with its demands |
| ExecutiveObject.Executive.AllocateBudgets | spawn/src/executive/__init__.py:1084-1142 | two running budgets are handed out in ranked order, and the first candidate funded wins |
| ExecutiveObject.Executive.Announce | spawn/src/executive/__init__.py:1144-1156 | the winner is committed to and every other plan abandoned, with its reason, in ranked order |
| Deliberation.WinnerIsOptimal | spawn/src/executive/__init__.py:1051-1164 | the winner is the highest-estimate candidate, oldest on ties, whose own demand fits both full budgets; there is none exactly when no candidate fits |
| Deliberation.AllocationIsMaximal | spawn/src/executive/__init__.py:1084-1142 | allocations stay within both budgets, and no unfunded candidate fits what remains at the end |
| Deliberation.WinnerAndAbandonedPartition | spawn/src/executive/__init__.py:1144-1164 | winner and abandoned together are exactly the pending plans, each once |
| Deliberation.ProceedingsTellTheResult | spawn/src/executive/__init__.py:1230-1268 | the published events select exactly the winner and abandon exactly the abandoned, in ranked order |
| Deliberation.CandidateIsEstimated | spawn/src/executive/__init__.py:1166-1221 | a candidate is worth the value of its opportunity times the judgement of its plan, and demands a twentieth of that in attention and a tenth in capital, to four places |
| Deliberation.BetterJudgedIsWorthMore | spawn/src/executive/__init__.py:1179-1221 | a better judgement never lowers an estimate |
| Deliberation.FatesAreExplained | spawn/src/executive/__init__.py:1084-1156 | each candidate in ranked order gets its whole demand if what is left covers it and nothing otherwise, and its fate is announced with what was short for it, or who outranked it |
| ExecutiveLife.DeliberationIsAlwaysReady | spawn/src/executive/__init__.py:1051-1177 | in every run, across restarts, a deliberation finds every pending plan and its opportunity, once each, with non-negative demands |
| ExecutiveLife.ExecutiveNeverRaises | spawn/src/executive/__init__.py:634-741 | in every run, live or replaying, the confidences, started passes and group ids its handlers look up are there |
| ExecutiveLife.SoftStopIsForever | spawn/src/executive/__init__.py:73-82 | once a window found too little, no search is ever requested again, whatever is delivered or asked for afterwards |
| ExecutiveLife.SoftStopMeansNothingNew | spawn/src/executive/__init__.py:856-875 | from the start of a window to the stimulus that brings its fifth search, over any deliveries and requests, searching stops exactly when not one accepted pass was recorded in between |
| Searches.SearchIsRequested | spawn/src/executive/__init__.py:856-952 | a search is asked for under the digest of what is asked, unless the last full window of five found something new less than one time in five |
| Searches.ApprovedSearchIsIntended | spawn/src/executive/__init__.py:978-1013 | after any events, an approval of a search still unanswered lets it out as it was asked for, at the approved cost; anything else lets nothing out |
| Searches.IntentIsObserved | spawn/src/perception/__init__.py:186-214 | an intent registers its own sensor, which reports one observation |
| Searches.ColdStartIsOnce | spawn/src/executive/__init__.py:1015-1049 | the first start with nothing believed asks for three searches, the most urgent first; no later start asks |
| Clusters.ClustersAreTold | spawn/src/executive/__init__.py:589-632 | over any events: a belief is in the cluster of the cascade it was last touched in and of its claim, in no other, with the confidence it was last given |
| Novelty.PassIsDecided | spawn/src/executive/__init__.py:404-422 | a pass over its cluster in belief-id order is accepted exactly when some belief is left, the cluster is not the one last accepted, and the situation is not resolved; an acceptance is remembered at once |
| Novelty.ResolvedIsTracked | spawn/src/executive/__init__.py:743-758 | in every run: what is held resolved is exactly the situations of plans proposed in the running process's life and followed in it by an outcome; replay resolves nothing |
| Novelty.ResolvedOnlyGrows | spawn/src/executive/__init__.py:743-758 | within the life of a process nothing resolved is forgotten |
| Novelty.ResolvedIsNotPursuedAgain | spawn/src/executive/__init__.py:634-758 | in every run: once a process has dispatched an outcome of a plan it proposed for a situation, no pass over that situation is accepted as long as it lives |
| Novelty.RestartForgets | spawn/src/executive/__init__.py:743-758 | a process that has replayed the whole log of another holds nothing resolved |
| Scenarios.ResolvedCanBeForgotten | spawn/src/executive/__init__.py:205-218 | the failing input: the plan of a situation has an outcome, the process dies, and its successor does not know the situation as resolved |
| Portfolio.PortfolioIsAnnounced | spawn/src/executive/__init__.py:760-841 | over any events the opportunities and plans kept are those announced, as announced, and every plan proposed waits for deliberation, in order |
| Portfolio.PursuitIsRecorded | spawn/src/executive/__init__.py:700-741 | an accepted pass leaves its group and its three decisions on record |
| Aggregation.BeliefsBecomeOneOpportunity | spawn/src/executive/__init__.py:604-741 | beliefs published together under one correlation id and claim, of a situation new to the Executive and not resolved, drain to exactly one opportunity over their sorted ids at their mean confidence to six places, with every sibling pass on record as a duplicate (a resolved situation is `Novelty.ResolvedIsNotPursuedAgain`) |
| Aggregation.OrderDoesNotMatter | spawn/src/executive/__init__.py:388-422 | and that opportunity does not depend on the order they were published in |
| ExecutorObject.Executor.RunAttempts | spawn/src/executor/__init__.py:523-579 | the retry loop ends, having published each attempt, each retry and one result, and recorded the result |
| ExecutorObject.Executor.OnApprovalGranted | spawn/src/executor/__init__.py:475-477 | every ordered action is executed in order |
| ExecutorObject.Executor.RestoreSandboxExecutions | spawn/src/executor/__init__.py:373-383 | refills the log and rebuilds what is pending from each execution's latest record |
| ExecutorObject.Executor.RestoreRetries | spawn/src/executor/__init__.py:254-260 | refills the log and rebuilds each action's latest started attempt |
| ExecutorTheorems.RetryRounds | spawn/src/executor/__init__.py:523-579 | for any tool behaviour at most max(1, max_attempts) sandbox runs, each but the last failing retryably and followed by exactly the scheduled, started and attempted events of the next |
| ExecutorTheorems.RetryEnd | spawn/src/executor/__init__.py:523-579 | then one success or failure, and an exhaustion of exactly max_attempts attempts just when the last failure is retryable and more than one attempt was allowed |
| ExecutorTheorems.SandboxedIffEquipped | spawn/src/executor/__init__.py:505-521 | an action enters the sandbox exactly when its tool and any credential it needs are in place |
| ExecutorTheorems.TypeReads | spawn/src/executor/__init__.py:326-329 | an ordered action names its type before the first colon |
| ExecutorTheorems.ActionIsExecuted | spawn/src/executor/__init__.py:479-579 | an equipped action goes through the retry loop with the attempts its policy allows, and its log entry is how the last attempt ended; any other fails at once, for the tool or the credential it lacks, or for its revocation |
| ExecutorTheorems.GrantIsCarriedOut | spawn/src/executor/__init__.py:475-477 | a grant has every action of its plan approved once, in order and under its number, and concluded once, in order; the action log holds what was announced |
| ExecutorTheorems.RunsIffCredentialed | spawn/src/executor/__init__.py:441-521 | after any events a tool of a type is run exactly when a grant orders an action of the type, the tool is registered, and the credential the events leave is active, or there is none and none is required |
| ExecutorTheorems.RevokedNeverRuns | spawn/src/executor/__init__.py:463-521 | after a revocation no tool of the type is run until a credential is issued for it again |
| ExecutorTheorems.LogsAreTold | spawn/src/executor/__init__.py:624-683 | over any events the retry and execution logs, and what is open, are what the events tell |
| ExecutorTheorems.StepRebuildable | spawn/src/executor/__init__.py:254-383 | the pending executions and attempts rebuilt from the logs are those held, whatever is delivered |
| Sandboxes.SandboxesAreSettled | spawn/src/executor/__init__.py:659-683 | in every run that drops nothing in shutdown, however often it crashed between dispatches: whenever drained, no execution is pending and each on record was started once and then completed once |
| Sandboxes.SandboxesAreSettledIff | spawn/src/executor/__init__.py:581-683 | if it also crashed in the middle of dispatches, exactly when these left no execution on the log started and not completed |
| Sandboxes.HaltKeepsSandboxesSettledIff | spawn/src/executor/__init__.py:659-683 | stopped with events queued, it stays so exactly when no completion was queued whose start had been dispatched |
| Scenarios.SandboxesCanFail | spawn/src/executor/__init__.py:659-683 | the failing input: stopped between an execution's two records, the execution stays pending |
| Scenarios.TornSandboxesCanFail | spawn/src/executor/__init__.py:581-622 | and so it does after a process that died while carrying out the action, between logging the one and the other |
| WorldModelObject.WorldModel.ApplyDecay | spawn/src/world_model/__init__.py:184-216 | each listed belief decays by its rate times the time since its update, and a change is announced |
| WorldModelObject.DecayOnlyLowers | spawn/src/world_model/__init__.py:184-216 | decay never raises a confidence, never leaves the unit interval and touches nothing else |
| Evidence.EvidenceIsWeighed | spawn/src/world_model/__init__.py:130-182 | in every run: an observation creates the belief about its sensor at its confidence times the latest reliability Memory recorded for the sensor, or moves the one held to the mean of what it was and that product |
| Evidence.DecayFades | spawn/src/world_model/__init__.py:184-216 | decay takes from each belief listed its rate times the time since it was touched, down to nothing, announces exactly those that changed, and leaves the rest alone |
| Evidence.FadingComposes | spawn/src/world_model/__init__.py:184-216 | fading twice fades as far as fading once, however the time is divided |
| Organism.EachPublishesItsOwn | spawn/main.py:163-200 | every component publishes only its own events, all of lower rank than the one it reacts to |
| Organism.EveryDrainTerminates | spawn/src/kernel/__init__.py:521-526 | on the fully wired organism run_until_idle always terminates, whatever is queued and however much each handler publishes |
| Processes.CallsAreRuns | spawn/src/kernel/__init__.py:407-531 | whatever is published, processed, drained, started, stopped and crashed on the kernel with the organism wired to it, there is a run that stands where it stands, and that drops nothing if no stop did |
| Runs.RunsKeep | spawn/src/kernel/__init__.py:407-531 | what a run's first state has, and every move that loses no more than allowed keeps, holds in every run that loses no more |
| FirstOutcome.FirstOutcomeWins | spawn/src/memory/__init__.py:735-837 | in every run that loses nothing, whenever drained, every plan granted with an action has prediction history exactly [pending, resolved], resolved by the outcome recorded first for it, which is of the action its grant orders first; every other plan proposed has its prediction pending and nothing done (what the resolution says is `Reckoning.ResolutionsAreTrue`) |
| FirstOutcome.FirstOutcomeRulesIff | spawn/src/memory/__init__.py:735-837 | as long as shutdown drops nothing, however often the process died, between dispatches or in the middle of one: whenever drained, this holds of a plan exactly when the log predicts it if it proposes it, and resolves its prediction if it grants it something to do |
| FirstOutcome.FirstIsAlwaysOrdered | spawn/src/memory/__init__.py:735-790 | in all these runs the outcome recorded first for a plan is of the action that a grant of the plan, made with authority, orders first |
| FirstOutcome.CrashKeepsFirstOutcomeRulingIff | spawn/src/kernel/__init__.py:431-458 | if the process first dies with events queued, this holds of a plan after the replay exactly when its proposal was not queued and a log that grants it something to do also resolves its prediction |
| FirstOutcome.HaltKeepsFirstOutcomeRulingIff | spawn/src/kernel/__init__.py:418-425 | if it is first stopped with events queued, exactly when neither the plan's proposal, nor its prediction, nor the resolution was queued and a plan granted something to do had been resolved |
| Scenarios.FirstOutcomeCanFail | spawn/src/memory/__init__.py:735-837 | the failing input: an observation becomes a plan, and the process dies or is stopped with the proposal queued |
| Learning.LearningIsInStep | spawn/src/memory/__init__.py:792-960 | in every run that loses nothing, whenever drained: resolved predictions = started iterations = completed iterations = heuristics; consolidations = long-term entries = heuristics div 3; and each iteration and revision was started once and then completed once |
| Learning.LearningIsInStepIff | spawn/src/memory/__init__.py:792-960 | as long as shutdown drops nothing, however often the process died, between dispatches or in the middle of one: whenever drained, this holds exactly when the log has as many started and completed iterations as resolutions, and a third as many started and completed revisions |
| Learning.CrashKeepsLearningInStepIff | spawn/src/kernel/__init__.py:431-458 | if the process first dies with events queued, this holds after the replay exactly when no resolution, started iteration or started revision was queued and the completed iterations queued brought no third heuristic |
| Learning.HaltKeepsLearningInStepIff | spawn/src/kernel/__init__.py:418-425 | if it is first stopped with events queued, exactly when none of them was of the learning loops |
| Scenarios.LearningCanFail | spawn/src/memory/__init__.py:792-960 | the failing input: an owner approves, an action fails, and the process dies with the resolution queued |
| Openings.ClosingFindsItsOpening | spawn/src/memory/__init__.py:764-960 | in every run, whatever it lost, what a completed iteration or revision, a resolution or a completed pass closes has been recorded as opened when it is dispatched, live or replayed |
| Openings.MemoryNeverRaises | spawn/src/memory/__init__.py:792-960 | so no look-up of Memory's handlers fails in any run |
| Authority.GrantsAreAuthorised | spawn/src/governor/__init__.py:785-1106 | in every run, across shutdowns, crashes and restarts: every grant on the log comes after that plan passed the policy and then found a sufficient budget, or after its owner approved its escalation |
| Custody.ActionsAreAuthorised | spawn/src/executor/__init__.py:475-579 | and whatever the log says of an action, its approval, its result or its recorded outcome: before that the action was approved for its plan, as the ordered action whose number its id holds, by a grant of that plan with such authority |
| Causality.EntriesHaveCauses | spawn/main.py:163-200 | in every run: every entry of the log not published from outside has an earlier entry that brought it about and that it agrees with: plans with accepted passes (a hundred times the confidence, one unit, a tenth), decisions with proposals, results with approvals, outcomes and costs with results, predictions with plans, resolutions with outcomes, knowledge with errors |
| Decisions.OneDecisionPerPlan | spawn/src/governor/__init__.py:785-1106 | in every run, across shutdowns, crashes and restarts: the log holds at most one escalation of any plan and at most one decision on it, and none while a live process has its proposal or escalation queued, or holds it open |
| Replicas.ViewsAgree | spawn/src/world_model/__init__.py:85-128 | at every dispatch boundary of every run, live or replaying, the World Model's reliabilities are Memory's latest, and the Governor's knowledge is Memory's long-term knowledge split by kind |
| Ranges.NumbersStayInRange | spawn/src/world_model/__init__.py:130-182 | in every run: every reliability and confidence is in [0, 1], every heuristic and consensus in [0, 0.99], every opportunity value in [0, 100], every proposed capital cost in [0, 10] |
| Ranges.CostRuleNeverRejects | spawn/src/governor/__init__.py:56-64 | so non_negative_costs is satisfied by every plan on the log |
| Restarts.NumbersStayInRange | spawn/src/world_model/__init__.py:130-182 | the same ranges over any calls on the kernel, snapshots at any moment and restarts from them included, as long as what is published from outside is in range |
| Restarts.ViewsAgree | spawn/src/world_model/__init__.py:85-128 | the views agree in every process of every legal list of calls, restored from a snapshot or not, as long as only Memory publishes Memory's events |
| Restarts.LogsStayJustified | spawn/src/executor/__init__.py:475-579 | over any calls and restarts from any snapshot: every entry of the log not published from outside has an earlier entry that brought it about and that it agrees with, as long as what is published from outside is what components publish from outside |
| Recovery.RestoreIsFaithful | spawn/src/kernel/__init__.py:395-473 | in every run that has lost nothing, whenever drained, what is restored from a snapshot has the recovered view of what was captured |
| Recovery.RestoringIsFaithfulIff | spawn/src/kernel/__init__.py:395-473 | in general exactly when the pending predictions are those the ledger rebuilds |
| Recovery.ReplayReproducesOrganism | spawn/src/kernel/__init__.py:431-473 | the wired organism with its capture and restore functions: after any calls, with crashes between any two of them, that publish only once started and nothing dishonest of a sandbox, drop nothing in shutdown, and snapshot only when drained with the pending predictions the ledger rebuilds, then drained: live, full replay and snapshot with tail have the same recovered view, and replay leaves the log alone |
| Recovery.RecoveriesAgree | spawn/src/kernel/__init__.py:431-473 | from a snapshot taken drained with nothing lost, whatever was lost later: the kernel's replay of the tail and of the whole log recover the same view, with whatever ids, clocks and tools they draw |
| Recovery.SnapshotPlusTailIsLive | spawn/src/kernel/__init__.py:395-473 | and it is the view of the process that was lost, if it had dropped nothing and had drained |
| Scenarios.StoppingMakesViewsDiffer | spawn/src/kernel/__init__.py:418-425 | the organism stopped with a proposed amendment queued has no record of it, and its successor has one |
| Scenarios.EarlySnapshotMakesViewsDiffer | spawn/src/kernel/__init__.py:395-405 | restored from a snapshot taken with it queued, the organism has no record of it either, and a full replay has one |
| Scenarios.EarlyPublishMakesViewsDiffer | spawn/src/kernel/__init__.py:407-458 | published before start(), it is on record twice, and once after a later replay |
| Scenarios.OrganismLosesWhatWasJustPublished | spawn/src/kernel/__init__.py:407-425 | and any event published between start() and stop() is on the log and lost to the organism |

## Left out

- Files, JSON text, fsync and atomic replacement: a file is a sequence of JSON values; UUID, datetime and enum texts are assumed to be read back as they were written; a field missing from a line is not filled in from a default.
- KernelObject.Kernel: subscribers are one handler of the whole state, which is a function: the component objects (`Governor`, `MemoryLedger` and the others) are each proved to do what their part of that function does, and are not themselves subscribed to the `Kernel` object. Registering and unregistering subscribers at run time, and callbacks put directly on the kernel's scheduler, are not modelled.
- KernelObject.Kernel.Dispatch: a subscriber that raises out of a drain is not modelled; handlers that would raise keep the effects they had and the drain goes on, which the lemmas about never raising show does not arise for Memory and the Executive.
- Rules.RuleRegistry.Judge: a rule whose arguments cannot be parsed makes the Governor's handler raise; the model keeps the effects before that point.
- GovernorTheorems.BudgetsAreConserved: starts at a funding, and a second funding starts it again.
- GovernorTheorems.RollingWindowIsBounded: one constitution throughout, non-negative costs and a clock that does not run backwards. With a negative limit nothing is ever approved.
- FirstOutcome.FirstOutcomeWins: rests on plan ids being minted fresh, which is how the Executive makes them.
- Recovery.SnapshotPlusTailIsLive: the recovered view (`Recovery.View`) is the pending amendments, escalations, predictions and sandbox executions with the logs they are rebuilt from, the retry log and attempts, the credentials, the learned knowledge, the learning and reliability ledgers, the research spending Memory records, and the attribution of sensors. It leaves out what is recorded under ids minted anew in replay (outcomes, episodes, financial entries, approvals, knowledge applications, the action log, and the Executive's state, `spawn/docs/adr/0001-replay-time-id-nondeterminism.md`); what is decided by the clock (the Governor's research ledger); what is set by direct calls (constitutions adopted, budgets, registered tools); and the World Model's beliefs, which decay outside dispatch.
- Runs.RunsKeep: a new process of a run replays the whole log; restarts from a snapshot are covered for the recovered view (`Recovery`), and for numbers, views and the order of what the log says of actions (`Restarts`). A process that dies while a direct call is publishing, rather than in a dispatch, is a run that ends after what was published.
- KernelTheorems.ReplayReproducesLiveState: crashes come between two calls or two dispatches; a dispatch cut short is a move of the organism's runs only (`Runs.Move`).
- Learning.LearningIsInStepIff: covers any number of deaths, with nothing dropped in shutdown; of runs with stops that drop events, only the first stop of a run that had lost nothing is classified (`Learning.HaltKeepsLearningInStepIff`). So too for `FirstOutcome.FirstOutcomeRulesIff`, and for `Sandboxes.SandboxesAreSettledIff` but for deaths between dispatches before the stop.
- Novelty.ResolvedIsTracked: a new process replays the whole log; one restored from a snapshot also holds what the snapshot held resolved, and knows under their own ids the plans the snapshot held.
- Novelty.PassIsDecided: for a cluster whose beliefs all have a confidence, which `ExecutiveLife.ExecutiveNeverRaises` shows they have in every run.
- Reckoning.ErrorIsMeanLoss: counts the resolutions on Memory's ledger; that these are of the resolutions on the log, each with its error, is what `Reckoning.RunsReckon` keeps, and how many there are is `Learning`'s.
- Searches.ApprovedSearchIsIntended: between two starts of a process, since a cold start may ask for the same search again.
- Causality.EntriesHaveCauses: a grant or denial that settles an escalation is traced to an owner's word; that the word was about the same plan is `Authority.GrantsAreAuthorised`.
- Restarts.ViewsAgree: for snapshots taken drained, as `Recovery.LegalCall` asks; what a snapshot taken over queued events loses is `KernelTheorems.SnapshotSkipsTheQueue`.
- ExecutiveObject.Executive.Deliberate: the inference port's own two events per candidate are not published by the model, and the allocation and shortfall dictionaries keyed by plan id are read by position, which DeliberationIsAlwaysReady shows is the same since pending ids are distinct. Calling it before an inference port is attached is not modelled.
- WorldModelObject.WorldModel.ApplyDecay: the order in which the store lists beliefs is an argument, and so is the instant of decay.
- Decision, approval and record ids that nothing looks up, audit timestamps and rationale texts are not kept.
- Float rounding error: arithmetic is exact.
- Inference providers, tool bodies, sensor adapters, raw readings and the command line: outside inputs only.
- GoalStore and plain append-and-read stores: only easy members.
- Governor amendments: versions are carried but not claimed to be distinct, since two proposals made together share one.
