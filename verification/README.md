# Night Voyager: a verified model of its durable authority

Night Voyager keeps a student's study-abroad case in one PostgreSQL database. The rules live in
database functions and triggers, which its migrations 0001 to 0005 install. This project models
those functions, as of migration 0005, and proves what they keep in every state that any run of
calls can reach. Two scanners in Python are modelled beside them.

| Files | What they model |
|---|---|
| `Sql`, `Idempotency` | shared vocabulary; idempotency records and their bijection with the rows they stand for |
| `TaskLog`, `TaskCell`, `TaskQueue`, `TaskInvariants` | the lease protocol of agent tasks: the event grammar, one task's rows in four tables, all tasks, what every function keeps |
| `PlanningOutput`, `OutputLayout`, `Planning`, `PlanningInvariants`, `PlanningHandoff`, `PlanningDecision`, `PlanningTheorems` | cases, revisions, source packs, evidence, planning runs and their rows, reviews, briefs, decisions, timelines |
| `Promotion`, `PromotionTheorems`, `LedgerInvariants` | import and verification of research candidates, and the pack version that an approval creates |
| `PlanningStore`, `TaskStore`, `LedgerStore` | the same functions as transactions that change tables in place, step by step, proved equal to their specifications |
| `Runs`, `RunSteps`, `RunHistory` | all tables together: a run is a sequence of moments, each a wait, a call, its outcome and the tables it left; what every moment keeps, and what stays in every later state |
| `RunTheorems`, `RunFairness`, `RunFacts`, `RunReplies`, `RunCases`, `RunAgreement`, `RunWitness` | theorems about whole runs: fencing, logs, fairness, exactly-once effects, repeated replies, lasting results, cases that get stuck, executions that keep step with their tasks; and concrete runs |
| `SplitStatements`, `BoundedPng` | the SQL statement splitter and the PNG chunk walk |

A function of the source appears twice: as a function from tables to new tables or an error, about
which the lemmas speak, and as a method of a class that reads and changes the tables in the
source's order. The method's `ensures` ties the two together; an error leaves every table as it
was. `Runs.Follows` says when a moment can follow a state. What a function reads as an aggregate (a
maximum) or picks among equals (the first due row, any one cost row) is an argument of the call,
and `Runs.Chosen` ties it to the tables.

## Where the code keeps less than it promises

Each of these is proved about the code as it is, with the exact condition.

- **The claim queue can be blocked for good.** A claim casts the age of the execution it closes to
  a 32-bit number of milliseconds. When the lease that it takes over is older than 2^31 - 1
  milliseconds (about 25 days), the claim raises, rolls back, and the next one meets the same row.
  Claims serve a waiting task if and only if no row ahead of it is overdue now
  (`RunFairness.ClaimsServeExactly`). An overdue row never changes again, and what waits strictly
  behind it is never leased (`RunFairness.BlockedForever`, `RunFairness.StarvesForever`).
  `RunFairness.AbandonedLeaseBlocks` is how it comes about, `RunWitness.WaitingCanBeForever` a
  concrete run that ends there.
- **A NULL generation passes the fence.** A comparison with NULL refuses nothing, so the worker who
  holds a lease can start, fail and finalize without naming a generation. The task moves and its
  execution stays behind. Everything else that the theorems about runs say holds for such calls too:
  fencing of named generations, one finalize, bounded changes, all planning and candidate tables.
  Only the execution rows come apart, and exactly then: the four tables of all tasks agree after a
  call if and only if it raised or named its generation (`RunAgreement.MomentAgreesExactly`;
  `RunWitness.NullGenerationTearsTables` is a concrete run).
- **A NULL version or decision is waved through.** A cancel without an expected version cancels
  whatever version there is (`TaskInvariants.CancelExactly`, `RunWitness.NullVersionCancels`), and a
  verification with a NULL decision promotes as an approval does
  (`LedgerInvariants.NullVerdictApproves`, `RunWitness.NullDecisionPromotes`).
- **A case under review can get stuck.** No review of it is possible, not even a rejection, when
  its run was superseded by a result of another case, when a revision was published meanwhile, when
  its revision names no intake, or when its pack has no entry. `RunCases.ReviewableExactly` is the
  exact condition (`RunCases.ApprovableExactly` for approvals), `RunCases.StuckForever` that no call
  ever repairs it, and `RunWitness.CasesGetStuck` gives a run for each of the four ways.
- **A case in family review can be parked.** A revision that is published while the family decides
  leaves its brief on an older one, and no decision ever succeeds again (`RunCases.PublishingParks`,
  `RunCases.ParkedForever`, `RunWitness.CasesGetParked`). `RunCases.DecidableExactly` is the exact
  condition under which a decision is possible, and a case in family review that misses it, for
  this or another reason, misses it for ever (`RunCases.UndecidableForever`).
- **The budget test lets missing facts pass.** A run without an Australian cost row, or a revision
  without a ceiling, accepts any interval on that side. Every decision that succeeds is supported by
  both facts if and only if both are there (`RunCases.BudgetNeedsFacts`);
  `RunWitness.UnsupportedDecision` is a concrete decision without them.
- **A promotion copies what the baseline has.** Five claims are demanded in the call, but a claim
  that the baseline lacks is silently left out: the new version has a copied claim if and only if
  the baseline has it (`PromotionTheorems.PromotionPreservesPack`). In
  `RunWitness.NullDecisionPromotes` the baseline has none.
- **JSON null passes the status tests** of an imported item. The items of an accepted array are
  cited and say whether they were verified if and only if no status is null
  (`LedgerInvariants.VettedExactly`); nulling statuses never makes an import fail
  (`LedgerInvariants.NullStatusesAccepted`), and `RunWitness.UncitedCandidate` is a concrete import.
- **The splitter needs closed quotes.** For every script that ends inside `$$` the concatenation
  law fails (`SplitStatements.UnbalancedSwallows`).

## Model

| member | source | states |
|---|---|---|
| `RunSteps.ReachableInv` | migrations/versions/0004_agent_tasks_executions_events.py:121-277 | every state that any run of calls reaches from the empty tables has the invariants of all tables together: planning, task and candidate tables |
| `RunSteps.RunKeeps` | migrations/versions/0004_agent_tasks_executions_events.py:121-277 | the same from any state that has the invariants, for runs of any length |
| `RunSteps.MomentSteps` | migrations/versions/0003_advisor_family_decision.py:140-250 | every moment of a run, whatever its call, its arguments and its outcome, keeps all of them; planning tables move by one of four kinds of step; a changed task row goes down its measure by one row version (a heartbeat only prolongs the lease), its log is appended to, and no dispatch row goes into the past; candidate rows are only added |
| `RunHistory.RunLater` | migrations/versions/0003_advisor_family_decision.py:152-165 | along a run rows are only added; runs and briefs lose nothing but their current flag and never regain it; closed tasks stay; records stay |
| `RunFacts.TablesStayCoherent` | migrations/versions/0004_agent_tasks_executions_events.py:152-277 | in every reachable state: a dispatch row exactly for queued, leased and running tasks, at the lease end while a lease is held; generation = attempts = number of executions, at most 3, at most 2 when queued; executions numbered by attempt and generation, the last one open while a lease is held |
| `RunAgreement.MomentAgreesExactly` | migrations/versions/0004_agent_tasks_executions_events.py:219-275 | exactly when the execution rows keep step with their tasks: from a state in which the four tables of all tasks agree, a moment leaves them in agreement if and only if its call raises or names its generation, whatever the call |
| `RunAgreement.FourTablesAgree` | migrations/versions/0004_agent_tasks_executions_events.py:152-277 | four-table agreement in every state that runs reach whose calls of start, fail and finalize name their generation or raise: a dispatch row exactly for queued, leased and running tasks, at the lease end while a lease is held; generation = attempts = number of executions, at most 3, at most 2 when queued; exactly the last execution open, with the task's own status, exactly while a lease is held |
| `RunAgreement.ExecutionsTellHistory` | migrations/versions/0004_agent_tasks_executions_events.py:166-275 | in the same states the execution rows tell the history of their task: attempts before the last were given up for a retry; the last has the task's outcome, result and code; every closed one has its duration in whole milliseconds, never negative, within 32 bits |
| `TaskInvariants.StartKeepsExactly` | migrations/versions/0004_agent_tasks_executions_events.py:219-221 | a start can succeed with a NULL generation; the four tables agree after a successful start exactly when it named one |
| `TaskInvariants.FailKeepsExactly` | migrations/versions/0004_agent_tasks_executions_events.py:241-260 | the same for a fail |
| `TaskInvariants.FinalizeKeepsExactly` | migrations/versions/0004_agent_tasks_executions_events.py:267-275 | the same for a finalize |
| `RunWitness.NullGenerationTearsTables` | migrations/versions/0004_agent_tasks_executions_events.py:219-221 | in a state that a concrete run reaches, the holder's start without a generation succeeds and takes apart the tables of a task that agreed before |
| `TaskCell.FailNeedsCode` | migrations/versions/0004_agent_tasks_executions_events.py:239-243 | under a named generation a failure succeeds only with a code: without one the fallback column would be NULL |
| `RunFacts.OneEffectiveTask` | migrations/versions/0004_agent_tasks_executions_events.py:47-49 | no two effective tasks have the same pins |
| `RunTheorems.ReplayCatchesUp` | migrations/versions/0004_agent_tasks_executions_events.py:121-127 | a prefix of a log, replayed, gives the task row of that time; replaying the rest on top of it gives the row of any later time; numbers are 1..n; events = row versions + reclaims, at most 10 |
| `TaskLog.LogIsBounded` | migrations/versions/0004_agent_tasks_executions_events.py:83-89 | the grammar of the event log bounds its length for every reachable state of the row, by 10 in all |
| `TaskLog.ReplaySuffix` | migrations/versions/0004_agent_tasks_executions_events.py:121-127 | replaying a log is replaying its prefix and then its suffix |
| `TaskLog.ClosedLog` | migrations/versions/0004_agent_tasks_executions_events.py:79-92 | no event can follow a closing event |
| `TaskLog.AppendNumbered` | migrations/versions/0004_agent_tasks_executions_events.py:121-127 | appending takes the next number and advances the replayed view by one event |
| `TaskCell.AgreementBounds` | migrations/versions/0004_agent_tasks_executions_events.py:32-34 | agreement alone implies the attempt bound, that succeeded is never reached, and when a result and a code are there |
| `TaskCell.ClaimAgrees` | migrations/versions/0004_agent_tasks_executions_events.py:182-212 | the claim of a due row trips no constraint and never meets a closed task or a running lease; it raises exactly for an overdue execution, hands out a lease exactly when attempts are left, and keeps the agreement |
| `TaskCell.FailAgrees` | migrations/versions/0004_agent_tasks_executions_events.py:237-259 | a reported failure keeps the agreement, whether it schedules a retry or closes the task |
| `TaskCell.FinalizeAgrees` | migrations/versions/0004_agent_tasks_executions_events.py:272-275 | closing a task with its result keeps the agreement |
| `TaskCell.CancelAgrees` | migrations/versions/0004_agent_tasks_executions_events.py:166-169 | cancelling keeps the agreement |
| `TaskCell.StartAgrees` | migrations/versions/0004_agent_tasks_executions_events.py:221-224 | starting keeps the agreement |
| `TaskCell.HeartbeatAgrees` | migrations/versions/0004_agent_tasks_executions_events.py:231-233 | a heartbeat keeps the agreement |
| `TaskCell.CreateAgrees` | migrations/versions/0004_agent_tasks_executions_events.py:144-146 | a new task agrees with its log and its dispatch row |
| `TaskCell.CloseLast` | migrations/versions/0004_agent_tasks_executions_events.py:245-254 | closing the rows of the newest generation closes the last execution and no other, and raises exactly when its duration does not fit |
| `TaskInvariants.CreateExactly` | migrations/versions/0004_agent_tasks_executions_events.py:140-147 | create succeeds exactly for valid pins, an assigned advisor, a case in planning at the revision, a known pack, no effective task with the same pins and a fresh id; no constraint refuses what these let through |
| `TaskInvariants.CreateKeeps` | migrations/versions/0004_agent_tasks_executions_events.py:47-49 | create keeps all task invariants, among them one effective task per pin tuple |
| `TaskInvariants.CancelExactly` | migrations/versions/0004_agent_tasks_executions_events.py:163-170 | cancel succeeds exactly for an assigned advisor, the current row version or none named, an open task whose last execution can be closed, and hashes of 64 characters |
| `RunWitness.NullVersionCancels` | migrations/versions/0004_agent_tasks_executions_events.py:165-170 | in a state that a concrete run reaches, a cancel without an expected version succeeds |
| `TaskInvariants.CancelKeeps` | migrations/versions/0004_agent_tasks_executions_events.py:166-170 | cancel keeps all task and planning invariants |
| `TaskInvariants.ClaimExactly` | migrations/versions/0004_agent_tasks_executions_events.py:178-212 | claim raises exactly for a bad worker name or an overdue head; otherwise it answers a lease exactly when attempts are left and the head leaves the due rows |
| `TaskInvariants.ClaimKeeps` | migrations/versions/0004_agent_tasks_executions_events.py:182-212 | claim keeps all task invariants |
| `TaskInvariants.StartKeeps` | migrations/versions/0004_agent_tasks_executions_events.py:215-225 | a start keeps all task invariants, named generation or not |
| `TaskInvariants.HeartbeatKeeps` | migrations/versions/0004_agent_tasks_executions_events.py:227-235 | heartbeat keeps all task invariants |
| `TaskInvariants.FailKeeps` | migrations/versions/0004_agent_tasks_executions_events.py:237-259 | a fail keeps all task invariants, named generation or not; no retry can violate the effective-task index |
| `TaskInvariants.FinalizeExactly` | migrations/versions/0004_agent_tasks_executions_events.py:265-276 | finalize succeeds exactly under a live lease, for a result that planning accepts for the task's pins, while the duration fits, which is not looked at without a generation |
| `TaskInvariants.FinalizeKeeps` | migrations/versions/0004_agent_tasks_executions_events.py:265-276 | a finalize keeps task and planning invariants, named generation or not; the new run carries the task's pins and belongs to no other task |
| `RunTheorems.FencedForever` | migrations/versions/0004_agent_tasks_executions_events.py:204-276 | after a claim issued a generation, no call under an older one and no call of another worker under it ever succeeds or changes any table, after any run in between |
| `RunTheorems.OneFinalize` | migrations/versions/0004_agent_tasks_executions_events.py:265-276 | after a successful finalize, every later finalize of the task is answered NV010 and changes nothing, after any run in between |
| `RunTheorems.ClosedForever` | migrations/versions/0004_agent_tasks_executions_events.py:182-185 | the rows of a closed task never change again, in all four tables |
| `RunTheorems.ChangesAreBounded` | migrations/versions/0004_agent_tasks_executions_events.py:175-277 | the row version counts the changes of a task exactly, each change lowers a measure of attempts left and state rank, so a task changes at most nine times after its creation |
| `RunFairness.ClaimRaises` | migrations/versions/0004_agent_tasks_executions_events.py:179-200 | a claim raises exactly when its head's open execution began more than 2^31 - 1 milliseconds ago |
| `RunFairness.NobodyOvertakes` | migrations/versions/0004_agent_tasks_executions_events.py:175-213 | once a queued task's dispatch row lies in the past, no call of any function puts another row ahead of it |
| `RunFairness.ClaimMovesUp` | migrations/versions/0004_agent_tasks_executions_events.py:179-208 | a claim that does not raise serves the task or takes a row ahead of it away |
| `RunFairness.OnlyWritersWrite` | migrations/versions/0004_agent_tasks_executions_events.py:152-277 | in every moment the rows of a task stay the same in all four tables, unless the moment is its cancel, a claim that takes it, or a call of the worker who holds its lease; claim and cancel never get past an overdue execution |
| `RunFairness.BoundedOvertaking` | migrations/versions/0004_agent_tasks_executions_events.py:175-213 | a waiting task with n rows ahead is leased or cancelled at the latest by the (n+1)-th claim that does not raise, whatever other calls and waits lie in between |
| `RunFairness.ClaimsServeExactly` | migrations/versions/0004_agent_tasks_executions_events.py:179-213 | exactly when claiming serves: for a waiting task, every legal run of one more immediate claim than there are rows ahead of it serves it, if and only if none of those rows is overdue now |
| `RunFairness.BlockedForever` | migrations/versions/0004_agent_tasks_executions_events.py:190-200 | an overdue row in the past never changes again in any run, wherever it stands: no claim, cancel or worker call gets past it; only as many claims can still succeed as there were rows ahead of it |
| `RunFairness.StarvesForever` | migrations/versions/0004_agent_tasks_executions_events.py:179-200 | a task that waits strictly behind an overdue row is never leased in any run; it keeps its rows or is cancelled |
| `RunFairness.AbandonedLeaseBlocks` | migrations/versions/0004_agent_tasks_executions_events.py:204-209 | a lease whose task nobody touches for 2^31 milliseconds, in whatever run, becomes such a row |
| `RunWitness.WaitingCanBeForever` | migrations/versions/0004_agent_tasks_executions_events.py:179-200 | a concrete run reaches a state where a task waits strictly behind one overdue row |
| `RunFacts.WaitingTaskHasItsRun` | migrations/versions/0004_agent_tasks_executions_events.py:268-273 | a task that waits for review points to a handed-off run with exactly its case, revision, pack and policy, and no other task points to it |
| `RunFacts.StaleResultChangesNothing` | migrations/versions/0004_agent_tasks_executions_events.py:268-268 | a finalize whose case has left planning or has another revision changes nothing in any table |
| `TaskStore.TaskStore.AppendEvent` | migrations/versions/0004_agent_tasks_executions_events.py:121-127 | one event more, numbered after the highest number of the task |
| `TaskStore.TaskStore.Create` | migrations/versions/0004_agent_tasks_executions_events.py:129-150 | the step-by-step transaction has the effect and the answer of its specification, and leaves all tables alone when it raises |
| `TaskStore.TaskStore.Cancel` | migrations/versions/0004_agent_tasks_executions_events.py:152-173 | the same for cancel |
| `TaskStore.TaskStore.CloseExecutions` | migrations/versions/0004_agent_tasks_executions_events.py:166-166 | closes the rows of one generation, or raises without touching any |
| `TaskStore.TaskStore.NextDue` | migrations/versions/0004_agent_tasks_executions_events.py:179-179 | finds a head of the due dispatch rows, or that there is none |
| `TaskStore.TaskStore.Claim` | migrations/versions/0004_agent_tasks_executions_events.py:175-213 | the same for claim, for the head row that the selection returns |
| `TaskStore.TaskStore.Start` | migrations/versions/0004_agent_tasks_executions_events.py:215-225 | the same for start |
| `TaskStore.TaskStore.Heartbeat` | migrations/versions/0004_agent_tasks_executions_events.py:227-235 | the same for heartbeat |
| `TaskStore.TaskStore.Fail` | migrations/versions/0004_agent_tasks_executions_events.py:237-259 | the same for fail |
| `TaskStore.TaskStore.Finalize` | migrations/versions/0004_agent_tasks_executions_events.py:261-277 | the same for finalize, with the planning result rolled back when the task side raises |
| `PlanningInvariants.EmptyInv` | migrations/versions/0002_case_evidence_planning.py:28-131 | the empty tables satisfy the planning invariant |
| `PlanningInvariants.PublishKeeps` | migrations/versions/0002_case_evidence_planning.py:275-284 | publishing succeeds exactly for the next revision and keeps the invariant |
| `PlanningInvariants.TransitionKeeps` | migrations/versions/0002_case_evidence_planning.py:286-292 | a case enters planning exactly from intake; the invariant is kept |
| `PlanningInvariants.ParticipantsKeep` | migrations/versions/0003_advisor_family_decision.py:174-177 | seeding participants keeps the invariant |
| `PlanningInvariants.PackKeeps` | migrations/versions/0002_case_evidence_planning.py:294-302 | storing a pack keeps the invariant |
| `PlanningInvariants.EvidenceKeeps` | migrations/versions/0002_case_evidence_planning.py:304-308 | storing evidence keeps the invariant, with the provenance of every row |
| `PlanningHandoff.PersistExactly` | migrations/versions/0002_case_evidence_planning.py:310-340 | a result is stored exactly when the caller's inputs are in order; in a reachable state neither trigger refuses; the new tables are stated |
| `PlanningHandoff.PersistKeeps` | migrations/versions/0002_case_evidence_planning.py:214-226 | storing a result, with supersession and the case's hand-off, keeps the invariant |
| `PlanningHandoff.StoredRowsProven` | migrations/versions/0002_case_evidence_planning.py:241-268 | stored links, costs and rankings lean on evidence of the run's own pack with the claim that their role asks for |
| `OutputLayout.OutputStored` | migrations/versions/0002_case_evidence_planning.py:318-338 | the nested insert loops succeed exactly for acceptable outputs and number routes, dimensions, costs and rankings in order |
| `OutputLayout.RowsDetermineOutput` | migrations/versions/0002_case_evidence_planning.py:318-338 | the stored rows determine the output, up to the order of evidence uses, although numbering is global |
| `PlanningOutput.InsertOutput` | migrations/versions/0002_case_evidence_planning.py:318-338 | the loops with their counters compute the specified rows or the first error |
| `PlanningDecision.ReviewExactly` | migrations/versions/0003_advisor_family_decision.py:184-211 | a first review succeeds exactly when it is allowed; the case guard always finds what the call has just written |
| `PlanningDecision.FirstReview` | migrations/versions/0003_advisor_family_decision.py:195-195 | the computed review version is always 1 |
| `PlanningDecision.ReviewKeeps` | migrations/versions/0003_advisor_family_decision.py:178-213 | a review keeps the invariant |
| `PlanningDecision.DecideExactly` | migrations/versions/0003_advisor_family_decision.py:220-249 | a first decision succeeds exactly when it is allowed; both case moves are admitted |
| `PlanningDecision.DecideKeeps` | migrations/versions/0003_advisor_family_decision.py:214-250 | a decision keeps the invariant |
| `RunFacts.HandoffsAreAnswered` | migrations/versions/0003_advisor_family_decision.py:140-213 | for every case: handed-off runs = reviews that sent back + 1 if the case is past planning |
| `RunFacts.SupersessionFormsChains` | migrations/versions/0002_case_evidence_planning.py:316-317 | one current run per case; a run is superseded at most once and then not current; following supersession never returns to a run |
| `RunFacts.DecisionIsApproved` | migrations/versions/0003_advisor_family_decision.py:226-228 | a decision is about the one route that the advisor approved |
| `RunFacts.PlanReadyIsDecided` | migrations/versions/0003_advisor_family_decision.py:241-247 | a case is plan ready exactly with a decision, and exactly with a timeline; a current brief exists exactly in family review |
| `RunFacts.PinnedFactsStay` | migrations/versions/0003_advisor_family_decision.py:191-204 | entries of a stored pack never change, so a brief's source date stays the latest snapshot of its pack; accepted risks are exactly those of the reviews, each about evidence that the reviewed rows lean on |
| `PlanningTheorems.OneEligibleRoute` | migrations/versions/0003_advisor_family_decision.py:204-204 | an approval names exactly one route |
| `PlanningTheorems.AcceptedBudget` | migrations/versions/0003_advisor_family_decision.py:229-235 | a decided interval ends below the pinned ceiling if there is one, and contains a converted Australian cost of the run if there is one, and the only one when there is only one |
| `RunCases.BudgetNeedsFacts` | migrations/versions/0003_advisor_family_decision.py:232-234 | in a reachable state, for a brief on which some decision succeeds: every decision that succeeds is supported by a cost and the ceiling, if and only if the run has an Australian cost row and the pinned revision a ceiling |
| `RunCases.AcceptedSupport` | migrations/versions/0003_advisor_family_decision.py:232-234 | each single accepted decision is supported exactly when both facts are there |
| `RunWitness.UnsupportedDecision` | migrations/versions/0003_advisor_family_decision.py:232-234 | a concrete run in which a decision succeeds on a brief without cost row and ceiling |
| `RunCases.DecidableExactly` | migrations/versions/0003_advisor_family_decision.py:220-245 | in a reachable state some decision on a brief of the case succeeds if and only if its brief is about the newest revision, the pinned intake has a timeline, and some interval fits the cost and the ceiling as far as they are there |
| `RunCases.PublishingParks` | migrations/versions/0002_case_evidence_planning.py:279-283 | publishing a revision while the family decides parks the case: its brief is about an older revision |
| `RunCases.ParkedRefusesDecisions` | migrations/versions/0003_advisor_family_decision.py:220-221 | every new decision on a brief of a parked case is answered NV003 and changes nothing |
| `RunCases.UndecidableForever` | migrations/versions/0003_advisor_family_decision.py:140-150 | a case in family review on which no decision is possible, for whatever reason, stays in family review and undecidable in every run |
| `RunCases.ParkedForever` | migrations/versions/0003_advisor_family_decision.py:140-150 | a parked case is one of these, and stays parked in every run |
| `RunWitness.CasesGetParked` | migrations/versions/0002_case_evidence_planning.py:279-283 | a concrete run parks its case |
| `RunCases.ReviewableExactly` | migrations/versions/0003_advisor_family_decision.py:184-193 | in a reachable state, over legal dates and versions, some new review of a case under review by an assigned advisor succeeds if and only if the case is not stuck: it has a current run at its revision, the revision names an intake, and the pinned pack has an entry |
| `RunCases.ApprovableExactly` | migrations/versions/0003_advisor_family_decision.py:184-208 | in a reachable state some new approval of the case succeeds if and only if the case is not stuck and its run has an output hash and a recommended Australian route |
| `RunCases.PublishingStrands` | migrations/versions/0002_case_evidence_planning.py:279-283 | publishing a revision while the advisor reviews leaves the case without a run to review, so it is stuck |
| `RunCases.ForeignSupersessionStrands` | migrations/versions/0002_case_evidence_planning.py:316-316 | a result of another case that supersedes the case's run, stored alone or by a finalize, does the same |
| `RunCases.StuckRefusesReviews` | migrations/versions/0003_advisor_family_decision.py:185-193 | every new review of a stuck case is refused and changes nothing, approvals and rejections alike |
| `RunCases.StuckForever` | migrations/versions/0003_advisor_family_decision.py:140-150 | a stuck case stays stuck in every run |
| `RunWitness.CasesGetStuck` | migrations/versions/0003_advisor_family_decision.py:185-193 | concrete runs for each of the four ways to get stuck: an empty pack, a revision without an intake, a revision published during the review, and a result of another case that supersedes the run; the last two strand a case that could be reviewed before |
| `RunFacts.ResultsStay` | migrations/versions/0002_case_evidence_planning.py:228-239 | routes, dimensions, links, costs and rankings of a run never change; a superseded run is never current again |
| `RunFacts.BriefStaysTrue` | migrations/versions/0003_advisor_family_decision.py:153-157 | in every later state a brief's projection is the one recomputed from its run and review |
| `RunFacts.DecisionStaysSound` | migrations/versions/0003_advisor_family_decision.py:232-234 | in every later state a decision, its run's cost rows and its pinned ceiling are what they were, and its interval is sound against them |
| `PlanningStore.PlanningStore.PublishRevision` | migrations/versions/0002_case_evidence_planning.py:275-284 | the transaction has the effect of its specification and leaves the tables alone when it raises |
| `PlanningStore.PlanningStore.TransitionCase` | migrations/versions/0002_case_evidence_planning.py:286-292 | the same for the transition into planning |
| `PlanningStore.PlanningStore.PersistPack` | migrations/versions/0002_case_evidence_planning.py:294-302 | the same for a pack and its loop over entries |
| `PlanningStore.PlanningStore.PersistEvidence` | migrations/versions/0002_case_evidence_planning.py:304-308 | the same for an evidence row |
| `PlanningStore.PlanningStore.PersistResult` | migrations/versions/0002_case_evidence_planning.py:310-340 | the same for a planning result |
| `PlanningStore.PlanningStore.LatestSnapshot` | migrations/versions/0003_advisor_family_decision.py:191-191 | the maximum snapshot date of the pack's entries, or none |
| `PlanningStore.PlanningStore.NextVersion` | migrations/versions/0003_advisor_family_decision.py:195-195 | one more than the run's highest review version |
| `PlanningStore.PlanningStore.ReviewRun` | migrations/versions/0003_advisor_family_decision.py:178-213 | the same for a review and its full reply (review, brief, case state, replay flag), for the date and version that the aggregates return |
| `PlanningStore.PlanningStore.DecideBrief` | migrations/versions/0003_advisor_family_decision.py:214-250 | the same for a decision and its full reply (decision, receipt, timeline, replay flag), for the cost row that the selection returns |
| `Idempotency.InsertBijective` | migrations/versions/0003_advisor_family_decision.py:107-113 | a record of a new row extends the bijection of its operation and leaves the others alone |
| `RunFacts.ExactlyOnce` | migrations/versions/0003_advisor_family_decision.py:182-183 | after a first success, in every later state of every run the same key answers the same id for the same request and an error for another, and changes nothing; for all six recorded operations |
| `RunReplies.ReviewRepliesRepeat` | migrations/versions/0003_advisor_family_decision.py:183-183 | in every later state of every run a repeated review that succeeds names the review and the brief of the first reply, which it looks up anew; only the case state is the one of that time |
| `RunReplies.DecideRepliesRepeat` | migrations/versions/0003_advisor_family_decision.py:219-219 | in every later state of every run a repeated decision that succeeds gives the first reply again, receipt and timeline included, but for the replay flag |
| `RunFacts.RecordAnswers` | migrations/versions/0004_agent_tasks_executions_events.py:133-139 | a call whose key is on record is answered from the record alone |
| `RunFacts.RecordsCountEffects` | migrations/versions/0003_advisor_family_decision.py:107-113 | in every reachable state the records of each of the six operations are in bijection with the tasks, cancelled tasks, reviews, decisions, candidates and verifications, so there are as many |
| `LedgerStore.LedgerStore.CheckEvidence` | migrations/versions/0005_dra_candidate_promotion.py:136-173 | the loop with its seen ids and its counter accepts exactly the arrays whose items keep the contract, with distinct ids and exactly one source |
| `LedgerStore.LedgerStore.Import` | migrations/versions/0005_dra_candidate_promotion.py:118-180 | the transaction has the effect of its specification and leaves the tables alone when it raises |
| `LedgerStore.LedgerStore.NextVersion` | migrations/versions/0005_dra_candidate_promotion.py:222-222 | one more than the highest version of the pack |
| `LedgerStore.LedgerStore.CopyRows` | migrations/versions/0005_dra_candidate_promotion.py:225-225 | copies the named claims row by row through the provenance trigger |
| `LedgerStore.LedgerStore.PromotePack` | migrations/versions/0005_dra_candidate_promotion.py:222-227 | the writes of a promotion, all taken back on an error |
| `LedgerStore.LedgerStore.Verify` | migrations/versions/0005_dra_candidate_promotion.py:182-233 | the transaction has the effect of its specification, with unique violations reported as conflicts |
| `LedgerInvariants.ImportExactly` | migrations/versions/0005_dra_candidate_promotion.py:135-179 | an import succeeds exactly for the contract, an accepted array, an assigned advisor, a case in planning and a fresh id |
| `LedgerInvariants.ImportKeeps` | migrations/versions/0005_dra_candidate_promotion.py:177-178 | an import keeps the ledger invariant |
| `LedgerInvariants.VettedExactly` | migrations/versions/0005_dra_candidate_promotion.py:149-150 | the items of an accepted array are all cited, and verified or unverified, exactly when none of their statuses is null |
| `LedgerInvariants.NullStatusesAccepted` | migrations/versions/0005_dra_candidate_promotion.py:149-150 | an accepted array stays accepted with both statuses of any item set to null |
| `RunWitness.UncitedCandidate` | migrations/versions/0005_dra_candidate_promotion.py:149-150 | a concrete run accepts an import whose only item is neither cited nor verified |
| `LedgerInvariants.VerifyExactly` | migrations/versions/0005_dra_candidate_promotion.py:202-230 | a first verification succeeds exactly when its target is current and its verdict stands; the new tables are stated |
| `LedgerInvariants.VerifyKeeps` | migrations/versions/0005_dra_candidate_promotion.py:207-229 | a verification keeps the ledger: one per candidate, one approval per case and revision, one per pack version, promoted evidence in place |
| `LedgerInvariants.NullVerdictApproves` | migrations/versions/0005_dra_candidate_promotion.py:210-211 | a NULL decision has exactly the effect of an approval |
| `LedgerInvariants.SelectedIsTheSource` | migrations/versions/0005_dra_candidate_promotion.py:208-209 | a verification is about the one item that names a source |
| `PromotionTheorems.CopyExactly` | migrations/versions/0005_dra_candidate_promotion.py:225-225 | copying succeeds exactly for free ids and adds exactly one copy per named claim that the baseline has |
| `PromotionTheorems.PromoteExactly` | migrations/versions/0005_dra_candidate_promotion.py:222-227 | a promotion can only fail on the caller's ids; the provenance trigger never refuses it |
| `PromotionTheorems.PromotionPreservesPack` | migrations/versions/0005_dra_candidate_promotion.py:222-227 | every row of the new version passes the provenance trigger; of the five claims it has exactly those of the baseline, on the same entry with the same hash; its only program-fit row is the external one; its version exceeds all others; all older rows stay |
| `RunFacts.PromotionStands` | migrations/versions/0005_dra_candidate_promotion.py:222-227 | the same for every approval in a reachable state; and in every later state the version's entries are unchanged, its program-fit row is still the external one alone, the copied claims are there on the baseline's sources, and every row passes the provenance trigger |
| `RunWitness.NullDecisionPromotes` | migrations/versions/0005_dra_candidate_promotion.py:211-225 | a concrete run stores the baseline without evidence, imports a candidate and verifies it with a NULL decision: the call promotes, and the new version lacks the tuition claim that the call lists |
| `PromotionTheorems.WithoutExactly` | migrations/versions/0005_dra_candidate_promotion.py:224-224 | the copied coverage loses the replaced claim and nothing else |
| `SplitStatements.SplitStatements` | migrations/versions/0001_identity_and_rls.py:166-190 | the scanning loop computes the specified split |
| `SplitStatements.SplitHomomorphism` | migrations/versions/0001_identity_and_rls.py:172-186 | when scanning a ends outside dollar quotes, split(a ; b) = split(a) + split(b) |
| `SplitStatements.SplitJoin` | migrations/versions/0001_identity_and_rls.py:166-190 | splitting the join of balanced, stripped, non-empty statements returns them |
| `SplitStatements.SplitNormalForm` | migrations/versions/0001_identity_and_rls.py:179-189 | every piece of a balanced script is a proper statement, and splitting the join of the pieces returns them |
| `SplitStatements.UnbalancedSwallows` | migrations/versions/0001_identity_and_rls.py:173-177 | for every script that ends inside dollar quotes the concatenation law fails, so closed quotes are exactly what it needs |
| `BoundedPng.BoundedPng` | scripts/prepare_planning_revision_diagnostics.py:100-121 | the chunk walk accepts exactly the encodings of signature, IHDR, one or more IDAT, IEND with right lengths, checksums and size bounds (section 3.2 of RFC 2083), for any checksum function |
| `BoundedPng.WalkReencodes` | scripts/prepare_planning_revision_diagnostics.py:104-117 | the chunks that the walk finds re-encode to the same bytes |
| `BoundedPng.EncodingIsWalked` | scripts/prepare_planning_revision_diagnostics.py:104-117 | an encoding is walked back to its chunks |
| `BoundedPng.CountingIsShape` | scripts/prepare_planning_revision_diagnostics.py:118-121 | the counting tests at the end say exactly that shape |
| `BoundedPng.DecodingIsUnique` | scripts/prepare_planning_revision_diagnostics.py:100-121 | an accepted file is the encoding of one chunk list only |

## Left out

- ReviewableExactly: takes an unused review id and an unused key as given; ApprovableExactly and DecidableExactly do the same, and the witness of the last is a student of the case.
- Row locks, `SKIP LOCKED`, advisory locks and concurrent transactions: every call is one atomic step with rollback on error.
- Time inside one call: every reading of the clock in a call gives the same moment; between calls time never goes back.
- Row-level security, grants, and the tenant and actor context checks (`assert_context`, `assert_m3b_context`): a call is one that passed them.
- Sessions, actors and memberships, and the foreign keys to them.
- `audit_events` and the columns `created_at`, `updated_at`, `notes`, `schema_version`, `cost_status` and the adapter names: nothing reads them.
- JSON shapes and casts: arguments arrive as typed values; an array element without the six evidence fields is an absent item.
- NULL arguments: modelled for the generation, input hash, code, fallback flag and output hash of the worker's calls, for the expected version of a cancel, for the expected revision of a publication, for the decision of a verification and for every argument that is optional by design. A NULL retry flag acts as false, and a NULL list of entries, routes, dimensions, evidence uses, costs or rankings as the empty one. Not modelled: a NULL request hash, with which a recorded call is answered from its record and a first call ends in a NOT NULL violation, and a NULL in any other argument, which ends in an error of a test or a NOT NULL column.
- UUID texts: ids are numbers, and the ids that the source pads from counters are the counters. Two different texts of one UUID are not modelled.
- The text tests for timestamps and public sources are arbitrary predicates, and the manifest digest and the PNG checksum arbitrary functions.
- The 32-bit overflow of revision, pack version and review version numbers.
- Fees and rates: amounts are integers, the rate is a real number rounded half up, as SQL rounds positive numerics; the scale limits of the numeric columns are not modelled.
- Generated ids of executions and risk acceptances: rows are identified by their contents.
- Migrations after 0005, which replace some of these functions.
- The Python code around the database, the HTTP layer, the controllers and the seeding scripts.
