# CodePilot, verified

CodePilot is a controlled multi-agent review pipeline. A parent task moves from DRAFT to MERGED along a white list of
edges, its review, impact, fix and verify steps run as child tasks on agents, a patch is merged only after a person
has approved exactly that version and hash, and everything that can be repeated (commands, submissions, tool calls) is
guarded by an idempotency key. This project models those guarantees in Dafny and proves them for all inputs, all runs
or all reachable states.

Run `dafny verify dfyconfig.toml` in this directory.

## What is modelled

**The task life cycle.** `StateMachine` holds the white lists. `ReviewStore` and `ChildStore` are the two stores as
classes: each row is written only by compare-and-swap on its version, and the append-only log doubles as the replay
table. `ReviewHistory` and `ChildRuns` let any number of callers interleave their reads, checks and swaps, and crash
between them. `QualityGate` is the verify agent's decision. `Pipeline` is the coordinator as a transition system over
the row, its log, patches, approvals and the fix and verify children; a read, the check half and the write half of an
intent, a handler call and a commit are each a step of their own, taken by any number of runs, approvers, mergers and
administrators. `PipelineSafety` proves its invariant, `PipelineReach` where the undisturbed run of a new task comes
to rest, `PipelineCrashes` that crashes and restarts do not change that, `PipelineDecisions` what a decision leaves
behind, `PipelineLimits` shows where the guarantees stop, and `Coordinator` is the approve, merge, reject and park
transactions as a class, each proved to come to what its single steps come to.

**Children behind HTTP.** `HttpInvoker` is the coordinator's side of one remote child: moving the local row, taking in
artifacts, waiting against a deadline. `HttpTracking` adds the agent's side, lost answers, repeated submissions,
status queries, several coordinators and workers, and restarts; `HttpLimits` shows what the tracking does not promise.
`Recovery` is the restart plan and what a restart may run again.

**Commands and tools.** `Ledger` is the idempotency ledger and the command wrapper around the work; `LedgerRuns` lets
concurrent callers interleave. `ToolGate` is the tool registry with its policies, budget and the execution table in
its caller's session, which the caller commits or rolls back.

**Source rewriting.** `SqlRewrite` is the SQL recipe as a small compiler from expressions to a text with placeholders
and a parameter tuple. `Formatting` and `BraceFormatting` put Python's reading of a literal next to the recipe's,
`Occurrences` is `str.count`, `SqlMeaning` proves when the meaning is kept, and `SqlEmitted` reads the two emitted texts
back as Python and the database do. `Scanners` is the hand-written argument scanners and `ArgumentLists` the calls they
take apart, `TextLines` is `splitlines`, `strip` and `"\n".join`, `LineEdits` is the bottom-up planner.

**Parsers and printers.** `SafePath`, `DiffParse`, `DiffRoundTrip`, `DiffMeta`, `DiffSafety` and `Rebuild` are the unified
diff (POSIX.1-2017, `diff`, section "Diff -u or -U Output Format"), its printer, the lines in it that carry no change,
what every accepted diff is like, and the rebuilt workspace. `Sse` is the event stream
(WHATWG HTML Living Standard, sections 9.2.5 and 9.2.6). `Ulid` and `Decimal` are the two numerals in use.

## Where the naive claim is false

The model follows the code, and each of these is proved as a counterexample or as an exact condition.

- A human resume takes its expected version from the client. It is safe against every later history exactly when that
  version is not newer than the row that was checked (`ResumeSafeIffVersionNotNewer`).
- An administrator can resume a parked task to PENDING_APPROVAL; it then merges without sufficient evidence
  (`ResumeBypassesTheGate`). Without a resume it cannot (`MergedMeansApprovedAndProved`).
- A rejection can be on record for a task that never was REJECTED: the key of a resume comes from the client, and one that
  takes the key of the rejection makes the move to REJECTED a replay (`ResumeKeyHidesRejection`); no other way leads there
  (`RejectionMeansRejected`).
- The ledger's documentation says a failed key may be retried because a failure has no side effects. Two callers can
  enter a failed key at once, and a caller that dies after a successful retry leaves the key failed; in both cases the
  work can succeed twice (`EntryOutOfTurnAdmitsTwo`, `CrashOutOfTurnAdmitsTwo`). Two requests for different aggregates
  can also run under one key when both look before either inserts (`KeyRaceAcrossAggregates`); without an insertion
  beside another aggregate's row a key runs one request only (`OneRequestPerKeyIff`).
- A replayed tool call reports `ok` for a handler that had failed: the flag tells that the call was allowed
  (`ReplayTellsAllowed`). The registry's header lists the idempotency lookup as its sixth step; the code makes it the
  second, before any authorisation, and so does the model.
- An execution row is written in the caller's session. A merge that loses its version race rolls it back after the
  branch was written, and the next merge writes again under the same key (`RollbackRunsTwice`); only a committed row
  keeps a handler from running again (`RunsAgainIff`).
- A status query, or the answer to a submission, moves the local row to whatever the agent reports and looks at no
  artifact, so a child can be COMPLETED with nothing delivered (`StatusQueryCompletesUndelivered`); that is the only
  way (`DeliveredIff`). A completed agent row can be completed again and gain artifacts (`CompletedRowFilesMore`), by
  a commit that files something new and by nothing else (`CompletedFileStaysIff`).
- The agent row a local row notes need not be the one whose completion it took over (`NotedRowMayLag`); exactly when
  it is, is said by `NotedRowIsSourceIff`. And an agent that reports a completion while the local row stands at
  INPUT_REQUIRED makes the waiting raise (`WaitingEndsIff`).
- The SQL rewrite drops format specs, conversions, percent escapes, stray braces and argument indices. It keeps the
  meaning in every environment exactly when there are none of these (`KeepsMeaningIffClean`, `FStringKeepsMeaningIff`,
  with `FormatSpecIsDropped` for one query), a bare operand of % never survives being a tuple (`SoleOperandKeepsIff`),
  and the emitted literal is broken exactly by a carriage return or a NUL (`LiteralReadsBackIff`). A placeholder that the
  query's own text holds makes the database refuse it (`EmittedFillsIff`).
- The argument scanners take a closing quote behind a backslash for an escaped one. A literal that ends in a backslash
  stays open (`LiteralClosesIff`) and swallows the arguments behind it (`BackslashSwallowsTheRest`); all other lists are
  cut where they should be (`ArgumentListSplits`).
- The planner's documentation says that applying fixes bottom-up keeps line numbers stable. Inserting `import os`
  shifts every later edit at or below the insertion (`PlanWithImport`, `RestHitsItsLinesIff`,
  `ImportShiftsLaterEdit`).
- The diff parser knows deletions, but refuses `+++ /dev/null` (`NullNewPathIsRefused`). A hunk line that reads as
  `--- ` or `+++ ` is taken for a header (`ParseOfPrintIff`). A second section for one file is refused by
  its header, but not when its +++ line takes the name (`RenamedOntoAnother`, `PathsAreDistinct`). A blank last line is lost
  by the rebuild (`RebuiltIff`).
- An event field that starts with white space arrives without it (`EventArrivesIff`), and a stream never goes past the
  first 500 audit events (`PollsDeliverOnce`).

## Model

| member | source | states |
|---|---|---|
| QualityGate.GateAgreesWithTiers | agents/verify/agent.py:313-379 | The gate bit and the tier list shown to people agree for every measurement, except that a run that timed out is refused even when every tier passed |
| QualityGate.OpenGateMeans | agents/verify/agent.py:257-379 | An open gate means: applied, linted, tests ran and none failed, no test that failed before still fails, coverage neither zero nor down by 0.05 |
| QualityGate.OpenGateIff | agents/verify/agent.py:257-355 | The gate opens exactly when the pre-scan passed, the measurement is sound and the test section is not blank |
| ReviewStore.ReviewTaskStore.Create | repositories/store.py:110-211 | A key creates one DRAFT task at version 1 with an empty log; repeating it with the same input returns that task, and a short key, a taken task number, another input or a taken id is refused with its own error and changes nothing |
| ReviewStore.ReviewTaskStore.ApplyIntent | repositories/store.py:265-363 | Whole new state and answer of an intent, column by column: the condition of each answer in the order field, owner, replay, edge and version; a change names what it overwrites and every other column stays, one log entry is added, and any refusal or replay touches nothing |
| ReviewStore.ReviewTaskStore.HumanResume | repositories/store.py:373-402 | A resume leaves NEEDS_HUMAN only, never for MERGED, needs a reason, clears the error code and message, and is otherwise an intent with the version the client sent |
| ReviewStore.FindKey | repositories/store.py:365-371 | The replay lookup finds a key exactly when some log entry carries it |
| ReviewHistory.SwapHitsSeenRow | repositories/store.py:326-344 | A swap that goes through changed the very row its caller had checked, when the version it was given is not newer than that row |
| ReviewHistory.LastWriteWins | repositories/store.py:326-344 | Over every history and every prefix of its log: owner, active patch and summary are what the last entry to name them says, and the origin of a parked task is the requested one or else the status the entry to NEEDS_HUMAN overwrote |
| ReviewHistory.LastTextWins | repositories/store.py:326-344 | A text column holds the value of the last entry whose changes name it |
| ReviewHistory.UnwrittenIsAsFirst | repositories/store.py:326-344 | A column no entry names is as it was at creation |
| ReviewHistory.FinishedIff | repositories/store.py:326-344 | A task carries a time of completion exactly when it had one at creation or some entry went to MERGED, REJECTED or FAILED |
| ReviewHistory.EveryRunIsConsistent | repositories/store.py:265-363 | Under every interleaving of checks, swaps and crashes: logged versions count up without gap or repeat, the row is the replay of its log, every entry was a legal edge from the row it overwrote, no key is applied twice, and logs only grow |
| ReviewHistory.EveryConsistentHistoryIsReachable | repositories/store.py:265-363 | The converse: every history with those properties is produced by some run of the store, so nothing more can be promised |
| ReviewHistory.ResumeSafeIffVersionNotNewer | repositories/store.py:373-402 | A checked resume can only land on rows it is legal for, whatever happens in between, if and only if its version is not newer than the row checked |
| ReviewHistory.TerminalStatusesAbsorb | domain/state_machine.py:22-60 | Over any stretch of any history: MERGED, REJECTED and FAILED stay, NEEDS_HUMAN stays without a resume, and MERGED is entered from PENDING_APPROVAL only and never by a resume |
| ReviewHistory.MovesAgainstRank | domain/state_machine.py:22-50 | Status changes so far plus the rank left never exceed the first rank plus seven per resume |
| ReviewHistory.StatusMovesBounded | domain/state_machine.py:105-157 | A task resumed R times changes its status at most 6 + 7R times |
| ReviewHistory.StatusMovesBoundIsTight | domain/state_machine.py:105-157 | The bound is reached, for every R |
| ChildStore.A2ATaskStore.Submit | repositories/store.py:438-523 | A submission key creates one child ever; repeating it returns that child, an id of another child's is a conflict, and neither changes anything |
| ChildStore.A2ATaskStore.Transition | repositories/store.py:525-653 | Whole new state and answer of a child transition: the condition of each answer in the order owner, replay, edge, retry and version; an applied one sets status, code and attempt as asked and adds one event |
| ChildRuns.EveryRunIsConsistent | repositories/store.py:525-653 | Every log of every interleaving is an exact and legal account of its child row, with no key applied twice |
| ChildRuns.AttemptCountsRetries | domain/state_machine.py:186-207 | The attempt column is the first attempt plus the FAILED to WORKING events, and never above 2 |
| ChildRuns.LastEventSays | repositories/store.py:608-653 | Status and error code of a child are those of its last event, and its version counts the events |
| ChildRuns.RetryLeavesRetryableFailure | repositories/store.py:576-606 | Every retry left a FAILED row with a retryable error code and an attempt to spare, and added exactly one |
| ChildRuns.SpentRowsAbsorb | domain/state_machine.py:72-99 | COMPLETED, CANCELED and a failed last attempt absorb |
| ChildRuns.SpentStays | repositories/store.py:525-653 | A row that has ended for good keeps its status under every step of anyone |
| Decimal.PrintThenRead | domain/diffparse.py:219-231 | Reading a printed number gives it back |
| Decimal.PrintIsInjective | a2a/http_invoker.py:634-650 | Keys that end in a printed number differ when the numbers do |
| PipelineSafety.StepKeeps | agents/coordinator/coordinator.py:280-816 | Every step of every run, approval, merge, resume or crash keeps the invariant over row, log, patches, approvals, children and whoever is at work |
| PipelineSafety.RunKeeps | agents/coordinator/coordinator.py:280-1040 | The invariant holds in every reachable state |
| PipelineSafety.MergedMeansApprovedAndProved | agents/coordinator/coordinator.py:951-1035 | In every reachable state a MERGED task has one patch, applied, and one approval row in all: approve, for that version, with that hash; with no resume in its log, an entry to PENDING_APPROVAL carried evidence for the same hash from a measurement in which the tests ran, none failed and coverage held |
| PipelineSafety.EveryGateEntryIsMeasured | agents/coordinator/coordinator.py:671-807 | In every reachable state, each move to PENDING_APPROVAL that was no resume carried evidence from such a measurement of the very patch the task has |
| PipelineSafety.OnePatchOneApproval | repositories/records.py:145-203 | Merged or not, a task has at most one patch, of version 1, and at most one approval row, with the hash of that patch |
| PipelineSafety.DecideKeeps | repositories/records.py:363-424 | Recording a decision keeps the invariant: one row per patch version, bound to its hash |
| PipelineSafety.UpdateKeeps | repositories/store.py:326-363 | The write half of an intent and what commits with it keep the invariant, also when the version is stale |
| PipelineDecisions.RejectionMeansRejected | agents/coordinator/coordinator.py:873-949 | In every reachable state every rejection on record has a log entry under its key, and that entry took the task to REJECTED unless it is a resume made under the same key |
| PipelineReach.InputsDecide | agents/coordinator/coordinator.py:280-816 | For every mode, every answer or error of the agents and every measurement the undisturbed run of a new task rests within 40 steps: at PENDING_APPROVAL exactly when it may fix, has something listed to fix, both agents answer, the patch stays in scope and the evidence is sufficient; at REJECTED exactly when it may not or cannot fix; at FAILED exactly for invalid input; otherwise in NEEDS_HUMAN; with the code of the error that stopped it, and with what was measured in its summary |
| PipelineReach.EverySufficientPatchCanMerge | agents/coordinator/coordinator.py:873-1040 | Every such patch reaches MERGED by its undisturbed run, one approval and one merge, with no resume, so what is known of merged tasks can be met |
| PipelineReach.NothingToTest | agents/coordinator/coordinator.py:671-686 | A run that finds a task in TESTING without any patch, as a resume can leave it, parks it with PATCH_INVALID |
| PipelineCrashes.RunsOn | agents/coordinator/coordinator.py:280-816 | From every stage a run can be at, however many steps it is left to go: the task stays on its way, with the fix child, the patch and the verify child its inputs give, and a run that goes on by itself ends within 22 steps with the task at rest |
| PipelineCrashes.CrashesDoNotMatter | agents/coordinator/coordinator.py:280-1295 | After any number of starts that each die at any step, one more start that is left alone brings the task to rest in the status the undisturbed run ends in, with the same patch, the same evidence and the code of the same error |
| PipelineLimits.ResumeBypassesTheGate | agents/coordinator/coordinator.py:951-1035 | From every parked task with an undecided patch, a resume, an approval and a merge reach MERGED with two log entries, neither carrying evidence |
| PipelineLimits.ResumeKeyHidesRejection | repositories/store.py:373-402 | The exception is real: from every parked task with an undecided patch, a resume to PENDING_APPROVAL under the key of its rejection and then a rejection leave the row on record and the task at PENDING_APPROVAL |
| Coordinator.Coordinator.Apply | repositories/store.py:265-363 | An intent and what commits with it, or nothing at all when it is refused or stale; what that comes to is said by WrittenSays |
| Coordinator.WrittenSays | repositories/store.py:265-363 | An intent of the coordinator is refused exactly when it does not own the row or the table has no such edge and the key is new, and then nothing changes; a used key lets only what commits with it through; otherwise the columns change as asked, with one entry, together with what commits with it |
| Coordinator.Coordinator.RecordDecision | repositories/records.py:363-424 | One row per patch version: the same person may repeat the same decision, any other second decision is a conflict; a first rejection whose key is unused leaves the task at REJECTED with one new entry that is no resume and a row with that hash; an error changes nothing |
| Coordinator.Coordinator.RecordApproval | agents/coordinator/coordinator.py:873-949 | The approval transaction is the run of its four single steps, with the error of the first guard that fails and no change then; an accepted approval leaves the task as it was with a row for the current version of a patch without scope drift, and a rejection whose key is unused leaves it at REJECTED with one new entry and a row for that version and hash |
| Coordinator.Coordinator.MergePatch | agents/coordinator/coordinator.py:951-1040 | The merge transaction is the run of its four single steps, with the error of the first guard that fails and no change then; it reaches MERGED only with the branch written and an approval of that version and hash, and with an unused key it succeeds exactly by one entry to MERGED and the patch applied |
| Coordinator.Coordinator.ParkTask | agents/coordinator/coordinator.py:1246-1295 | Parking is the run of its three single steps; under an unused key the task goes to FAILED for invalid input and to NEEDS_HUMAN otherwise, shows the code of the error and keeps the evidence that failed the gate, and an edge the table does not have is refused |
| HttpInvoker.EnsureStatus | a2a/http_invoker.py:355-410 | The local row is moved by zero, one or two transitions of the store, or an error is raised; where it gets is said by EnsureFollowsEdges, what it then carries by EnsureCarriesCode |
| HttpInvoker.EnsureFollowsEdges | a2a/http_invoker.py:355-410 | With fresh keys the local row reaches the target exactly when the edge table leads there with at most one step through WORKING, out of FAILED only while a retry is open; every event it adds is an edge of the table, and an error leaves it alone |
| HttpInvoker.EnsureCarriesCode | a2a/http_invoker.py:355-410 | A row that moves carries the error code it was moved with, and so does its last event; a detour through WORKING carries none; attempt and owner stay |
| HttpInvoker.RetryOpenIff | a2a/http_invoker.py:682-733 | After a failure is entered the one controlled retry is open exactly when it was the first attempt and the code is a known retryable one |
| HttpInvoker.NoObjectionIff | a2a/http_invoker.py:486-569 | No objection is found exactly when every artifact is in order, and the error returned is that of some artifact |
| HttpInvoker.IngestArtifacts | a2a/http_invoker.py:486-569 | All artifacts are handed on exactly when every required type is present and each is valid, of this child and allowed; otherwise none is, and the error is that of the first test that fails |
| HttpInvoker.AwaitTerminal | a2a/http_invoker.py:267-353 | The first turn that does not go on decides: one that started at or past the deadline, was told of an end, or got an unreadable answer past the deadline; its answer fixes outcome and local status; every turn before it started in time, and there are at most (deadline - now) / interval + 2 turns, whatever the agent answers |
| HttpInvoker.WaitingEndsIff | a2a/http_invoker.py:412-484 | Waiting ends the child locally and in the outcome, except exactly at INPUT_REQUIRED against a good completion; the unknown status is returned exactly when the deciding query was unreadable or the agent failed with that code |
| HttpInvoker.OutcomeSays | a2a/http_invoker.py:412-484 | For every reported end: a cancelled task is reported as cancelled, a failed one with its code or an internal error, a completed one with its artifacts in order as completed, and one with a faulty artifact as failed with the error of its first faulty artifact |
| HttpInvoker.FollowsReports | a2a/http_invoker.py:652-680 | While the agent reports only steps of the edge table the local row is where its last report says |
| HttpTracking.WorkerLandsOn | apps/api/agent_service.py:278-381 | A worker's completion lands on a row at work or on one that is completed already, which stays completed and only gains artifacts; its other moves land on open rows |
| HttpTracking.StepKeeps | a2a/http_invoker.py:92-264 | Submissions, lost answers, polls, applied status reports, moves, commits, workers that look again and crashes keep the tracking invariant |
| HttpTracking.TrackingIsSafe | a2a/http_invoker.py:625-680 | In every run the agent has at most two rows for the child and at most one for each attempt, the local log is legal, and the child is locally COMPLETED exactly when it took over the completion of some agent row, which is COMPLETED; one taken in by ingestion has every required artifact, all in order |
| HttpTracking.DeliveredIff | a2a/http_invoker.py:652-680 | In every run the agent row whose completion a locally COMPLETED child took over has at every moment delivered every required artifact in order, exactly when no status query and no submission answer was applied as a completion of a row that had not |
| HttpTracking.NotedRowIsSourceIff | a2a/http_invoker.py:130-207 | In every run the agent row a locally COMPLETED child notes is at every moment the one whose completion it took over, exactly when no commit completed it from a row it did not note and no answer to a submission made the completed child note another |
| HttpTracking.CompletedFileStaysIff | apps/api/agent_service.py:278-381 | From any moment of any run on: a completed agent row stays completed and loses no artifact, and gains none exactly when no worker's commit lands on it with an artifact that is not on file |
| HttpTracking.FiledSays | apps/api/agent_service.py:278-381 | After a worker's commit every artifact it made is on file, what was on file stays, and nothing is filed twice |
| HttpLimits.StatusQueryCompletesUndelivered | a2a/http_invoker.py:249-264 | A run in which the status query before a retry completes the child although the required artifact was never filed |
| HttpLimits.CompletedRowFilesMore | apps/api/agent_service.py:278-381 | The condition of CompletedFileStaysIff can fail: for any two artifacts with different content, a run in which a second worker completes a completed agent row again and adds its artifact to it |
| HttpLimits.NotedRowMayLag | a2a/http_invoker.py:164-207 | The condition of NotedRowIsSourceIff can fail: a run in which the child is COMPLETED while the agent row it notes is not |
| Recovery.BuildRecoveryPlan | repositories/recovery.py:74-157 | The loop classifies every child and chooses the next action as the plan below |
| Recovery.PlanIsSound | repositories/recovery.py:74-157 | The four lists share out the children; a person is asked only with nothing pending or retryable; a review is finished only with both artifacts valid; a child counted as completed has its artifact |
| Recovery.NextActionIff | repositories/recovery.py:113-157 | Each next action is chosen exactly under its own condition on the rows and the valid artifacts: start, create, finish, wait, retry, ask a person, or nothing |
| Recovery.PlanLists | repositories/recovery.py:89-142 | A task type is listed as missing exactly when it is one of the review and has no child; an artifact exactly when it is one of the review and not valid, or outside the review when a completed child owes it; a person is needed exactly when the next action asks one |
| Recovery.EndedOnlyFinishesWhatRuns | a2a/inprocess.py:110-218 | Once a child has ended, its handler is called only by executions that were already under way |
| Recovery.RestartIsSafe | agents/coordinator/coordinator.py:838-857 | After a restart no handler is ever called for a child that had ended, over any number of further crashes, recoveries and writers |
| Ledger.IdempotencyStore.constructor | repositories/idempotency.py:55-60 | The ledger starts empty |
| Ledger.IdempotencyStore.Reserve | repositories/idempotency.py:101-196 | Short keys are refused, any row on record decides the answer, and only a vacant key leaves a new row |
| Ledger.IdempotencyStore.Finish | repositories/idempotency.py:198-209 | Settling writes the sanitised response or the error on the reserved row, and changes no other |
| Ledger.IdempotencyStore.ExecuteIdempotent | apps/api/idempotency.py:21-95 | The work runs exactly when the key was vacant or failed for this request, its row then says how it went and no other row changes, and a replay answers from a finished row of the same request; while the key has no row but this aggregate's, that row alone decides the answer |
| Ledger.OtherRequestIsRefused | repositories/idempotency.py:117-134 | The lookup refuses a key it finds recorded only for other requests |
| LedgerRuns.ReplaysAreFaithful | apps/api/idempotency.py:21-69 | Under every interleaving with failures and crashes a replay is the sanitised result of a successful run of the same request, and one aggregate's key runs one request only |
| LedgerRuns.RefusalsAreJustified | repositories/idempotency.py:117-196 | Under every interleaving an error answered to a caller is the one its own request's work failed with, or says in progress and that request is on record, or says conflict and another request is on record under the key |
| LedgerRuns.AtMostOneSuccess | repositories/idempotency.py:101-209 | With retries taking turns the work of a key succeeds at most once |
| LedgerRuns.ExactlyOnce | apps/api/idempotency.py:21-69 | Without failures, as soon as any caller has a result the work has run exactly once, and every result is that run's or its sanitised copy |
| LedgerRuns.EntryOutOfTurnAdmitsTwo | repositories/idempotency.py:153-159 | Every entry into a failed key that somebody is at work on can be continued to two successes |
| LedgerRuns.CrashOutOfTurnAdmitsTwo | apps/api/idempotency.py:72-95 | Every death between a successful retry and its update can be continued to two successes |
| LedgerRuns.LateFailure | repositories/idempotency.py:205-209 | A late failure turns a finished record back into a failed one, and a third caller runs the work again |
| LedgerRuns.OneRequestPerKeyIff | repositories/idempotency.py:101-196 | Over all runs: a key has at most one row exactly when no insertion went through beside another aggregate's row, and then its work only ever runs for one request |
| LedgerRuns.KeyRaceAcrossAggregates | repositories/idempotency.py:117-196 | The condition of OneRequestPerKeyIff can fail: for any two requests of different aggregates, both run under one key when both look before either inserts |
| ToolGate.Budget.ChargeTool | domain/budget.py:40-58 | A charge counts the call first, then its signature, and keeps what it counted when it refuses; the exact condition of each of its two errors |
| ToolGate.Budget.TakeStep | domain/budget.py:31-38 | Steps are counted and refused past their limit |
| ToolGate.Budget.ChargeTokens | domain/budget.py:60-67 | Tokens are counted, negative amounts as nothing, and refused past their limit |
| ToolGate.ToolRegistry.Register | tools/registry.py:95-98 | A tool is registered once |
| ToolGate.ToolRegistry.CallTool | tools/registry.py:177-300 | Whole new table, budget and answer of a call: replay, policy, parameters, budget, handler, in this order; case by case in RefusalSays and RunSays |
| ToolGate.GateHolds | tools/registry.py:136-300 | Over every sequence of calls, commits and rollbacks with caught errors: allowed writes are the coordinator's with an approved context; of the runs under one key all but the last died or had their row rolled back; no budget pays for more than its limit, nor for as many runs of one call as its threshold |
| ToolGate.EveryRunWasAllowed | tools/registry.py:136-174 | Over every sequence of calls, commits and rollbacks: every handler that ran was registered, had valid parameters, and was allowed to that agent by its policy, its lists and its context |
| ToolGate.NewCallRunsIff | tools/registry.py:177-300 | A valid call of a registered tool that is not on record runs its handler exactly when it is allowed and the budget has a call and a repetition left |
| ToolGate.RunsAgainIff | tools/registry.py:177-300 | In every reachable state a handler that has run can run again under its key exactly when its execution row is not committed |
| ToolGate.RollbackRunsTwice | agents/coordinator/coordinator.py:951-1040 | For every call the registry lets through: run, rolled back and made again, its handler runs twice under one key |
| ToolGate.ReplayTellsAllowed | tools/registry.py:198-216 | Repeating any recorded call whose row was not rolled back runs nothing, charges nothing and answers ok, even where the handler had failed |
| Formatting.PercentReadingsAgreeIff | agents/fix/recipes.py:331-345 | Python, with mapping keys, flags, widths, precisions and all conversion types, and the recipe read a percent-format literal alike exactly when it has only %s and no other percent sign |
| BraceFormatting.CountIsHoles | agents/fix/recipes.py:362-366 | The count of {} plus the numbered matches is the number of holes the substitution makes |
| BraceFormatting.BraceReadingsAgreeIff | agents/fix/recipes.py:357-370 | Python, with attributes, indices, conversions and nested specs, and the recipe read a str.format literal alike, for arguments told apart, exactly when it has no stray brace and takes its arguments in order |
| Occurrences.CountAround | agents/fix/recipes.py:362 | Occurrences of a pattern that does not overlap itself are counted where they stand, whatever surrounds them |
| SqlRewrite.SqlRewriter.Walk | agents/fix/recipes.py:327-380 | The walk accepts what the recipe accepts, and appends the text and the parameters left to right |
| SqlRewrite.SqlRewriter.WalkPieces | agents/fix/recipes.py:346-356 | An f-string's literal parts and placeholders, in order, with the values of its fields |
| SqlRewrite.RewriteExpression | agents/fix/recipes.py:316-394 | The result of the walk is the function the meaning is proved about; that the emitted texts say it is EmittedFillsIff |
| SqlRewrite.RewritesIff | agents/fix/recipes.py:316-406 | An expression is rewritten exactly when every operand of the concatenation is a literal, a plain value, or a formatted literal that mentions SQL in any case and has a value for each hole, some operand brings a value, and the whole query text mentions SQL |
| SqlRewrite.ThreePassesEscape | agents/fix/recipes.py:408-411 | Replacing backslashes, quotes and newlines one after the other escapes each character exactly once |
| SqlRewrite.LiteralReadsBackIff | agents/fix/recipes.py:408-411 | Python reads the emitted literal as the text exactly when the text has no carriage return and no NUL |
| SqlMeaning.HolesAreParams | agents/fix/recipes.py:316-394 | Every accepted expression has one hole for each parameter |
| SqlMeaning.KeepsMeaningIffPatternsAgree | agents/fix/recipes.py:316-394 | For every accepted expression: filling the holes in order gives the original string in every environment where sole operands of % are scalars exactly when the two symbolic strings are the same or the original always raises there |
| SqlMeaning.CleanKeepsMeaning | agents/fix/recipes.py:316-394 | A clean expression keeps its meaning in every environment |
| SqlMeaning.KeepsMeaningIffClean | agents/fix/recipes.py:316-394 | With operands told apart, the rewrite keeps the meaning in those environments exactly when the expression is clean, which can be read off the expression, or always raises |
| SqlMeaning.SoleOperandKeepsIff | agents/fix/recipes.py:331-345 | With tuples and mappings allowed, an accepted % format with one operand that is no tuple display keeps its meaning only if it raises whatever the operand is |
| SqlMeaning.FStringKeepsMeaningIff | agents/fix/recipes.py:346-356 | An accepted f-string keeps its meaning exactly when no field has a format spec or a conversion that changes how its value prints |
| SqlMeaning.PlaceholdersCounted | agents/fix/recipes.py:388-394 | The placeholders in a rendered template are its holes plus those its literal runs hold by accident |
| SqlMeaning.PlaceholdersMatchParametersIff | agents/fix/recipes.py:388-394 | The emitted text has as many placeholders as parameters exactly when no literal run holds one |
| SqlEmitted.TupleReadsBack | agents/fix/recipes.py:391-394 | The emitted tuple display, read by its top-level commas with one required, has the parameters as its elements, in their order |
| SqlEmitted.EmittedFillsIff | agents/fix/recipes.py:381-394 | The emitted query, read as a literal and filled from left to right with the emitted tuple, is the rewritten query exactly when no literal run holds a placeholder; otherwise the numbers differ and the database refuses it |
| SqlEmitted.EmittedKeepsMeaningIff | agents/fix/recipes.py:316-394 | With operands told apart, executing the two emitted texts gives the string the original evaluates to, in those environments, exactly when the expression is clean and no literal run holds a placeholder, or the original always raises |
| Scanners.SplitTopLevel | agents/fix/recipes.py:218-245 | The loop returns the trimmed pieces between top-level commas, without an empty last one |
| Scanners.FirstTopComma | agents/fix/recipes.py:184-203 | The first top-level comma, or the fact that there is none |
| Scanners.ReadKeywords | agents/fix/recipes.py:204-215 | Every item is read as a keyword argument, or the whole is refused |
| Scanners.SplitArguments | agents/fix/recipes.py:184-215 | The call scanner succeeds exactly as stated on the other scanner's list: its first element is the command, the others are the keyword arguments in order |
| Scanners.AgreesWithTopLevel | agents/fix/recipes.py:184-245 | Scanning on after the first top-level comma gives the tail of the whole text's list |
| Scanners.PiecesAreTheText | agents/fix/recipes.py:218-245 | Joined with commas the raw pieces are the text; none has a top-level comma, and all but the last end outside quotes and brackets |
| Scanners.PiecesAreUnique | agents/fix/recipes.py:218-245 | The pieces are the only list with that property |
| Scanners.KeywordsReadBack | agents/fix/recipes.py:204-215 | Printed keyword arguments are read back as they were, in their order |
| ArgumentLists.ArgumentListSplits | agents/fix/recipes.py:218-245 | Every printed list of arguments, with nested brackets, string literals and escapes in them, is cut back into exactly those arguments when no literal ends in a backslash |
| ArgumentLists.CallReadsBack | agents/fix/recipes.py:184-215 | A printed call with at least one keyword argument is taken apart into its first argument and its keyword arguments |
| ArgumentLists.LiteralClosesIff | agents/fix/recipes.py:227-231 | The scanner leaves a string literal at its closing quote exactly when the literal does not end in a backslash |
| ArgumentLists.BackslashSwallowsTheRest | agents/fix/recipes.py:184-245 | Behind such a literal everything up to the next such quote is one piece with it, and the call is not taken apart |
| TextLines.LinesOfUnlines | agents/fix/recipes.py:112-113 | Splitting a joined text gives the lines back, except for a blank last one without a newline |
| LineEdits.PlanFile | agents/fix/agent.py:185-226 | The loop over one file is the fold of single fixes from the highest line down |
| LineEdits.FindImportIndex | agents/fix/recipes.py:128-141 | The insertion index found by the loop is the end of the header |
| LineEdits.HeaderEndIsAfterHeaders | agents/fix/recipes.py:128-141 | Nothing but blank and header lines stands above the insertion, and no header line directly below it |
| LineEdits.DescendingSorts | agents/fix/agent.py:198 | The sorted findings are the same findings, highest line first |
| LineEdits.SortKeepsLineOrder | agents/fix/agent.py:198 | The sort keeps the order of findings on one line |
| LineEdits.FixOneLine | agents/fix/recipes.py:55-180 | A fix without an import replaces its line and no other, and is planned exactly when its recipe applies there |
| LineEdits.BottomUpIsSimultaneous | agents/fix/agent.py:185-226 | For findings in any order, with no import to insert: the merged plan starts from the true original and gives the text in which each line is edited by its own findings and no other line is touched |
| LineEdits.PlanNamesItsFixes | agents/fix/agent.py:198-226 | For every recipe and every list of findings, imports included: the merged plan lists the references of exactly the fixes that changed the text, in the order they were applied, and there is no plan exactly when none did |
| LineEdits.PlanWithImport | agents/fix/agent.py:185-226 | When the first secret in the sorted findings brings the import, the whole plan is: earlier findings edit the original's lines, that fix and its import, and all later findings edit the longer text by their original numbers |
| LineEdits.RestHitsItsLinesIff | agents/fix/recipes.py:107-110 | Those later findings, all together, reach the lines they were meant for, under every recipe, exactly when each that points into the longer text points above the insertion |
| LineEdits.LaterEditHitsItsLineIff | agents/fix/recipes.py:107-110 | The same for a single edit after an insertion at any line |
| LineEdits.ImportShiftsLaterEdit | agents/fix/recipes.py:107-110 | The planner meets such a case: fixing a secret on line 2 makes the fix of line 1 miss its line |
| SafePath.NormalizedStaysInside | domain/safepath.py:24-46 | An accepted path has no empty, "." or ".." component |
| SafePath.AbsoluteIsRefused | domain/safepath.py:24-77 | Every path that starts with a slash is refused |
| SafePath.NormalizeIff | domain/safepath.py:24-46 | A path is accepted exactly when it is not blank, has no control character, root or drive, and leads to something inside; what is returned leads, from anywhere, to where the given path leads |
| DiffParse.ParseUnifiedDiff | domain/diffparse.py:116-191 | The loop is the fold of single lines, with the size and content tests around it; the lines that carry no change are the subject of DiffMeta |
| DiffParse.Accept | domain/diffparse.py:178-191 | A parsed list is accepted exactly when every file has hunks or is deleted and some file is Python |
| DiffParse.ParsedLinesAreNumbered | domain/diffparse.py:147-176 | In everything the parser accepts, each hunk line's numbers are the hunk's starts plus the earlier lines of its side |
| DiffParse.NullNewPathIsRefused | domain/diffparse.py:139-143 | A deletion announced by +++ /dev/null is refused in every state |
| DiffRoundTrip.HeaderReadsBack | domain/diffparse.py:219-231 | A printed hunk header gives its starts, counts and section back, the omitted count 1 included |
| DiffRoundTrip.GitHeaderReadsBack | domain/diffparse.py:194-209 | A printed diff --git line gives the file's names back |
| DiffRoundTrip.LineReadsBack | domain/diffparse.py:147-176 | A printed hunk line that does not look like a header is read as what it is, with its numbers |
| DiffRoundTrip.StepTotal | domain/diffparse.py:130-176 | A line adds at most one hunk line, and one that reads as a header adds none |
| DiffRoundTrip.ParseOfPrintIff | domain/diffparse.py:116-231 | Every printable list of file diffs, printed and parsed, comes back the same exactly when no hunk line reads as a file header |
| DiffMeta.ExtrasAreInvisible | domain/diffparse.py:155-163 | Index, mode, similarity, rename and blank lines outside hunks and notes about a missing newline inside them change nothing, from every state |
| DiffMeta.OutsideOnlyMeta | domain/diffparse.py:155-161 | Outside a hunk a line that is no header is passed over exactly when it is one of those, and refused otherwise |
| DiffMeta.InsideOnlyBody | domain/diffparse.py:147-176 | Inside a hunk a line that is no header is accepted exactly when it is empty or starts with a space, plus, minus or backslash |
| DiffMeta.ParseOfDecoratedIff | domain/diffparse.py:116-191 | Every printable list of file diffs, printed with any such lines at their places, comes back the same exactly when no hunk line reads as a file header |
| DiffSafety.AcceptedIsSafe | domain/diffparse.py:116-209 | For every text: what is accepted is within both limits, every path in it names something below the root, every file has hunks or is deleted and one is Python; whatever is refused is refused as invalid input |
| DiffSafety.BlankNewPathDeletes | domain/diffparse.py:136-144 | A new path that is left blank marks the file as deleted, in every state, and keeps its name |
| DiffSafety.PathsAreDistinct | domain/diffparse.py:130-144 | While no +++ line names another file than the header above it, no two files of an accepted diff have one path |
| DiffSafety.RenamedOntoAnother | domain/diffparse.py:136-144 | Such a line is not looked up among the paths already seen: in every state it can give the current file the path of any earlier one |
| Rebuild.PostImageLines | domain/diffparse.py:78-83 | The loop over the hunks is the merged post image |
| Rebuild.MaxLine | domain/workspace.py:65-84 | The highest line of the image |
| Rebuild.RebuildText | domain/workspace.py:65-84 | The buffer filled by line number is the image from line 1 to its highest line, blank elsewhere, joined and terminated |
| Rebuild.PostImageIsTheHunks | domain/diffparse.py:40-83 | For hunks that do not overlap, the image has exactly the lines the hunks show, at distinct numbers |
| Rebuild.TerminatedShowsIff | domain/workspace.py:74-80 | A joined and terminated text shows its lines exactly when the last is not blank |
| Rebuild.RebuiltIff | domain/workspace.py:65-84 | The rebuilt file has post-image line n as its n-th line, and blanks elsewhere, exactly when the highest line is not blank |
| Rebuild.ChangedLinesAreAdded | domain/diffparse.py:66-83 | Every changed line is an added line, and the rebuilt file has it at that number |
| Sse.StreamEvents | a2a/client.py:169-193 | The client's loop, with trailing carriage returns dropped from each line, is the fold of single lines, and for the lines of a text there are none to drop |
| Sse.StreamReadsBack | a2a/client.py:169-193 | For any blocks without line breaks in their fields, comments in between, the client hands out exactly the messages, in order, as written but for leading white space |
| Sse.EventArrivesIff | apps/api/events.py:66-69 | An event arrives as written exactly when no field starts with white space |
| Sse.CommentLinesAreInvisible | a2a/client.py:169-193 | A comment line changes nothing, between events and inside them |
| Sse.CutGivesPrefix | a2a/client.py:169-193 | A text cut at any character gives a prefix of its events, each of them whole |
| Sse.Drain | apps/api/events.py:72-95 | The loop returns what follows the cursor, and everything for a cursor that is not there |
| Sse.PollsDeliverOnce | apps/api/events.py:98-134 | Over any number of polls of a growing table every later event is written once, in order, and nothing past the limit is written |
| Ulid.DigitReadsBack | domain/ids.py:14 | The alphabet is in the order of its values |
| Ulid.Encode | domain/ids.py:17-22 | The loop gives the numeral, highest digit first |
| Ulid.DecodeEncoded | domain/ids.py:17-22 | Decoding gives the value modulo 32 to the length |
| Ulid.EncodedIsInjectiveIff | domain/ids.py:17-22 | Two numerals of one length are equal exactly when the values agree modulo 32 to the length |
| Ulid.EncodedKeepsOrder | domain/ids.py:17-22 | Text order is value order for values that fit |
| Ulid.IdsSortByTime | domain/ids.py:25-34 | Identifiers with one prefix sort by time, then by randomness, while the time fits ten digits |

## Left out

- SQLAlchemy sessions, locking and migrations: tables are maps, a transaction is one step that happens or does not, and the rollback of rows written earlier in a failed transaction is modelled where a step writes several tables and in `ToolGate`.
- `before_state` of audit events: it is read off the row after the update, so histories are defined by versions and changes.
- The phases of a run as one method: `run_async` and its review, fix and verify phases are steps of `Pipeline`, because what is proved about them is what holds when others act between those steps. The attribute error at the end of `_run_verify_phase`, when the task is no longer in TESTING, ends the run there as it does in the model.
- Progress after a resume: step keys carry no version and apply once, so a task resumed to an earlier status need not advance again. Nothing is claimed about it beyond NothingToTest; crashes alone are CrashesDoNotMatter, with agents that answer a repeated call alike.
- Other tasks' tables, the list of findings, impact and scope checks, and the branch write: they are inputs of the steps.
- Two creations of review tasks at one instant: the second finds what the first has committed. The columns a creation only stores, and the message and card stores.
- PipelineSafety.MergedMeansApprovedAndProved: speaks of one task whose fix and verify children have the fixed submission keys the coordinator gives them; a child is one compare-and-swap on its answer here, its own life is in `ChildRuns` and `HttpTracking`. Behind HTTP a completed fix child can file a second candidate (CompletedRowFilesMore); every request carries version 1 and the patch of a version is created once under its key, so a second candidate makes no second patch.
- HttpTracking.TrackingIsSafe: COMPLETED is reached by ingestion or by an applied status, with the keys and times of any caller; local moves to any other status may use any key at any time, which allows more runs than the call sites do. Negotiation of capabilities, cancellation and messages are left out, and a poll reads one agent row at one instant.
- HttpInvoker.IngestArtifacts: speaks of the list that is handed on; artifacts written to the local table before a later one is refused stay there, and the placeholder rows of refused ones are left out.
- HttpInvoker.AwaitTerminal: the event stream only takes time, its events never decide anything; floating-point clocks are integers.
- The per-task thread lock of the agent service: release and removal are separate steps, so the compare-and-swap on the row is the only arbiter.
- ToolGate.GateHolds: a call is one step of one session; two sessions that make the same call at once are kept apart by the unique key of the table, which is not modelled.
- ToolGate.ToolRegistry.CallTool: speaks of the rows its session sees; the audit events beside them are left out, and what a commit or rollback does to the rows is in GateHolds.
- LedgerRuns.AtMostOneSuccess: the work's own side effects are one success or one failure; what a failed work leaves behind is not modelled.
- SqlMeaning.KeepsMeaningIffClean: operands are opaque texts, each with a value of its own; equal texts are covered by KeepsMeaningIffPatternsAgree. It speaks of environments in which a right operand of % that is no tuple display is neither a tuple nor a mapping; SoleOperandKeepsIff says what happens otherwise, for one % format. Starred operands, `**` keywords, widths beyond the size of a machine word, and which exception is raised first are left out.
- SqlMeaning.PlaceholdersMatchParametersIff: a placeholder that overlaps itself, and one with a backslash, which `re.sub` would read as an escape, are left out.
- SqlEmitted.EmittedFillsIff: a parameter whose text has a comma outside brackets and quotes, such as a bare lambda of two arguments, would be split when the tuple is read; such operands are left out, and so are implicit concatenation and comments inside them.
- Python's `ast` and the three recipes' regular expressions: expressions are a datatype, and a recipe in `LineEdits` is any function from a finding and a line to a new line.
- ArgumentLists.ArgumentListSplits: triple-quoted literals, f-strings that reuse their own quote and comments inside an argument list are left out.
- LineEdits.BottomUpIsSimultaneous: recipes whose result is not one line, such as a raw carriage return copied into a query text, are left out; the grouping of findings by file, the notes and the changed functions are too.
- LineEdits.PlanWithImport: the first secret among the sorted findings is the one whose fix applies and brings the import.
- Lower-casing and digits outside ASCII, and the rounding of coverage and its delta: reals are exact.
- DiffRoundTrip.ParseOfPrintIff: the printer prints paths of one word and no deletions; hunk counts are carried, and neither the parser nor the model compares them with the lines that follow.
- Sse.PollsDeliverOnce: takes the audit rows of a task in one fixed order, appended to at the end; the closing message and keep-alive lines are covered by StreamReadsBack.
- JSON and hashes: payloads are texts, and a request hash is the request itself.
- Confidence scores, impact policy, evaluation metrics, configuration merging, prescan, sanitising, the language-model gateway, Docker, git, the file system, routes and the dashboard.
