# Verification model of the operations agent backend

These modules model the backend's run service, its bounded agent loop, text comparison, controlled repair
actions and service registry, and prove what holds of them over every input, every interleaving and every
reachable state. `dafny verify dfyconfig.toml` checks everything.

## What is modelled

| module | part of the system |
|---|---|
| `MaterialText`, `SequenceMatcher`, `TextCompare` | normalising and splitting texts, the longest-match search behind the line diff, typed blocks and their validators |
| `MainInput`, `MainContext`, `ContextSource` | the frozen input of a main-agent run, its fingerprints, and the choice of recent messages that go into it |
| `Capabilities`, `MainDelivery` | the capability registry, and deliveries with their re-validation before success |
| `RunLifecycle`, `RunHistory`, `RunLog`, `RunOutcomes` | the run tables and every transaction on them as one atomic step; what holds over whole runs of the system, what a log contains, and what each transaction does in every reachable state |
| `LegacyWorker` | the diagnosis worker that checks for a cancel and appends in two transactions |
| `RunAcceptance`, `RunAdmission` | accepting runs under idempotency keys, read and commit apart, and reruns; when a call is accepted, and what it then stores |
| `RunService` | the same transactions as the service performs them, statement by statement with roll-back |
| `Replay` | replaying a run's events to a reader while writers go on |
| `AgentBudget`, `ReactKernel`, `ReactKernelLoop`, `KernelEndings` | the budget, the agent loop as a step machine against an arbitrary world, its imperative form, and why a run ends as it does |
| `CapabilityProjection`, `CapabilitySummary`, `KernelSummary` | from kernel signals over whitelisted events to the public capability summary, what it says about any log, and the size of a kernel's log |
| `ControlledAction`, `ActionService`, `ActionOutcomes` | proposal, execution, verification and their event log, with crashes between transactions; what each request and worker step does in every reachable state |
| `ServiceRegistration`, `ServiceRegistry` | database rows against the in-memory registry under re-entrant locks |
| `StreamGuard` | turning an executor stream into events and one terminal signal |
| `ShortTermMemory`, `KnowledgeReader` | the conversation window; snippet search and paged listing |

Code that changes state step by step is a class or method with a loop, proved equal to a specification function;
the results over all runs are lemmas about those functions. A transaction is one atomic step, as the repository
protocols promise (compare-and-set on the status column, atomic sequence reservation, rows that are only added).
A raised exception is an error value that leaves the database as it was.

## Where the code does less than its texts say

The model follows the code in each case and states the exact condition.

- Executor events are stored with whatever type the executor gives them. The log carries exactly the terminal event
  of the status, one RUN_QUEUED and one RUN_STARTED only while no append of such a type takes effect
  (`RunLog.LogAgreesIffExecutorIsQuiet`, `RunLog.EveryLogTellsItsRun`, `RunAcceptance.CountsAgree`; the witnesses are
  `RunLog.NoisyExecutorBreaksAgreement` and `RunLog.NoisyExecutorRepeats`).
- The replay stream announces that it closes after the terminal event, but returns after one page once the status is
  terminal: a reader more than 100 events behind never gets the end (`Replay.ReplayIsFaithful`, `Replay.LongLogIsCutShort`).
- A diagnosis fingerprint cannot tell a service named separately from one written as the last line of the query
  (`RunAcceptance.FingerprintCollisions`, `RunAcceptance.CollidingCallsShareARun`).
- The capability summary of a terminal run turns unreadable for versions above 1,000,000, because the whitelist drops
  the version and keeps the id, and for a run whose first decision was refused, because zero steps are dropped
  (`KernelSummary.ProjectionIsTheKernels`, `KernelSummary.BigVersionIsUnreadable`, `KernelSummary.ZeroStepsMeansRefused`).
- Documents whose paths resolve to one relative name are lost at page boundaries (`KnowledgeReader.PagesAreTheListing`).
- `replace` is documented to register a missing connector; the code leaves it out and returns False
  (`ServiceRegistry.ServiceRegistry.Replace`).
- A cancelled diagnosis run may get one more event (`LegacyWorker.AtMostOneEventAfterCancel`).

## Model

| member | source | states |
|---|---|---|
| `MaterialText.NormalizeIsOneScan` | backend/src/domain/main_agent.py:46-48 | the two replacements (CRLF, then CR) compute what one left-to-right scan for CRLF, CR and LF computes |
| `MaterialText.NormalizeIsIdempotent` | backend/src/domain/main_agent.py:46-48 | normalised text has no CR, and normalising it again changes nothing |
| `MaterialText.MaterialLinesRoundTrip` | backend/src/domain/main_agent.py:46-56 | joining the lines of a normalised text with LF gives the text back; their number is the counted number of lines |
| `MaterialText.MaterialLinesAreClean` | backend/src/capabilities/text_compare.py:113-115 | no line of a normalised text contains LF or CR |
| `MaterialText.MaterialLinesInjective` | backend/src/capabilities/text_compare.py:113-115 | two texts with the same lines are the same text |
| `SequenceMatcher.FindLongestMatch` | backend/src/capabilities/text_compare.py:92-94 | the block found is common, as long as any in the window, and among the longest the earliest in A, then in B |
| `SequenceMatcher.LongestIsUnique` | backend/src/capabilities/text_compare.py:92-94 | the documented choice leaves exactly one block, so any implementation of it finds this one |
| `SequenceMatcher.MatchingBlocksFormChain` | backend/src/capabilities/text_compare.py:92-94 | the recursive search yields common blocks in order, and what lies between two of them shares no line where a difference is reported |
| `SequenceMatcher.MergingIsIdle` | backend/src/capabilities/text_compare.py:92-94 | the recursion leaves no two adjacent blocks, so the final merge changes nothing |
| `SequenceMatcher.MatchingBlocksAreSearched` | backend/src/capabilities/text_compare.py:92-94 | the blocks are those of the documented search: the longest common block of the window, then the same on its left and on its right, and nothing only where nothing is shared |
| `SequenceMatcher.SearchedIsUnique` | backend/src/capabilities/text_compare.py:92-94 | that search has one outcome: two block lists that follow it are equal |
| `SequenceMatcher.GetOpcodesTiles` | backend/src/capabilities/text_compare.py:92-94 | the opcodes cover both inputs in order without gaps; equal stretches are equal and replaced stretches share no line |
| `SequenceMatcher.GetOpcodesIsDocumented` | backend/src/capabilities/text_compare.py:92-94 | the opcodes tile both inputs, no two changes follow each other directly, and their equal runs are the blocks of the documented search |
| `SequenceMatcher.DocumentedIsUnique` | backend/src/capabilities/text_compare.py:92-94 | they are the only opcodes of which this holds |
| `SequenceMatcher.LongestRunIsKept` | backend/src/capabilities/text_compare.py:92-94 | no change reaches into the longest common run, the earliest in A and then in B |
| `TextCompare.ValidateBlockOrder` | backend/src/domain/main_agent.py:359-369 | the loop accepts exactly the block lists whose ranges on one side start at 1 or later and strictly follow each other |
| `TextCompare.CompareMaterials` | backend/src/capabilities/text_compare.py:83-110 | the opcode loop computes the specified comparison, and whatever it returns passes every validator of the typed result |
| `TextCompare.DiffIsValid` | backend/src/domain/main_agent.py:260-322 | every block of every diff satisfies the side, range, quote and no-line-break validators, quotes the lines it names, and a modification never pairs two equal lines |
| `TextCompare.CompareAlwaysValidates` | backend/src/capabilities/text_compare.py:83-110 | for valid materials a result is returned exactly when there are at most 50 blocks and the two ids differ |
| `TextCompare.DiffIsAPatch` | backend/src/capabilities/text_compare.py:83-156 | applying the blocks to the lines of A gives exactly the lines of B, and applying the inverted blocks to B gives A, for every pair of texts |
| `TextCompare.DiffIsTheDocumentedOne` | backend/src/capabilities/text_compare.py:83-156 | the blocks of the diff are those of any opcodes that tile both texts, alternate, and keep the blocks of the documented search |
| `TextCompare.LongestRunIsOutsideBlocks` | backend/src/capabilities/text_compare.py:83-156 | the longest common run of two texts, the earliest in A and then in B, is touched by no block on either side |
| `TextCompare.NoDifferenceIffEqual` | backend/src/capabilities/text_compare.py:90-110 | the status says no difference if and only if the normalised texts are equal |
| `MainInput.RebuildKeepsContent` | backend/src/application/run_execution.py:225-261 | a rebuilt snapshot is valid, differs from its source in material ids only, and has the new ids |
| `MainInput.RebuildSucceeds` | backend/src/application/run_execution.py:225-261 | a valid snapshot can be rebuilt exactly when the two new ids differ where both texts are present |
| `MainInput.RerunFingerprintIsContent` | backend/src/application/run_execution.py:283-303 | two rerun fingerprints agree exactly when source run and content agree; material ids play no part |
| `MainInput.BuildKeepsInput` | backend/src/application/run_execution.py:210-249 | a built snapshot is valid and holds query, texts and context as given, the texts under the new ids; a missing side stays missing and an empty text stays a text |
| `MainInput.CreateFingerprintIsInput` | backend/src/application/run_execution.py:270-280 | two create fingerprints agree exactly when the snapshots built from the inputs agree in content, whatever the context and the material ids |
| `Whitespace.StripIsTheMiddle` | backend/src/application/contracts.py:57-64 | stripping leaves the text between the white space at its two ends, and only white space goes |
| `MainDelivery.AcceptedNeedsInputNamesOpenSides` | backend/src/application/run_execution.py:319-376 | a request for input is accepted if and only if it names the sides without text, no other and none left out |
| `MainDelivery.AcceptedComparisonIsAPatch` | backend/src/application/run_execution.py:342-376 | an accepted comparison belongs to the run and its materials, is valid, patches text A to text B and back, and says no difference exactly for equal texts |
| `Capabilities.CapabilityRegistry.Register` | backend/src/capabilities/registry.py:24-29 | a second registration of one version is refused and changes nothing |
| `Capabilities.CapabilityRegistry.ActiveVersion` | backend/src/capabilities/registry.py:72-77 | the highest registered version of the id, or nothing for an unknown id |
| `Capabilities.CapabilityRegistry.Catalog` | backend/src/capabilities/registry.py:79-86 | one entry for every known id, the definition of its active version |
| `Capabilities.ResolveTellsWhy` | backend/src/capabilities/registry.py:31-62 | each answer says what is the case: no version of the id, not this version, a higher version exists, the wrong kind; a definition comes out exactly for the active version of the expected kind |
| `Capabilities.ActiveIsUnique` | backend/src/capabilities/registry.py:31-62 | an id has at most one active version |
| `Capabilities.NewVersionSupersedes` | backend/src/capabilities/registry.py:24-62 | registering a version ends the activity of a lower version of the same id, and of nothing else |
| `RunLifecycle.NextKeepsInv` | backend/src/application/services.py:432-462 | one step of any client, worker or canceller keeps log, status, payload and frozen input of every run in agreement |
| `RunLifecycle.AfterKeepsInv` | backend/src/application/services.py:641-907 | so does every sequence of steps |
| `RunLifecycle.StepTouches` | backend/src/application/services.py:672-907 | every transaction but the accepting one changes at most the row and log of the run it names |
| `RunLifecycle.RunningIsClaimed` | backend/src/application/services.py:672-719 | a running run has RUN_STARTED as its second event |
| `RunLog.EveryLogTellsItsRun` | backend/src/application/services.py:432-907 | in every reachable state: sequences 1..n without gap, RUN_QUEUED first; no other RUN_QUEUED row, and no RUN_STARTED but at 2, if and only if no append of that type took effect; the service writes a terminal event if and only if the status is terminal, once, naming it, and last for main-agent runs |
| `RunLog.LogIsAccountedFor` | backend/src/application/services.py:721-782 | the rows of every log, counted by type, are RUN_QUEUED, RUN_STARTED once claimed, the terminal event of the status, and exactly the executor events whose append took effect |
| `RunLog.MainAgentLogIsItsStory` | backend/src/application/services.py:672-907 | the log of a main-agent run is, in this order, RUN_QUEUED, RUN_STARTED once claimed, the executor events whose append took effect, the terminal event of its status |
| `RunLog.ExecutorRowsArePrefix` | backend/src/application/services.py:366-416 | under any cancellation the executor rows of a main-agent run are the first of the events its worker tried to store, in order, and all of them while it runs |
| `RunHistory.SuccessHasOnePayload` | backend/src/application/services.py:784-876 | a result or delivery and exactly one assistant message exist if and only if the run succeeded |
| `RunHistory.NothingIsTakenBack` | backend/src/domain/repositories.py:78-111 | in every continuation logs only grow, terminal statuses and error codes stay, and inputs, results, deliveries and keys are never changed |
| `RunHistory.AnswersStay` | backend/src/application/services.py:784-876 | no step of anyone ever changes or removes an assistant message |
| `RunHistory.StoredComparisonsArePatches` | backend/src/application/services.py:829-876 | every comparison the database ever holds patches its run's frozen text A to B and back |
| `RunOutcomes.CancelOutcome` | backend/src/application/services.py:432-462 | in every reachable state: a queued or running run of either kind is cancelled, with status and exactly one RUN_CANCELLED row and nothing else changed; a succeeded or failed one is refused, a cancelled one answered, both without a change; refused as unknown only when it is |
| `RunOutcomes.FailOutcome` | backend/src/application/services.py:878-907 | a queued or running run is stored as failed with the code it was given and exactly one RUN_FAILED row; an ended one is left alone |
| `RunOutcomes.ClaimOutcome` | backend/src/application/services.py:672-719 | every queued run is claimed, with status and one RUN_STARTED row; no other run is |
| `RunOutcomes.AppendOutcome` | backend/src/application/services.py:721-782 | the legacy append adds its row in any status, the main-agent append only while the run is running |
| `RunOutcomes.CompleteDiagnosisOutcome` | backend/src/application/services.py:784-827 | a running run with its own result and a fresh message id succeeds, with result, message, status and one RUN_SUCCEEDED row and nothing else changed; every other case has its answer and no change |
| `RunOutcomes.CompleteMainOutcome` | backend/src/application/services.py:829-876 | a running main-agent run with a fitting delivery, nothing sensitive and a fresh message id succeeds, with delivery, message, status and one RUN_SUCCEEDED row; every other case has its answer and no change |
| `RunOutcomes.CommitOutcome` | backend/src/application/services.py:606-659 | with fresh ids the inserts are refused for a taken scope only, and otherwise write message, run, input, key and RUN_QUEUED row |
| `RunLog.LogAgreesIffExecutorIsQuiet` | backend/src/application/services.py:344-363 | the log holds exactly the terminal event the status calls for, whoever wrote it, if and only if no append step of a terminal type found its claimed diagnosis run or its running main-agent run |
| `RunLog.NoisyExecutorBreaksAgreement` | backend/src/application/services.py:344-363 | a concrete run in which an executor event of type RUN_SUCCEEDED sits in the log of a running run |
| `RunLog.NoisyExecutorRepeats` | backend/src/application/services.py:344-363 | concrete runs with two RUN_STARTED events and with two RUN_QUEUED events |
| `RunLog.PlainExecutorsLeavePlainLogs` | backend/src/application/services.py:721-782 | when no append of a lifecycle type is ever tried, the log agrees with the status and has one RUN_QUEUED and RUN_STARTED at 2 only |
| `LegacyWorker.AtMostOneEventAfterCancel` | backend/src/application/services.py:324-364 | in the legacy path, under any timing of cancellation, at most one event follows RUN_CANCELLED and none follows RUN_SUCCEEDED or RUN_FAILED |
| `LegacyWorker.OneEventCanFollowCancel` | backend/src/application/services.py:344-356 | the bound is reached: a cancel between the check and the append |
| `LegacyWorker.UndisturbedDiagnosisTellsItsStory` | backend/src/application/services.py:324-364 | a queued diagnosis run that nobody disturbs is claimed, stores every event of its executor in order, and ends with result, answer message and RUN_SUCCEEDED, or failed with the code |
| `RunService.RunApplicationService.TransitionStatus` | backend/src/domain/repositories.py:78-111 | compare-and-set: the new status when the old one was expected, else no change |
| `RunService.RunApplicationService.ReserveEventSequence` | backend/src/domain/repositories.py:78-111 | hands out the next sequence number of an existing run and advances it by one |
| `RunService.RunApplicationService.AppendEventInTransaction` | backend/src/application/services.py:736-756 | one row with the reserved sequence is added, or nothing for an unknown run |
| `RunService.RunApplicationService.ClaimRun` | backend/src/application/services.py:672-719 | the statements of the claim amount to the atomic claim step, errors and lost claims included |
| `RunService.RunApplicationService.AppendEvent` | backend/src/application/services.py:721-734 | the unconditional append, equal to its atomic step |
| `RunService.RunApplicationService.AppendExecutionEvent` | backend/src/application/services.py:758-782 | the append that is refused unless the run is running |
| `RunService.RunApplicationService.CancelRun` | backend/src/application/services.py:432-462 | the cancel transaction with its roll-back, equal to its atomic step |
| `RunService.RunApplicationService.CompleteFailure` | backend/src/application/services.py:878-907 | the failure transaction with its roll-back |
| `RunService.RunApplicationService.CompleteSuccess` | backend/src/application/services.py:784-827 | the diagnosis success transaction with its roll-back |
| `RunService.RunApplicationService.CompleteMainSuccess` | backend/src/application/services.py:829-876 | the main-agent success transaction: re-validation, content check, delivery, message, status, event, all or nothing |
| `RunService.RunApplicationService.InsertRun` | backend/src/application/services.py:613-659 | the inserts of acceptance take place together or, when a unique constraint refuses one, not at all |
| `RunService.RunApplicationService.AcceptRun` | backend/src/application/services.py:232-297 | one accept call, with its re-read after a refused commit |
| `RunService.RunApplicationService.ExecuteRun` | backend/src/application/services.py:299-416 | execution of a main-agent run, database and reply: claim, the loop over the guarded stream, and the failure paths |
| `RunService.UndisturbedRunTellsItsStory` | backend/src/application/services.py:299-416 | a run executed without interference ends with exactly RUN_QUEUED, RUN_STARTED, the executor's events in order, RUN_SUCCEEDED |
| `RunAcceptance.RacingAcceptsAgree` | backend/src/application/services.py:232-297 | racing accepts: every call that does not fail returns the run stored under its scope, with the stored fingerprint and kind; equal scopes get one run and only one call creates it |
| `RunAcceptance.CreatedAsAsked` | backend/src/application/services.py:560-659 | what a call inserts is what was asked for: scope, kind, message text, chosen service and frozen input of the request, or for a rerun those of its ended source, in an unarchived session and under a free key |
| `RunAcceptance.OnlyFreeScopesCreate` | backend/src/application/services.py:560-659 | a run appears only by a commit into a free scope, under that call's own fingerprint |
| `RunAcceptance.TakenScopeNeverChanges` | backend/src/application/services.py:269-297 | once a scope is taken, no later call with another fingerprint succeeds on it and every later success returns the same run |
| `RunAcceptance.TakenScopeAnswers` | backend/src/application/services.py:269-297 | in every reachable state a call on a taken scope, at its first read or after a lost race, gets the stored run exactly for the same fingerprint and kind, else a conflict |
| `RunAcceptance.LostRaceFindsItsKey` | backend/src/application/services.py:232-297 | with fresh ids a commit is refused if and only if the scope was taken meanwhile, and then nothing was written |
| `RunAdmission.AcceptedIffInOrder` | backend/src/application/services.py:560-659 | in every reachable state a call with fresh ids creates its run if and only if its scope is free and the request is in order: an open session, a query or an ended source, a service where one is called for, for a main-agent call nothing sensitive, a fitting query, texts, ids and context; then message, run, input, key and RUN_QUEUED row are stored as asked, and otherwise nothing |
| `RunAdmission.TakenScopeTellsTheSameRequest` | backend/src/application/services.py:585-596 | a call in order on a taken scope gets the stored run if and only if that was asked for in the same words and kind, else a conflict |
| `RunAdmission.LoserIsAnswered` | backend/src/application/services.py:269-297 | a call that lost the race for its scope gets the same answer from its re-read |
| `RunAdmission.RefusalSaysWhy` | backend/src/application/services.py:491-604 | a call on a free scope that is not in order is refused with the error of the first condition it misses, and writes nothing |
| `RunAcceptance.CountsAgree` | backend/src/application/services.py:613-659 | in every reachable state runs and idempotency keys are equally many and pair up one to one; RUN_QUEUED events, whoever wrote them, are at least as many, and exactly as many if and only if no append of a RUN_QUEUED took effect |
| `RunAcceptance.RerunChains` | backend/src/application/services.py:491-528 | reruns form no cycle, every source had ended, and along any chain of main-agent reruns query, texts, digests, rule version and context are the root's |
| `RunAcceptance.StoredInputsSuffice` | backend/src/application/services.py:491-528 | a stored run can always be claimed without an error; a rerun can be prepared if and only if its source has ended and, for a diagnosis, its editable message is still a valid query |
| `RunAcceptance.FingerprintCollisions` | backend/src/application/services.py:1009-1012 | two diagnosis requests share a fingerprint if and only if query and service agree or one spells the other's service as the last line of its query |
| `RunAcceptance.IndistinctRequestsShareARun` | backend/src/application/services.py:560-612 | after an accepted diagnosis call a second one on its scope gets the same run as a replay if and only if the two requests are indistinct in that sense, else a conflict |
| `RunAcceptance.CollidingCallsShareARun` | backend/src/application/services.py:1009-1012 | a concrete pair: the run of a call about service db answers a call that names no service |
| `RunAcceptance.RerunFingerprintIsFaithful` | backend/src/application/services.py:1015-1018 | two diagnosis rerun fingerprints agree if and only if source, stripped query and service name agree |
| `Replay.ReplayRunEvents` | backend/src/api/v1/sse.py:24-54 | the polling loop sends what the specification says, for any steps of other parties around its two reads |
| `Replay.SendPage` | backend/src/api/v1/sse.py:46-50 | a page goes out up to and including its first terminal event |
| `Replay.ReplayIsFaithful` | backend/src/api/v1/sse.py:24-54 | committed events in order from cursor + 1 without gap, nothing after a terminal event; on closing everything up to the first terminal event has been sent if and only if at the last poll the log ended within one page behind the cursor or had a terminal event there |
| `Replay.EveryPollSends` | backend/src/api/v1/sse.py:24-54 | every poll of a stored run sends the next events of the log it reads, a hundred at most and none behind a terminal one; then the stream closes behind that event, closes for a run seen ended, or goes on from there |
| `Replay.ShortLogsAreDelivered` | backend/src/api/v1/sse.py:16-54 | while at most 100 events lie beyond the cursor, a closed stream ends with the terminal event |
| `Replay.ShortMainAgentLogsEndTerminal` | backend/src/api/v1/sse.py:16-54 | when a main-agent run's log never outgrows a page, every client that is not past its end gets the terminal event before the stream closes |
| `Replay.LongLogIsCutShort` | backend/src/api/v1/sse.py:52-53 | a concrete run of 103 events whose reader gets 100 of them and no terminal event |
| `AgentBudget.MainAgentBudget.StartModelDecision` | backend/src/core/main_agent_budget.py:54-63 | a decision is charged and granted exactly when count and time allow |
| `AgentBudget.MainAgentBudget.RecordKnowledgeLoad` | backend/src/core/main_agent_budget.py:69-73 | a load is counted, or refused when the loads are used up |
| `AgentBudget.MainAgentBudget.StartCall` | backend/src/core/main_agent_budget.py:75-84 | a tool call is charged and granted exactly when count and time allow |
| `AgentBudget.LimitsHold` | backend/src/core/main_agent_budget.py:27-84 | no sequence of charges at any clock readings exceeds a limit or moves the deadline |
| `AgentBudget.GrantsEndByTheDeadline` | backend/src/core/main_agent_budget.py:54-84 | a granted call has positive time, at most its cap, and ends by the deadline; clipped means the deadline bounds it |
| `ReactKernel.EveryRunEnds` | backend/src/core/main_agent_react.py:195-261 | for every model, skill source, tool, canceller and clock a run ends within 13 node visits with exactly one of delivery, failure, cancellation; steps, loads, tool calls, observations, degradations and signals are bounded and agree with the budget |
| `ReactKernel.OutcomeIsOneThing` | backend/src/core/main_agent_react.py:811-837 | the outcome carries one verdict; used capabilities are the loads followed by at most one successful call, which exists exactly for a comparison |
| `ReactKernel.EveryVisitIsOk` | backend/src/core/main_agent_react.py:267-722 | the counters agree at every single node visit, not only at the end |
| `ReactKernel.ObservationCapIsUnreachable` | backend/src/core/main_agent_react.py:404-412 | with at most six decisions the observation cap of the load node never fires |
| `ReactKernel.RunIsStepped` | backend/src/core/main_agent_react.py:213-226 | the whole run is the run stepped through visit by visit |
| `ReactKernel.DeliveriesSayWhatHappened` | backend/src/core/main_agent_react.py:319-370 | with any skill source and tool: an answer is grounded if and only if a skill was loaded, in the last one, and is accepted on re-validation if and only if that is the declared skill; requests name the missing sides; comparisons are valid and of this run |
| `ReactKernel.CallDeliversTheComparison` | backend/src/core/main_agent_react.py:506-657 | a call of the bound tool on the run's own texts delivers exactly their comparison under the tool's id and version, and fails as an unavailable tool if and only if there is no comparison |
| `ReactKernel.EveryDeliveryIsAccepted` | backend/src/core/main_agent_react.py:319-657 | with an honest skill source and tool every delivery passes validate_main_delivery for the same snapshot and registry |
| `KernelEndings.EndingsTellWhy` | backend/src/core/main_agent_react.py:267-657 | the last visit of every run tells its ending and is told by it: cancelled, each of the six failures, an answer, a question, a comparison, each if and only if its condition on the model, the registry, the frozen texts, the budget and the clock held |
| `KernelEndings.AnswerIsTheModels` | backend/src/core/main_agent_react.py:319-342 | a run delivers an answer if and only if the model was heard with it at the last decision and it can be represented; the text is the model's own, grounded in the skill loaded last, if any |
| `KernelEndings.AnswerIsDelivered` | backend/src/core/main_agent_react.py:267-342 | whenever the model is heard with a representable answer the run ends two visits later with that text |
| `KernelEndings.DecisionIsCarriedOut` | backend/src/core/main_agent_react.py:659-671 | a decision the model is heard with is carried out by its node, as it was given; without one the run ends |
| `KernelEndings.NodeWasDecided` | backend/src/core/main_agent_react.py:659-671 | whatever node stands after a decision stands there for the decision of the visit before |
| `KernelEndings.LoadIsSeen` | backend/src/core/main_agent_react.py:372-474 | a skill is loaded, or noted as unavailable, if and only if its capability is in use, there is room and time, and it was not found unavailable before; the next decision sees it |
| `KernelEndings.SignalsSayWhatHappened` | backend/src/core/main_agent_react.py:195-226 | the signals are those of the visits in order, and each visit signals its step, what became of it, the capability decided on and what a called tool reported |
| `ReactKernelLoop.MainReactKernel.RunDecideNode` | backend/src/core/main_agent_react.py:267-317 | the decide node on the mutable budget computes the specified update |
| `ReactKernelLoop.MainReactKernel.RunLoadSkillNode` | backend/src/core/main_agent_react.py:372-474 | the load node with its checks in order, its search for a repeated degradation and its charge |
| `ReactKernelLoop.MainReactKernel.RunInvokeNode` | backend/src/core/main_agent_react.py:476-657 | the invoke node with its charge and its checks |
| `ReactKernelLoop.MainReactKernel.Stream` | backend/src/core/main_agent_react.py:195-226 | the folding loop yields the run's signals, sets its outcome and leaves the budget as specified |
| `CapabilityProjection.SafeEventData` | backend/src/application/services.py:1045-1123 | the stored fields are exactly the whitelisted ones, with the executor's values, plus the node and the neutral tool summary |
| `CapabilityProjection.StoredValuesAreFit` | backend/src/application/services.py:1045-1123 | each stored value is the executor's own and fit, and every fit one is stored: role, status, duration, mode, a service of the session's, a known capability with version and kind, decision, outcome, steps; nothing under another name |
| `CapabilityProjection.ToolSummariesAreNeutral` | backend/src/application/services.py:1045-1066 | a tool event never stores the executor's own summary but the fixed text of its status; any other event stores its summary of 1 to 280 characters |
| `CapabilityProjection.MainCapabilityProjection` | backend/src/api/v1/resources.py:176-316 | the loop over events and the removal of used keys compute the specified summary |
| `CapabilitySummary.SummaryTellsTheLog` | backend/src/api/v1/resources.py:176-317 | for any stored events: nothing before the end of the run; unreadable if and only if the log is not to be had or some event is damaged or ill-formed; else the uses and degradations as last reported, the delivered use over them, and the steps of the last AGENT_DONE or the highest of a route |
| `CapabilityProjection.SignalFolds` | backend/src/infrastructure/agent_runtime/run_executor.py:205-238 | what one kernel signal does to the summary after it was turned into an event and whitelisted |
| `CapabilityProjection.OutcomeWordTells` | backend/src/infrastructure/agent_runtime/run_executor.py:148-177 | the reported outcome word is comparison, answer with or without knowledge, request for input or exhausted budget if and only if that is what the kernel did |
| `KernelSummary.ProjectionIsTheKernels` | backend/src/api/v1/resources.py:176-316 | the summary of a run is unreadable if and only if a registered capability was named with a version outside 1..1,000,000 or the uncancelled run took no step; otherwise its used entries are the kernel's uses with kind and status, its degraded entries the kernel's less the used ones, plus at most the capability a failed run failed on |
| `KernelSummary.BigVersionIsUnreadable` | backend/src/api/v1/resources.py:204-316 | a concrete run: the model names a registered skill with version 1,000,001 and the summary is unreadable |
| `KernelSummary.VersionsInRangeAreKept` | backend/src/core/main_agent_decisions.py:61-74 | when the model's decisions name registered capabilities with versions from 1 to 1,000,000 only, no version is dropped |
| `KernelSummary.ZeroStepsMeansRefused` | backend/src/core/main_agent_react.py:267-277 | an uncancelled run takes no step if and only if its first decision was refused: none allowed, or the deadline had passed |
| `KernelSummary.MainAgentLogFitsOnePage` | backend/src/infrastructure/agent_runtime/run_executor.py:148-177 | in every reachable database the log of a main-agent run whose worker goes through a kernel run's events has at most twelve rows, however clients and cancellers interleave |
| `KernelSummary.MainAgentReaderGetsTheEnd` | backend/src/api/v1/sse.py:24-54 | so every reader of such a run that is not past its end gets the terminal event before the stream closes |
| `KernelSummary.ExecutedLogFitsOnePage` | backend/src/application/services.py:299-416 | one worker executing a queued run on a kernel run's signals leaves at most twelve rows |
| `ControlledAction.GoKeepsOk` | backend/src/application/action_services.py:216-703 | every request, worker step and crash keeps proposal, approval, execution, verification, keys, log and call counts in agreement |
| `ControlledAction.LogIsDeterminedByStatus` | backend/src/application/action_services.py:276-703 | in every reachable state, crashes included, the event log is the one the pair of statuses determines; a verified proposal, and only it, has the full eight-event trace |
| `ControlledAction.LogTellsTheStatus` | backend/scripts/verify_p8_s2.py:664-687 | conversely the log determines the pair of statuses, approved and rejected aside |
| `ControlledAction.ExecutedAtMostOnce` | backend/src/application/action_services.py:241-274 | the executor acts at most once per proposal, only under an approval of its own digest and a request made before it expired; it checks at most once and only after success |
| `ControlledAction.CallsAreAllowed` | backend/src/application/action_services.py:241-274 | at the very step of each call the stored rows already allow it, and no earlier call was made |
| `ControlledAction.RepliesAgree` | backend/src/application/action_services.py:353-475 | all execution requests answered for a proposal got the same execution |
| `ControlledAction.KeyAnswersTheSame` | backend/src/application/action_services.py:361-370 | a key that was answered once is answered the same in every later state, without a change |
| `ControlledAction.IgnoredOutcomesAreSuccesses` | backend/src/application/action_services.py:602-703 | the compare-and-sets whose outcome the code ignores succeed whenever a worker reaches them |
| `ActionOutcomes.CreateOutcome` | backend/src/application/action_services.py:117-166 | a proposal is stored once, pending and with its first event |
| `ActionOutcomes.DecideOutcome` | backend/src/application/action_services.py:276-351 | in every reachable state: a used key replays the proposal for the same payload and conflicts for another; under an unused key a decision is refused if and only if the proposal is unknown or not pending, and else it is approved for 900 seconds or rejected, with approval, key and one event |
| `ActionOutcomes.RequestOutcome` | backend/src/application/action_services.py:353-431 | a used key answers with the proposal's execution; under an unused key one is granted exactly for an approved proposal before its expiry, which is stored as expired from then on |
| `ActionOutcomes.RereadOutcome` | backend/src/application/action_services.py:455-475 | the re-read after a refused commit answers with the proposal's execution exactly for a used key |
| `ActionOutcomes.ClaimOutcome` | backend/src/application/action_services.py:477-503 | an execution is claimed exactly when its proposal is executing and it is still queued |
| `ActionOutcomes.WorkOutcome` | backend/src/application/action_services.py:505-703 | no transaction of a worker past its claim is ever refused; each sets its own statuses, verification row and events, changes nothing else, and the worker goes on as told |
| `ActionOutcomes.RepairGoesThrough` | backend/src/application/action_services.py:216-274 | from any reachable state a new proposal that is approved, requested within 900 seconds and executed undisturbed ends as the executor's two answers say; when both succeed it is verified with the eight events of a complete repair |
| `ActionService.ActionApplicationService.DecideProposal` | backend/src/application/action_services.py:276-351 | the decision transaction, equal to its atomic step |
| `ActionService.ActionApplicationService.Request` | backend/src/application/action_services.py:353-431 | the execution request, the stored expiry and the roll-back included |
| `ActionService.ActionApplicationService.Claim` | backend/src/application/action_services.py:477-503 | the worker's claim |
| `ActionService.ActionApplicationService.RecordExecutionSuccess` | backend/src/application/action_services.py:505-536 | status and two events, or nothing |
| `ActionService.ActionApplicationService.BeginVerification` | backend/src/application/action_services.py:538-563 | the move to verifying with its event |
| `ActionService.ActionApplicationService.EndVerified` | backend/src/application/action_services.py:565-600 | verification row, status and event, or nothing |
| `ActionService.ActionApplicationService.EndUnverified` | backend/src/application/action_services.py:602-636 | the failed verification, its status change unchecked as in the source |
| `ActionService.ActionApplicationService.EndExecution` | backend/src/application/action_services.py:668-703 | the blocked or failed execution, both status changes unchecked |
| `ActionService.ActionApplicationService.Execute` | backend/src/application/action_services.py:241-274 | the background execution in sequence, with the number of executor calls |
| `ActionService.ExecuteIsOneInterleaving` | backend/src/application/action_services.py:241-274 | that sequence is one of the interleavings the safety results cover |
| `ServiceRegistration.TablesAgree` | backend/src/application/service_registration.py:154-268 | outside the one id whose writer is between commit and map update, an id is registered if and only if it has a row, and its connector was built from that row |
| `ServiceRegistration.ListSeesWholeTable` | backend/src/domain/services.py:396-448 | whoever reads the whole table sees the environment and the rows less the poisoned ids, never the window |
| `ServiceRegistration.GetSeesItsRow` | backend/src/domain/services.py:405-410 | whoever reads one entry sees the connector of its current row or of the environment |
| `ServiceRegistration.EnvironmentIsSafe` | backend/src/application/service_registration.py:154-268 | an environment entry is never removed, replaced, registered or poisoned |
| `ServiceRegistration.OnlyFailedCreatesPoison` | backend/src/application/service_registration.py:188-268 | after a commit the map update always succeeds; only a create whose transaction raised ValueError poisons |
| `ServiceRegistration.EpochBeforeEntry` | backend/src/domain/services.py:497-506 | a thread that waits for the epoch holds no entry lock |
| `ServiceRegistration.SomeoneCanStep` | backend/src/domain/services.py:497-506 | no deadlock: while some thread is not idle, some thread can go on |
| `ServiceRegistration.WriterAlone` | backend/src/application/service_registration.py:154-268 | a writer nobody interferes with changes row, connector and registration together, or nothing when refused, returns both locks and is idle; the sequential methods compute the same tables |
| `ServiceRegistry.ServiceRegistry.Register` | backend/src/domain/services.py:455-465 | a free id gets its connector and is registered; a taken one changes nothing |
| `ServiceRegistry.ServiceRegistry.Replace` | backend/src/domain/services.py:467-477 | the connector is replaced exactly when it is present and the expected one |
| `ServiceRegistry.ServiceRegistry.Remove` | backend/src/domain/services.py:479-490 | connector and registration go exactly when it is present and the expected one |
| `ServiceRegistry.ServiceRegistry.ServiceIds` | backend/src/domain/services.py:445-448 | the ids with a connector that are not poisoned |
| `ServiceRegistry.ServiceRegistrationApplicationService.CreateService` | backend/src/application/service_registration.py:154-199 | row and connector appear together exactly when the id is new and the transaction commits; rows, connectors and registrations stay consistent |
| `ServiceRegistry.ServiceRegistrationApplicationService.UpdateService` | backend/src/application/service_registration.py:201-251 | row and connector change together exactly for a visible registered id |
| `ServiceRegistry.ServiceRegistrationApplicationService.DeleteService` | backend/src/application/service_registration.py:253-268 | row, connector and registration go together; an id without a row is left alone |
| `StreamGuard.GuardFiniteStream` | backend/src/application/runtime_safety.py:77-126 | the leading events in order, then exactly one closing signal |
| `StreamGuard.ClosingIsOwnOrGuardMade` | backend/src/application/runtime_safety.py:77-126 | for events, one terminal, normal end the closing signal is the source's own; for any other source it is one of the guard's failures |
| `StreamGuard.RunSignalsEndOnce` | backend/src/application/runtime_safety.py:171-206 | the guarded run stream is the source's own events, unchanged and in order up to its first other item, and then exactly one signal that is not an event, whatever the executor does |
| `StreamGuard.RuntimeSignalsEndOnce` | backend/src/application/runtime_safety.py:129-168 | the same for the guarded legacy stream |
| `StreamGuard.SuccessOnlyWhenEarned` | backend/src/application/runtime_safety.py:171-206 | a result or delivery comes out if and only if the executor yielded events, that value, and ended normally |
| `StreamGuard.FailureCodesAreTheExecutors` | backend/src/application/runtime_safety.py:180-206 | a non-default failure code comes out if and only if the executor yielded it as its only terminal or raised it before one |
| `StreamGuard.RuntimeSuccessOnlyWhenEarned` | backend/src/application/runtime_safety.py:129-168 | the same for the legacy stream, whose failure texts always come from the closed code |
| `StreamGuard.RuntimeFailureCodes` | backend/src/application/runtime_safety.py:129-168 | each failure code but the protocol's own comes out if and only if the source ended with it or raised the exception it stands for at a place the guard honours |
| `ShortTermMemory.ShortTermMemory.AddMessage` | backend/src/memory/short_term.py:21-27 | after every message, system messages included, the window is all system messages followed by the one-shot trimming of the full history |
| `ShortTermMemory.ShortTermMemory.Trim` | backend/src/memory/short_term.py:29-56 | the counting and skipping loops compute the one-shot trimming of the current messages |
| `ShortTermMemory.WindowIsIncremental` | backend/src/memory/short_term.py:21-56 | trimming message by message equals trimming once, for every limit |
| `ShortTermMemory.WindowSize` | backend/src/memory/short_term.py:42-54 | a suffix with the last max_rounds user messages is kept; a negative limit trims nothing |
| `KnowledgeReader.FindSnippets` | backend/src/knowledge/reader.py:129-148 | the hit count of a non-empty keyword is the largest number of pairwise non-overlapping occurrences; at most two snippets around the first hits |
| `KnowledgeReader.SquashTidies` | backend/src/knowledge/reader.py:140-147 | a squashed snippet keeps all other characters in order, has white space as single blanks between two of them only, and has one between two of them if and only if the text had white space there |
| `KnowledgeReader.SnippetsShowTheFirstHits` | backend/src/knowledge/reader.py:129-148 | the snippets are those of the first occurrence and of the first one behind it, each the tidied text from 60 characters before to 60 after; blank ones are left out |
| `KnowledgeReader.SnippetHoldsItsHit` | backend/src/knowledge/reader.py:140-147 | when lower-casing keeps the length, every snippet holds the tidied characters of its hit |
| `KnowledgeReader.MostApart` | backend/src/knowledge/reader.py:131-139 | the greedy search finds as many non-overlapping occurrences as any selection; an empty keyword hits every position |
| `KnowledgeReader.ListDocuments` | backend/src/knowledge/reader.py:181-197 | the listable documents in order |
| `KnowledgeReader.ListingIsComplete` | backend/src/knowledge/reader.py:181-231 | the listing shows exactly the documents with text, without a key in plain text and with a name after the cursor, in the order of the directory |
| `KnowledgeReader.AfterIsLexicographic` | backend/src/knowledge/reader.py:200-231 | a name comes after another one in code point order |
| `KnowledgeReader.ListDocumentsPage` | backend/src/knowledge/reader.py:200-231 | the first of the listed documents after the cursor, as many as the limit and at least one, and the last name as cursor exactly when the page is full |
| `KnowledgeReader.PagesAreTheListing` | backend/src/knowledge/reader.py:200-231 | the chained pages give the whole listing for every page size if and only if no two listed documents share a relative name |
| `KnowledgeReader.SameNameIsLost` | backend/src/knowledge/reader.py:217-229 | two documents of one name and page size 1: the second is on no page |
| `MainContext.SelectMainContext` | backend/src/application/services.py:921-967 | gathering, sorting and selecting in loops from the messages the runs contribute; the result always passes the snapshot's context validator |
| `MainContext.SortIsPermutation` | backend/src/application/services.py:945 | the sort gives the same messages in order of time and id |
| `MainContext.SelectionKeepsWhatFits` | backend/src/application/services.py:946-957 | the selection is a subsequence in time order; each kept message has a character, at most three newer ones were kept, and with them it stays within 2000 characters; no message passed over would have |
| `MainContext.FourNewestRunsAreGathered` | backend/src/application/services.py:921-944 | the candidates are the two messages of each of the four newest runs that have any |
| `ContextSource.SelectContext` | backend/src/application/services.py:910-967 | the same from the tables: the session's latest sixteen runs, of them the succeeded answers and questions with a live input and a live assistant message |
| `ContextSource.NewestRunsAreConsidered` | backend/src/application/services.py:910-945 | in every reachable state the candidates are exactly the inputs and first live answers of the four newest runs that can be quoted among the session's last sixteen, a run being quotable by its rows alone |
| `ContextSource.SelectedIsKnown` | backend/src/application/services.py:920-944 | every selected message is the input or the answer of such a run of the session |
| `ContextSource.FrozenContextsComeFromEarlierRuns` | backend/src/application/services.py:910-967 | over every interleaving of accepts, reruns, workers and edits, every message ever frozen into a run is the input or the very answer of a succeeded answering or asking run of the same session that was accepted before it |

## Left out

- Model calls, prompts, mock scenarios, keyword routing, debate, reflection and report generation: the model is an arbitrary source of decisions.
- SHA-256 is taken as injective, UUIDs as given ids that the unique constraints check; encryption, JSON and base64 do not occur.
- Weaker isolation than one atomic step per transaction, and storage faults other than refused commits.
- Credential and redaction checks: on run input before acceptance they only add refusals; on the context and on the rendered assistant message their outcome is the flag `sensitive`.
- `requires_database_context` and lower-casing: an arbitrary flag of each accept call, and an arbitrary lowered text for snippet search.
- Creating a proposal inside the success transaction, and the matching of facts that leads to it: proposals appear at any time.
- The execution path without an executor, which ignores a failed compare-and-set and can repeat events.
- Liveness after a crash: an execution left running stays running.
- Session titles and activity times, message timestamps, event payload texts, durations and error messages.
- Signal summary texts of the executor; the whitelist is modelled for every field they could use.
- `ServiceRegistry.ServiceRegistry`: the order of the connector table, binding resolution and the locks, which are in the concurrent model; the outcome of a connector's validation is a flag, true for connectors built from rows.
- `Capabilities.CapabilityRegistry.Catalog`: the order of the catalogue, by id; it is kept as a map.
- `RunService.RunApplicationService.CompleteSuccess`: creating an action proposal inside the transaction, which changes no run table.
- `RunService.RunApplicationService.ExecuteRun`: diagnosis runs, whose worker is `LegacyWorker`; a result signal on a main-agent run is one of the failures.
- `MainContext.SelectMainContext`: which runs are eligible, which is `ContextSource.SelectContext`.
- `ReactKernel.FinalizeAnswerStep`: a grounding that fails its own validator, which in the source is raised outside the node's `try` and ends the whole execution; the model counts it as an invalid delivery.
- `ActionService.ActionApplicationService.DecideProposal`: the re-read after a refused commit, which answers like the first read on the same rows.
- `CapabilityProjection.MainCapabilityProjection`: the order of the two lists, kept as maps.
- Redis, MySQL and PostgreSQL connectors, monitoring, audit lookups, exports, log sources, configuration, routes, schemas and the frontend.
