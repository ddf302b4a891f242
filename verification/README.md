# Verified models of the foresight predictor and the pi agent

A Dafny 4.11 project that models the stateful and arithmetical cores of the repository and proves what they
promise. `dafny verify dfyconfig.toml` checks everything.

- **Agent runs** (`AgentMessages`, `AgentTrace`, `Agent`, `ToolChanges`, `ToolBatch`, `ToolExecution`,
  `RunHistory`, `RunTrace`, `AgentLoop`). The agent is a class whose reducer folds the events of a run; the loop, its
  tool executors and the two message queues are methods over it. An arbitrary script says what model, hooks, tools and
  abort signal answer in each turn; interleavings and queue arrivals are arbitrary. Every run is tied to a recorded
  history of turns that plays the script. The theorems of `RunHistory` and `RunTrace` hold of every such history: the
  event grammar, the agreement of the three transcripts, queue conservation, what stops a run and what makes it go on.
- **Probabilities** (`Probability`, `Isotonic`, `Calibrator`, `Ensemble`), over exact reals. Pool-adjacent-violators is proved to
  be the unique least-squares fit, the weighted median to be the least minimiser of the weighted deviation, and
  the whole post-processing chain to be monotone.
- **Streaming and compilers** (`Proxy`, `Pricing`, `ModelCatalog`). Each incremental or compiled form is proved
  to refine a simple one: one split of the whole response, a lookup in the price brackets, an order on versions.
- **The question life cycle** (`Questions`, `QuestionStore`, `ResolutionRounds`, `ManualRounds`,
  `DailyRounds`, `Evidence`).
  Tables are maps in classes; the rounds are methods over them, proved to do to each question exactly what clock,
  class and answers say, and to keep the tables consistent over every sequence of rounds. What quotes, language model,
  prediction market and the database's clock answer are parameters, drawn anew for every round.

Where the code and its comments differ, the model follows the code:

- `declareToolChanges` is documented to make replay yield exactly `context.tools`. Name by name this holds exactly
  when no list entry is shadowed by a later duplicate (`ToolChanges.ReplayIsExact`); the order is exact only when
  the names are unique and the surviving declarations lead the list (`ToolChanges.ReplayOrderIsExact`).
  `ToolChanges.ShadowedDuplicateIsLost` and `ToolChanges.ReorderedToolsStayPut` are failing inputs.
- `compareModelCatalogPiVersions` is documented as semver precedence. Numeric identifiers with leading zeros, which
  Semantic Versioning forbids but the parser admits, compare as equal and hide what follows them, so the order is
  then not transitive (`ModelCatalog.TransitiveExactlyWithoutTies`).
- One-at-a-time mode promises one queued message per turn. `runLoop` keeps that for what it polls, but a `continue`
  that starts with a queued follow-up still makes the initial steering poll, so steering that arrives before it joins
  the follow-up in the first turn. `AgentLoop.ContinueAgent` states exactly when, and
  `AgentLoop.FollowUpAndSteeringShareATurn` is such a run.
- `auto_resolve` explains every missing verdict by a market window, whatever the class. That fits the question's
  resolver exactly for class A questions that state a time zone (`Questions.ReasonsMatchExactlyForClassA`); without
  one the log calls the resolver's waiting day undecidable and its window passed, and for class B, whose resolver may
  decide throughout the grace period, it says "passed" too early (`Questions.ClassBLogMisleads`).
- Evidence ids are documented to name existing documents always. The migration redirects curated references only, so
  the ids stored with predictions stay valid for certain exactly when they name rows every migration keeps
  (`Evidence.CitationsSurviveExactlyWhenSafe`); `Evidence.MigrationCanLoseEvidence` is a failing table.

## Model

| member | source | states |
|---|---|---|
| `Isotonic.MergeKeepsBlockOk` | src/predictor/calibration/isotonic.py:34-44 | merging two blocks whose values fall keeps what optimality and uniqueness rest on: every proper prefix of the merged block has a mean strictly above its value |
| `Isotonic.PoolAdjacent` | src/predictor/calibration/isotonic.py:23-44 | the stack partitions the sorted samples, in order, into blocks of non-decreasing value that all have that prefix property; it is the only such stack (PooledIsUnique) |
| `Isotonic.PooledIsUnique` | src/predictor/calibration/isotonic.py:23-44 | two stacks of non-decreasing value with that property over the same samples are the same blocks, so equal values are never merged |
| `Isotonic.ValueIsFrequency` | src/predictor/calibration/isotonic.py:15-17 | a block's value is the share of its outcomes that are true |
| `Isotonic.BlockOptimal` | src/predictor/calibration/isotonic.py:34-44 | on one block no non-decreasing sequence has less squared error than the block's constant value, by at least the squared distance between the two |
| `Isotonic.FitIsOptimal` | src/predictor/calibration/isotonic.py:22-44 | the block values beat every non-decreasing sequence in squared error, with a margin of their squared distance |
| `Isotonic.FitIsFeasible` | src/predictor/calibration/isotonic.py:22-44 | the block values are themselves non-decreasing along the samples |
| `Isotonic.PooledIsTheLeastSquaresFit` | src/predictor/calibration/isotonic.py:20-44 | the fitted values are the least-squares optimum among all non-decreasing sequences, and the only one |
| `Calibrator.FillBuckets` | src/predictor/calibration/isotonic.py:50-54 | the dictionary holds, for every x, the value and size of exactly the blocks that start or end there, in order |
| `Calibrator.CollectSteps` | src/predictor/calibration/isotonic.py:50-58 | one step for each x at which a block starts or ends, in rising x, at the size-weighted mean of the blocks touching x |
| `Calibrator.StepsBalance` | src/predictor/calibration/isotonic.py:50-58 | on the blocks themselves: steps stand exactly at the ends of blocks, and each balances the samples of all blocks with an end there |
| `Calibrator.StepsAreACalibrator` | src/predictor/calibration/isotonic.py:50-59 | the steps strictly increase in x and never decrease in y, which stays within [0, 1], also where one x ends one block and starts the next |
| `Calibrator.FitIsotonic` | src/predictor/calibration/isotonic.py:20-59 | the stable sort of the samples, the pooled stack and its steps, end to end: a calibrator built on the least-squares fit, and the only result that meets this contract; fails exactly when an outcome is missing |
| `Calibrator.FitIsUnique` | src/predictor/calibration/isotonic.py:20-59 | whatever blocks and steps meet the contract of the fit on the same samples are those it returns |
| `Calibrator.Apply` | src/predictor/calibration/isotonic.py:66-73 | the search returns the clamped mean of the step below p and the step at or above p; without steps it raises |
| `Calibrator.LevelIsMidway` | src/predictor/calibration/isotonic.py:66-73 | between two steps, and at the upper one, the result is midway between the two; outside them it is the nearest step |
| `Calibrator.LevelMonotone` | src/predictor/calibration/isotonic.py:66-73 | a calibrator never reorders two probabilities |
| `Ensemble.WeightedMedian` | src/predictor/inference/ensemble.py:6-14 | over positive weights the scan returns an input value with less than half of the weight strictly below it and at least half at or below it |
| `Ensemble.MedianMinimises` | src/predictor/inference/ensemble.py:6-14 | that value minimises the weighted sum of absolute deviations over all reals, and is the least minimiser |
| `Ensemble.MedianUnique` | src/predictor/inference/ensemble.py:6-14 | two lists with the same pairs, in any order, have the same lower median |
| `Ensemble.MedianMonotone` | src/predictor/inference/ensemble.py:6-14 | raising values at unchanged weights never lowers the median |
| `Ensemble.Combine` | src/predictor/inference/ensemble.py:32-42 | no runs give 0.5; otherwise, for positive weights, the clamped lower median, unknown models weighing as much as the lightest known one |
| `Ensemble.EnsembleMonotone` | src/predictor/inference/ensemble.py:32-42 | raising any runs' probabilities never lowers the ensemble |
| `Ensemble.ExtremizeMonotone` | src/predictor/calibration/postprocess.py:6-8 | extremizing keeps the order of every two probabilities exactly when alpha is at least -1, and then of any two reals |
| `Ensemble.ExtremizeScales` | src/predictor/calibration/postprocess.py:2-8 | one half stays, any other probability has its distance to one half scaled by 1 + alpha, up to the clamp at 0.01 and 0.99 |
| `Ensemble.PredictionMonotone` | src/predictor/pipeline.py:87-89 | ensemble, extremize and calibrate together never lower the prediction when runs are raised |
| `Ensemble.FinishIsMidway` | src/predictor/pipeline.py:87-89 | the combined value is extremized first and then looked up, midway between the steps around the extremized value |
| `ToolChanges.CurrentToolsUnique` | shell/pi/packages/ai/src/utils/transcript.ts:58-66 | replaying a transcript never lists a tool name twice |
| `ToolChanges.SetInPlace` | shell/pi/packages/ai/src/utils/transcript.ts:58-66 | adding a declared name overwrites its entry where it stands; a new one is appended |
| `ToolChanges.DeleteInPlace` | shell/pi/packages/ai/src/utils/transcript.ts:58-66 | removing a name closes the gap of its entry and leaves the rest in order |
| `ToolChanges.DifferenceIsExact` | shell/pi/packages/ai/src/utils/transcript.ts:150-167 | applying the difference of two tool states to the first yields the second, name by name, exactly when no duplicate entry is shadowed by a later one of the same name |
| `ToolChanges.DeclaredReplay` | shell/pi/packages/agent/src/agent-loop.ts:342-372 | in every branch, replaying the transcript followed by the result applies exactly the difference, whatever tool fields the pending system messages carried |
| `ToolChanges.ReplayIsExact` | shell/pi/packages/agent/src/agent-loop.ts:332-372 | replay of transcript and result declares exactly the executable tools, if and only if no entry is shadowed; unique names suffice |
| `ToolChanges.ReplayOrder` | shell/pi/packages/ai/src/utils/transcript.ts:150-167 | the replayed list is the surviving declarations in their old order, then the new ones in theirs |
| `ToolChanges.ReplayOrderIsExact` | shell/pi/packages/agent/src/agent-loop.ts:332-372 | replay of transcript and result yields the tool list itself, order included, exactly when its names are unique and the surviving declarations lead it |
| `ToolChanges.ShadowedDuplicateIsLost` | shell/pi/packages/agent/src/agent-loop.ts:332-341 | a failing input by name: form 1 of a tool is declared, the list holds form 2 and then form 1, and replay declares form 2 |
| `ToolChanges.ReorderedToolsStayPut` | shell/pi/packages/agent/src/agent-loop.ts:332-341 | a failing input by order: a and b are declared, the list holds b and then a, and replay keeps a first |
| `ToolChanges.OnlyToolFieldsChange` | shell/pi/packages/agent/src/agent-loop.ts:362-384 | pending messages are returned unchanged and in order, except for the tool fields of the last system message or one inserted empty system message before the first other message |
| `ToolChanges.SecondCallAddsNothing` | shell/pi/packages/agent/src/agent-loop.ts:356-367 | with unique tool names, once the result is committed a second call with nothing pending returns nothing |
| `AgentState.PendingMessageQueue.Drain` | shell/pi/packages/agent/src/agent.ts:165-175 | a drain takes the peeked prefix: all messages, or the first one in one-at-a-time mode; enqueued stays drained plus queued |
| `AgentState.PendingMessageQueue.Enqueue` | shell/pi/packages/agent/src/agent.ts:157-159 | a message joins the end of the queue |
| `AgentState.Agent.Emit` | shell/pi/packages/agent/src/agent.ts:575-605 | each event keeps the agent's messages, streaming message and pending calls equal to the folds of the run's events |
| `AgentTrace.PendingExactly` | shell/pi/packages/agent/src/agent.ts:590-602 | an id is pending exactly when a call with it started after the last end of one |
| `AgentTrace.StreamingExactly` | shell/pi/packages/agent/src/agent.ts:575-589 | the streaming message is exactly the one last started or updated and not yet ended |
| `AgentState.Agent.PollSteering` | shell/pi/packages/agent/src/agent.ts:506-512 | a steering poll logs what it took; the skipped initial poll leaves the queue alone |
| `AgentState.Agent.Begin` | shell/pi/packages/agent/src/agent.ts:517-531 | a run starts streaming with an empty trace |
| `AgentState.Agent.FinishRun` | shell/pi/packages/agent/src/agent.ts:560-566 | the end of a run clears the streaming flag and the active run and keeps the transcript |
| `ToolBatch.BatchWalks` | shell/pi/packages/agent/src/agent-loop.ts:540-670 | every accepted batch is a legal stretch of a turn: no message events nest and no tool event leaves the turn |
| `ToolBatch.BatchCommits` | shell/pi/packages/agent/src/agent-loop.ts:656-664 | a batch commits only result messages, those of the reported calls in source order |
| `ToolBatch.CompletedResults` | shell/pi/packages/agent/src/agent-loop.ts:656-670 | a completed batch commits exactly one result per finished call, for a prefix of the calls in source order |
| `ToolBatch.CallLifeCycle` | shell/pi/packages/agent/src/agent-loop.ts:831-867 | whatever the other calls do in between, each started call emits its start, its updates, one end and then its one result message, in that order and as far as it has come |
| `ToolBatch.CompletedCallEmits` | shell/pi/packages/agent/src/agent-loop.ts:596-670 | in a completed batch each finished call has emitted start, updates, end and the result of its outcome, and no other call anything |
| `ToolBatch.StartsInOrder` | shell/pi/packages/agent/src/agent-loop.ts:548-654 | of two starts in a batch the earlier one is of the earlier call, so no call starts twice and none overtakes another |
| `ToolBatch.OpenIsRunning` | shell/pi/packages/agent/src/agent.ts:590-602 | an id is pending in the agent's state only while some call with that id is running |
| `ToolBatch.RunningIsPending` | shell/pi/packages/agent/src/agent.ts:590-602 | a running call's id is pending unless another call with that id has ended since it started |
| `ToolBatch.CompletedLeavesNothingOpen` | shell/pi/packages/agent/src/agent.ts:590-602 | a completed batch leaves no call pending, even with repeated call ids |
| `ToolExecution.PrepareToolCall` | shell/pi/packages/agent/src/agent-loop.ts:718-787 | a call is ready to run exactly when its tool exists, validation and hook allow it and the signal has not fired; otherwise it is answered by the first of: missing tool, failure, abort, block |
| `ToolExecution.ExecuteSequential` | shell/pi/packages/agent/src/agent-loop.ts:540-594 | calls run one by one; each reports, field by field, what its own tool answered as afterToolCall replaced it, or why it was refused; the batch stops exactly after the first call by whose end the signal has fired |
| `ToolExecution.FailTruncated` | shell/pi/packages/agent/src/agent-loop.ts:488-513 | no call of a truncated reply runs; each reports the truncation in order |
| `ToolExecution.PreflightAll` | shell/pi/packages/agent/src/agent-loop.ts:606-654 | calls are started and prepared in source order until the signal has fired; immediate answers end at once, the others wait and none is launched |
| `ToolExecution.RunConcurrently` | shell/pi/packages/agent/src/agent-loop.ts:629-658 | every interleaving of launches, updates, returns, ends and aborts keeps the batch accepted and ends with all tasks settled: a launched call reports its own tool's answer, an unlaunched one the abort, a refusal stays as it was |
| `ToolExecution.ExecuteParallel` | shell/pi/packages/agent/src/agent-loop.ts:596-670 | for every interleaving: start, updates, one end, one result per call, in source order; each result is the refusal or, field by field, what that call's own tool and afterToolCall answered, or the abort that kept it from being launched |
| `ToolExecution.ExecuteToolCalls` | shell/pi/packages/agent/src/agent-loop.ts:518-533 | the dispatch between the truncated, sequential and parallel paths, what every call reports, and when the batch asks to terminate |
| `RunHistory.RunFollowsTheProtocol` | shell/pi/packages/agent/src/agent-loop.ts:172-330 | every run's trace obeys the event grammar, and a finished one ends with its only agent_end |
| `RunHistory.TranscriptIsNewMessages` | shell/pi/packages/agent/src/agent-loop.ts:219-287 | the messages a run commits by message_end are exactly newMessages |
| `RunHistory.ContextIsTranscript` | shell/pi/packages/agent/src/agent-loop.ts:219-287 | when no hook replaces the context, the loop's context after every turn is the starting context plus newMessages |
| `RunHistory.DeliveriesAreConserved` | shell/pi/packages/agent/src/agent-loop.ts:185-226 | the messages polled from each queue are the delivered ones in order, then those in hand, and nothing else |
| `RunHistory.DeliveredMessagesAreInjected` | shell/pi/packages/agent/src/agent-loop.ts:219-226 | every prepared or delivered message, system messages included, reaches the transcript in order, changed at most in its tool fields; at most one empty system message is added in front |
| `RunHistory.RequestsDeclareTheirTools` | shell/pi/packages/agent/src/agent-loop.ts:220-251 | at every request whose context no hook overrode, the transcript declares exactly the tools, name by name, if and only if no tool is shadowed by a later one of its name |
| `RunHistory.OneRequestPerTurn` | shell/pi/packages/agent/src/agent-loop.ts:192-252 | a run makes one model request per turn |
| `RunTrace.EndStopsTheRun` | shell/pi/packages/agent/src/agent-loop.ts:295-301 | after an end decision only turn_end and agent_end follow: no poll, preparation or request |
| `RunTrace.FailedReplyStopsTheRun` | shell/pi/packages/agent/src/agent-loop.ts:254-265 | after a reply that failed or was aborted only the decision, turn_end and agent_end follow: no tool, poll or request |
| `RunTrace.DecisionsDecide` | shell/pi/packages/agent/src/agent-loop.ts:295-330 | after any other decision steering is polled, then follow-ups exactly when neither tool results nor steering continue the run; another turn is prepared exactly when tool results that do not all terminate, a non-empty poll or a continue decision ask for one, and otherwise the agent ends |
| `RunTrace.PreparedTurnOnTrace` | shell/pi/packages/agent/src/agent-loop.ts:193-226 | a turn is prepared right after a poll; only if that took nothing is steering polled again before turn_start; then the prepared and the polled messages are committed in this order, and the request follows |
| `RunTrace.FirstTurnOnTrace` | shell/pi/packages/agent/src/agent-loop.ts:185-226 | the first request follows the commit of exactly what the initial poll took |
| `RunTrace.RequestsAreMadeFrom` | shell/pi/packages/agent/src/agent-loop.ts:196-252 | a request is made from the context a hook chose, or else from the previous request with its reply and results, then the injected messages, unless a hook overrides the request |
| `RunTrace.ResultsAreAnswers` | shell/pi/packages/agent/src/agent-loop.ts:540-670 | in every run the k-th result of a turn belongs to its k-th call and reports what that call's own tool answered, or why it was refused, among the tools the reply was asked with |
| `RunTrace.ResultsStopAtAbort` | shell/pi/packages/agent/src/agent-loop.ts:585-587 | every call of a reply has a result unless the signal has fired by the end of the last one reported, and not before |
| `RunHistory.ForcedRequestIsContextOnly` | shell/pi/packages/agent/src/agent-loop.ts:303-323 | a continue decision with no other cause forces one request, which no queued message or tool result supplies |
| `RunHistory.FollowUpsWaitForSteering` | shell/pi/packages/agent/src/agent-loop.ts:304-317 | follow-ups are polled only directly after a steering poll that came back empty |
| `RunHistory.OneQueuedMessagePerTurn` | shell/pi/packages/agent/src/agent-loop.ts:210-226 | when every poll takes at most one message, every turn injects at most one queued message |
| `AgentLoop.StreamAssistantResponse` | shell/pi/packages/agent/src/agent-loop.ts:421-478 | streaming pushes the partial reply and overwrites it in place; the context ends with the final reply |
| `AgentLoop.StreamLeavesOneMessage` | shell/pi/packages/agent/src/agent-loop.ts:424-478 | the context gains exactly the final reply if and only if at most one start event arrives |
| `AgentLoop.EveryPartialIsShown` | shell/pi/packages/agent/src/agent-loop.ts:421-478 | from the start of a reply on, every partial reply of the stream is shown, in order |
| `AgentLoop.RunTurn` | shell/pi/packages/agent/src/agent-loop.ts:193-301 | one inner pass: its events, context, newMessages and decision are those of one recorded turn, which uses exactly what model, hooks and tools answered |
| `AgentLoop.RunLoop` | shell/pi/packages/agent/src/agent-loop.ts:172-330 | over arbitrary scripts of replies, hooks and tool answers and arbitrary arrivals the nested loops produce a legal history that plays the script turn by turn, stop early only at its end, and conserve both queues |
| `AgentLoop.RunAgentLoop` | shell/pi/packages/agent/src/agent-loop.ts:111-135 | the agent's messages are the starting messages plus the loop's newMessages, and every queued message is delivered, in hand or still queued, in order |
| `AgentLoop.RunAgentLoopContinue` | shell/pi/packages/agent/src/agent-loop.ts:137-160 | refused exactly on an empty transcript or one ending with an assistant message; otherwise the same guarantees |
| `AgentLoop.Prompt` | shell/pi/packages/agent/src/agent.ts:382-390 | refused exactly while a run is active; isStreaming holds exactly while a run is active |
| `AgentLoop.ContinueAgent` | shell/pi/packages/agent/src/agent.ts:393-420 | queued steering first, whose initial poll is then skipped, then follow-ups, then the transcript itself; a refusal changes neither messages nor queues; in one-at-a-time mode the first turn injects at most one queued message, exactly unless a follow-up started the run and the initial steering poll took a message too |
| `AgentLoop.ContinueTranscript` | shell/pi/packages/agent/src/agent.ts:457-467 | a continuation without prompts: transcript, queues, streaming flag and the one-per-turn equivalence |
| `AgentLoop.FirstTurnQueues` | shell/pi/packages/agent/src/agent.ts:403-413 | that equivalence, for every run |
| `AgentLoop.FollowUpAndSteeringShareATurn` | shell/pi/packages/agent/src/agent.ts:410-413 | a concrete run whose first turn injects a follow-up and a steering message |
| `Proxy.SplitInverts` | shell/pi/packages/agent/src/proxy.ts:200 | the pieces of a text contain no newline and join back to it |
| `Proxy.SplitUnique` | shell/pi/packages/agent/src/proxy.ts:200 | pieces without newlines are what splitting their join gives back, so a text has no other such decomposition |
| `Proxy.SplitConcat` | shell/pi/packages/agent/src/proxy.ts:199-201 | splitting after more text arrives needs only the unfinished last line |
| `Proxy.StreamProxy` | shell/pi/packages/agent/src/proxy.ts:176-243 | for every cut of the response into chunks, the reader does what one split of the whole text does, error events included |
| `Proxy.StopsForGood` | shell/pi/packages/agent/src/proxy.ts:203-205 | a line that throws stops processing at the same place for every chunking |
| `Proxy.AlwaysTerminates` | shell/pi/packages/agent/src/proxy.ts:212-243 | every response, complete or broken, pushes a terminal event |
| `Proxy.OtherBlocksUntouched` | shell/pi/packages/agent/src/proxy.ts:257-393 | an event changes no block but the one at its index |
| `Proxy.RebuildIsDeltaConcatenation` | shell/pi/packages/agent/src/proxy.ts:257-393 | a sequence of events is accepted exactly when each fits the block open at its index; then each text or thinking block is the concatenation of the deltas since its last start with the signature of its last end, a finished call is what its last end says, and stop reason, usage, error message and thinking level are those of the last terminal events |
| `Proxy.ReaderRebuilds` | shell/pi/packages/agent/src/proxy.ts:179-189 | while nothing throws the message is the rebuild of the events on the lines read |
| `Proxy.ResponseIsDeltaConcatenation` | shell/pi/packages/agent/src/proxy.ts:176-230 | a response read without an error leaves exactly that message and pushes every event, and an error event only if no terminal event came |
| `Proxy.BrokenResponse` | shell/pi/packages/agent/src/proxy.ts:179-243 | a response with a line that throws leaves and pushes what the lines before it give, closed by that error |
| `Proxy.EveryEventIsPushed` | shell/pi/packages/agent/src/proxy.ts:179-189 | the consumer sees every event that was read, in order, each with the message rebuilt so far |
| `Proxy.LinesHoldTheText` | shell/pi/packages/agent/src/proxy.ts:199-217 | the processed lines joined again are the whole text, a last line without newline included |
| `ModelCatalog.ComparePrereleaseLoop` | shell/pi/scripts/model-catalog-protocol.ts:241-259 | the index loop computes the recursive order on identifier lists |
| `ModelCatalog.CompareIsAntisymmetric` | shell/pi/scripts/model-catalog-protocol.ts:221-260 | swapping the versions flips the sign; zero means equal versions or identifiers that differ only by leading zeros |
| `ModelCatalog.CanonicalValue` | shell/pi/scripts/model-catalog-protocol.ts:249-253 | numeric identifiers without leading zeros that compare as equal are equal |
| `ModelCatalog.CompareIsPrecedence` | shell/pi/scripts/model-catalog-protocol.ts:221-260 | the comparison is negative exactly for lower precedence as section 11 of Semantic Versioning 2.0.0 defines it: major, minor, patch, releases above prereleases, then the first identifier that differs |
| `ModelCatalog.SpecificationExamples` | shell/pi/scripts/model-catalog-protocol.ts:221-260 | the chain of examples of section 11.4 of Semantic Versioning 2.0.0, from 1.0.0-alpha to 1.0.0 |
| `ModelCatalog.NumeralsByLength` | shell/pi/scripts/model-catalog-protocol.ts:249-253 | numeric identifiers without leading zeros compare by length, then digit by digit |
| `ModelCatalog.CompareIsTransitive` | shell/pi/scripts/model-catalog-protocol.ts:221-260 | what is below one version is below every version above it that is not tied with it by leading zeros |
| `ModelCatalog.TransitiveExactlyWithoutTies` | shell/pi/scripts/model-catalog-protocol.ts:221-260 | for p not above s, everything at or below p is at or below s exactly when the two are not tied by leading zeros |
| `ModelCatalog.LeadingZerosBreakTheOrder` | shell/pi/scripts/model-catalog-protocol.ts:249-253 | a concrete failure: 1.0.0-01.0 ties with 1.0.0-1, which ties with 1.0.0-01, and is above the last |
| `ModelCatalog.CanonicalVersionsAreTotallyOrdered` | shell/pi/scripts/model-catalog-protocol.ts:221-260 | without leading zeros the comparison is a total order |
| `ModelCatalog.SelectModelCatalog` | shell/pi/scripts/model-catalog-protocol.ts:132-158 | returns a compatible entry whose minimum no compatible entry's exceeds in precedence, the first of its version; none exactly when every minimum is above the client; throws exactly when some minimum does not parse; the first default entry without a version |
| `ModelCatalog.NewerClientsNeverLose` | shell/pi/scripts/model-catalog-protocol.ts:132-158 | a strictly newer client is never served a lower minimum, on any index and with any parser, nor is one that compares as equal unless tied by leading zeros |
| `ModelCatalog.TiedClientsMayLose` | shell/pi/scripts/model-catalog-protocol.ts:132-158 | for any two versions tied by leading zeros an index that serves the first and nothing to the second |
| `ModelCatalog.ReadIndexIsServable` | shell/pi/scripts/model-catalog-protocol.ts:164-199 | on an index that passed validation selection never throws and a request without a version is always served |
| `ModelCatalog.AcceptedExactly` | shell/pi/scripts/model-catalog-protocol.ts:164-199 | an index is accepted exactly when schema, default revision and every entry are valid and some entry is of the default revision; its entries are read as they are, in order |
| `Pricing.CollectStarts` | shell/pi/packages/ai/scripts/ai-gateway-pricing.ts:46-51 | the set of starts is exactly the positive minimums of all four bracket lists |
| `Pricing.CompileTier` | shell/pi/packages/ai/scripts/ai-gateway-pricing.ts:55-63 | a tier's four rates are those of the first bracket containing its start, or the flat price |
| `Pricing.GetAiGatewayCost` | shell/pi/packages/ai/scripts/ai-gateway-pricing.ts:38-66 | one tier below each start, in rising order, and no other, over the flat prices |
| `Pricing.RatesFor` | shell/pi/packages/ai/src/models.ts:1236-1245 | the lookup charges the first of the highest tiers below the prompt length, or the base rates |
| `Pricing.KeptExactlyWithoutGaps` | shell/pi/packages/ai/scripts/ai-gateway-pricing.ts:53-64 | every tier stands for the bracket each of its lengths would find, in all four lists, exactly when every bracket found at a start is open-ended or some start follows no later than its end |
| `Pricing.ChargedExactlyAtEnds` | shell/pi/packages/ai/scripts/ai-gateway-pricing.ts:53-64 | from the smallest positive start on, every prompt pays each field's own bracket price exactly when that holds at the end of each bracket found at a start |
| `Pricing.EndsAreStartsLeaveNoGap` | shell/pi/packages/ai/scripts/ai-gateway-pricing.ts:53-64 | price lists whose finite ends are all starts have no gap |
| `Pricing.CompiledRatesAreBracketRates` | shell/pi/packages/ai/scripts/ai-gateway-pricing.ts:38-66 | compile, then look up: from the smallest positive start on, every prompt pays each field's own bracket price, in every price list without gaps |
| `Pricing.ChargesByField` | shell/pi/packages/ai/scripts/ai-gateway-pricing.ts:38-66 | compile, then look up, on the record fields: each of the four rates is what its own price list says of the prompt, and its own flat price below every beginning |
| `Pricing.BelowEveryStart` | shell/pi/packages/ai/src/models.ts:1238-1245 | below all starts the flat prices are charged |
| `Pricing.GapKeepsCharging` | shell/pi/packages/ai/scripts/ai-gateway-pricing.ts:53-64 | a concrete failure: past the end of a single bracket the tier goes on charging its rate |
| `Questions.ResolvingKeepsConsistency` | src/predictor/data/storage.py:265-322 | resolving an open question keeps at most one scored prediction per question, each score equal to the Brier score against the stored outcome, the scored one the latest production prediction, and each model's count equal to the scored predictions naming it |
| `Questions.ArchivingKeepsConsistency` | src/predictor/data/storage.py:273-286 | an outcome stored more than seven days late scores nothing and keeps all of that |
| `Questions.ResolvingTwiceScoresTwice` | src/predictor/data/storage.py:292-298 | resolving again scores a second prediction exactly when one was scored and another production prediction is left, which the callers' guards prevent |
| `Questions.PredictingKeepsConsistency` | src/predictor/data/storage.py:342-367 | a new prediction disturbs no count and no score, and on an open question also not that the scored prediction is the latest |
| `Questions.ScoringOnColumns` | src/predictor/data/storage.py:287-298 | on the columns: of the unscored predictions of the arms baseline and websearch the latest by time, then id, gets the squared distance to the outcome, and nothing else changes |
| `Questions.BetterScoresLower` | src/predictor/data/storage.py:290-298 | the better of two probabilities for what happened scores lower, and certainty scores nothing |
| `Questions.HonestyScoresBest` | src/predictor/data/storage.py:290-298 | the expected score exceeds that of the true frequency by the squared distance to it |
| `Questions.AveragesMove` | src/predictor/data/storage.py:311-322 | a credited score counts once and moves the model's average a tenth of the way to it; a new model starts at it |
| `Questions.WindowBeforeTimeout` | src/predictor/resolution/market_resolver.py:54-72 | quotes can be looked at throughout the one-day verdict window and before any timeout exactly when the grace period is a number of at least two days, or one for Shanghai |
| `Questions.OneRoundInWindow` | src/predictor/resolution/market_resolver.py:64-72 | rounds 24 hours apart meet a one-day window exactly once |
| `Questions.ReasonsMatchWithTimezone` | src/predictor/resolution/auto_resolve.py:98-111 | the window the log explains is the market resolver's window exactly when the spec states a time zone |
| `Questions.ReasonsMatchExactlyForClassA` | src/predictor/resolution/auto_resolve.py:98-111 | once closed, "undecidable" is logged exactly when the window or grace period of the question's own resolver is open, and after "passed" it never opens, if and only if the question is of class A and states a time zone |
| `Questions.ReasonsMatchExactlyWithGrace` | src/predictor/resolution/auto_resolve.py:90-111 | the same of everything logged and of the resolver's whole time rule: class A, and unless the grace is no number, a time zone and a grace that covers the window |
| `Questions.ClassBLogMisleads` | src/predictor/resolution/llm_resolver.py:44-52 | a concrete failure: two days after closing a class B question's log says the window has passed, with or without a time zone, while its resolver may decide then and a day later |
| `Questions.DegradingEmptiesBacklog` | src/predictor/data/storage.py:513-520 | on whole-number, quoted, missing and malformed grace the SQL test and the round's test agree; a degraded question stays in the backlog exactly when it is degraded to A or B |
| `QuestionStore.Storage.AddPrediction` | src/predictor/data/storage.py:342-367 | stores a clamped unscored prediction, or fails without evidence |
| `QuestionStore.Storage.SetResolution` | src/predictor/data/storage.py:459-469 | replaces the class and spec of one question and no outcome |
| `QuestionStore.Storage.LatestUnscored` | src/predictor/data/storage.py:292-296 | finds the latest unscored production prediction by time, then id |
| `QuestionStore.Storage.CreditModels` | src/predictor/data/storage.py:311-322 | every non-empty name gains one prediction and a tenth of the new score in its average; no other row changes |
| `QuestionStore.Storage.CreditRows` | src/predictor/data/storage.py:299-339 | the scored rows are credited one after the other in the order the database returns them, up to the first that is not a JSON object, which is logged; counts, averages and log are exact |
| `QuestionStore.Storage.ResolveQuestion` | src/predictor/data/storage.py:265-339 | stores the outcome; unless archived, scores exactly the latest unscored production prediction and credits the question's scored rows to their models in database order, with exact statistics and log; an open question keeps every table consistent |
| `ResolutionRounds.MarketVerdict` | src/predictor/resolution/market_resolver.py:54-76 | quotes are looked at exactly on the given days of window and grace, then decide what they say; a grace that is not a number raises |
| `ResolutionRounds.LlmVerdict` | src/predictor/resolution/llm_resolver.py:44-70 | the model is asked exactly from closing until the grace period ends and decides what it says; a rejected verdict is logged |
| `ResolutionRounds.ResolveDue` | src/predictor/resolution/auto_resolve.py:24-116 | what one due question becomes: pending by class, source or missing client; resolved as its resolver decides, with the score and its log entry; or degraded with the reason logged |
| `ResolutionRounds.AutoResolve` | src/predictor/resolution/auto_resolve.py:10-132 | every due question becomes what its resolver decides, each is counted once as resolved, degraded or pending, quotes are looked at exactly for class A questions in their window, and the log grows by as many successes and failures |
| `ResolutionRounds.DegradeExpired` | scripts/evolve.py:77-96 | exactly the due automatic questions past their grace change class, each counted once and logged twice |
| `ResolutionRounds.ResolveRound` | scripts/evolve.py:74-110 | degrade, then resolve: what every question becomes, the counts, kept outcomes and scores, and an empty backlog when every expired question degrades to a class resolved by hand |
| `ResolutionRounds.RoundOnColumns` | scripts/evolve.py:74-110 | on the columns of one question: degrading, dispatch and outcome, with the rules of the clock written out |
| `ResolutionRounds.BacklogAfterRound` | src/predictor/data/storage.py:511-520 | after a round a question is in the backlog exactly when it was, is still open and was degraded to A or B |
| `DailyRounds.RunDaily` | scripts/evolve.py:74-97 | run every 24 hours, with new questions, predictions, CSV and market rounds in between, rounds look up quotes for each class A question with enough grace in one round, inside its window, exactly if it is still open then, and nothing degrades it before |
| `DailyRounds.RoundBeforeWindow` | scripts/evolve.py:84-97 | before its window such a question is neither asked about nor changed |
| `DailyRounds.RoundInWindow` | src/predictor/resolution/market_resolver.py:67-72 | in its window it is asked about exactly if still open, and not degraded before |
| `DailyRounds.RoundAfterWindow` | src/predictor/resolution/market_resolver.py:71-72 | after its window a question is never asked about |
| `ManualRounds.CsvRound` | scripts/resolve.py:45-75 | exactly the open questions with a row read when their quotes are due, each row at its own time, are resolved, each by its first such row |
| `ManualRounds.CsvRow` | scripts/resolve.py:46-75 | one row: resolves and scores an open question unless its quotes are not due yet |
| `ManualRounds.CsvOnColumns` | scripts/resolve.py:46-75 | an open question takes outcome and source of the first row with its id that is read no earlier than its quotes are due; without one it stays |
| `ManualRounds.PmOne` | scripts/pm_resolve.py:93-146 | a market decision always counts; without one nothing happens for three days, and the language model decides in the three days after; a stored outcome is scored unless seven days late |
| `ManualRounds.PmRound` | scripts/pm_resolve.py:87-146 | the same for every question of the market, no other question changes; a dry run changes no question, prediction or statistic, counts what it would resolve, and logs at most rejected fallback verdicts |
| `ManualRounds.MarketOnColumns` | scripts/pm_resolve.py:93-146 | the same on the columns of one question, with days written out |
| `ManualRounds.AnyHistory` | src/predictor/data/storage.py:265-322 | over every sequence of rounds, each with fresh market answers, new questions and predictions on open questions: outcomes and scores never change, at most one prediction per question is scored and it is the latest production one, and every model's count is exact |
| `Evidence.MigrationKeepsOnePerGroup` | src/predictor/data/storage.py:188-210 | each question and url keeps exactly one row, unchanged, with content whenever any row of the group had it; rows without a url stay |
| `Evidence.MigrationOnColumns` | src/predictor/data/storage.py:188-206 | on the columns: one row per question and url, with a non-empty text if any row had one, and every curated reference names a row of its question and url |
| `Evidence.ReferencesFollow` | src/predictor/data/storage.py:194-201 | a curated reference to a removed row names the kept row of its group; every other reference is unchanged |
| `Evidence.MigratingAgainChangesNothing` | src/predictor/data/storage.py:173-210 | on a table with one row per group the migration changes nothing |
| `Evidence.RemainsExactlyWhenSafe` | src/predictor/data/storage.py:188-206 | a row survives every migration exactly when it has no url, is alone in its group, or is its group's only row with content |
| `Evidence.CitationsSurviveExactlyWhenSafe` | src/predictor/data/storage.py:369-370 | stored evidence ids go on naming documents, whichever rows the migration keeps, exactly when all of them name such rows |
| `Evidence.MigrationCanLoseEvidence` | src/predictor/data/storage.py:188-206 | a concrete failure: of two rows of one question and url the cited one is removed, and its id names nothing |
| `Evidence.Store.ChooseKeepers` | src/predictor/data/storage.py:188-193 | one row per group, with content if any has it |
| `Evidence.Store.MigrateUnique` | src/predictor/data/storage.py:173-210 | with the index present nothing changes; otherwise the migration is done, the index holds, and evidence ids that named safe rows still name documents |
| `Evidence.Store.AddDocument` | src/predictor/data/storage.py:371-403 | keeps the index and returns the id of a stored row of that question and url, the existing one exactly on a conflict; the failure branch is never reached |
| `Evidence.Store.Cite` | src/predictor/data/storage.py:342-367 | evidence ids are stored as given, at least one; stored documents keep all of them valid |

## Left out

- Floating-point rounding: probabilities, weights and prices are reals; `perMillion`, with its rounding and parsing, is a parameter.
- In-place sorting: `_weighted_median` sorts its argument where it stands; the model sorts a copy, so a caller seeing its list reordered is not captured.
- `weights_from_model_stats`: the pipeline no longer calls it.
- Runs in which hooks, listeners or `emit` throw, with `handleRunFailure`, and the agent's `errorMessage`.
- Inside the loop, streams that send a second start event: `AgentLoop.StreamLeavesOneMessage` shows exactly what those would leave behind.
- Aliasing of the partial reply between the context and the pushed events; events carry values.
- Clearing the queues, changing their modes and `reset` during a run; `Clear` is modelled on its own.
- A run that outlives its script of model replies is left unfinished, with everything proved of it so far. Within a parallel batch the abort signal fires at any step of the schedule, before that at the points the script names.
- `transformContext`, `convertToLlm`, API keys, model and thinking-level selection, tool call durations.
- Tool declarations are compared as values; the JSON text behind `declarationsEqual` is not modelled.
- Proxy: aborts, HTTP errors, UTF-8 decoding and JSON parsing; decoding a line and salvaging partial JSON are parameters.
- Version parsing by regular expression, and integers beyond what JavaScript numbers hold exactly; `localeCompare` is a strict total order.
- Calibrator refresh, scoreboards and the list of questions for manual resolution that end a round.
- How quotes, language models and the prediction market arrive at their answers, including the two-source comparison and the record-high rule of `MarketResolver`: once the time rules admit a verdict it is an input.
- Write errors of the database, and specs that are JSON but not objects.
- The market id that `pm_resolve` appends to the resolution source.
- Questions.DegradingEmptiesBacklog: does not cover grace periods that are fractions or booleans, because how the database casts them to integers is not part of the repository.
- `ops/lock.py`, web and terminal interfaces, report rendering, question deduplication, learning from lessons.
