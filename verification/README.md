# Verified models of the agent runtime

This project models the parts of the repository in which state, order and accounting are hardest
to get right, and proves what they promise. To verify it: `dafny verify dfyconfig.toml`.

| files | what they model |
|---|---|
| `RefreshProtocol`, `RefreshInvariant`, `RefreshResults`, `RefreshAgreement`, `RefreshServing`, `RefreshReentrancy`, `ModelsImpl` | the model-catalog refresh protocol: when a publication is served, generations, abort controllers, publication chains, store and memory, abort listeners that call back, as a step relation over every interleaving and as the class that performs it |
| `Transcript`, `ToolDeclarations` | messages, lifecycle events, the event grammar, the agent's event reducer, and the tool declarations kept in a transcript |
| `ToolBatch`, `ParallelBatch`, `BatchOutcomes`, `PendingCalls` | sequential and concurrent execution of one message's tool calls, where their outcomes come from, and which of them the reducer shows as pending |
| `AgentStream`, `AgentLoop`, `AgentLoopProofs`, `AgentScheduling`, `AgentTurns`, `AgentLoopImpl`, `Agent` | streaming a response, the agent loop as one function per turn, what a turn does from outside, what every run keeps, the nested loops that refine it, and the agent object with its queues |
| `LedgerBooks`, `LedgerDecisions`, `LedgerRuns`, `LedgerImpl`, `QuotaTree`, `PlanSteps` | the budget ledger, what it decides, its runs, its mutable objects, and the quota tree that the evaluation plan and its transport drive |
| `StrictJson`, `StrictJsonProofs`, `StrictJsonCopy`, `StrictJsonResults`, `StrictJsonUnfolding`, `StrictJsonFaults` | strict-JSON copying and checking over object graphs with sharing and cycles, and what a copy has to do with its source |
| `CatalogVersions`, `VersionPrecedence` | version precedence and catalog selection |
| `GatewayPricing` | converting price brackets to tiers and costing a request |
| `FixtureOracle`, `FixtureValidation`, `FixtureMeaning`, `FixtureScoring`, `FixtureProofs` | evaluation fixtures, their validation, scripted answers and the scorer |
| `ProxyStream`, `ProxyResults` | cutting proxied text into lines and rebuilding content blocks from events |
| `WorkerPool` | the bounded worker pool |
| `Overhead`, `OverheadRows` | the token-overhead report |

Calls into the network, the store, tools, hooks, the model stream and the clock are inputs: events
of a step relation, turns of a script, or function parameters. Every theorem quantifies over all
of them.

Some promises turn out to hold only under a condition. Each of these is stated with its exact
condition and with an input for which it fails:

- the store can run ahead of memory (`WriteMayOutliveItsUpdate`): the update of a store call in
  flight runs exactly when, until the store answers, nothing supersedes the provider and the caller
  does not abort (`LandedWriteUpdatesIff`); where no call is overtaken or fails after taking effect,
  the store holds what the updates made of its first entry (`StoreFollowsUpdates`);
- an abort listener that refreshes the same provider again leaves a stale controller registered
  (`ReentrantRefreshBreaks`; exactly when, `ReentrantBegin`) or a running operation of a deleted
  provider (`ReentrantDeleteBreaks`; exactly when, `ReentrantDelete` and `ReentrantClear`);
- two executable tools of one name with different declarations make the declared tools differ from
  the executable ones (`DifferenceExactIffConsistent`, and over whole transcripts `ReplayExactIffConsistent`);
- two calls of one message with the same id can hide a running call from the pending set of a
  concurrent batch (`RepeatedIdHides`; exactly then, `PendingExactIffDistinct`);
- a second `start` in one response stream leaves a stale partial message (`SecondStartKeepsPartial`;
  exactly then, `StreamingIsCleanIffOneStart`);
- a request that names one quota twice can exceed its limits (`RepeatedGroupExceedsLimit`);
- numeric prerelease identifiers with leading zeros make version precedence no order
  (`LeadingZerosBreakTheOrder`; exactly on which sets of versions it is one, `PrecedenceIsOrderIff`);
- a bracket that starts at zero with another price than the base is never charged
  (`ZeroBracketIsNotCharged`); converted prices agree with the listed ones exactly when no price
  changes at zero or at a bracket end that starts no bracket (`ChargedAsListedIff`);
- a support probe can be validated although its scripted answer carries counter-evidence
  (`ValidatedSupportCanFail`; exactly when, `ScriptedAnswersPass`).

The code's comment says that replaying a transcript "always" yields the executable tools; the model
follows the code, where this needs same-named tools to agree.

## Model

| member | source | states |
|---|---|---|
| RefreshResults.PublicationsAreSerial | packages/ai/src/models.ts:504-531 | under every interleaving a provider's publications never overlap and act in the order they were published, their generations never decrease, and when an update runs it is current, not aborted, and the store holds exactly what that publication persisted |
| RefreshResults.StaleOperationsAreAborted | packages/ai/src/models.ts:486-502 | the registered controller always belongs to the current generation and is not aborted; a running operation of an older generation always has an aborted signal |
| RefreshResults.SupersededNeverActs | packages/ai/src/models.ts:405-420 | after setProvider, deleteProvider, clearProviders or a newer refresh no earlier operation of the provider starts a store call or runs an update again; only a call already in flight may land |
| RefreshResults.WriteMayOutliveItsUpdate | packages/ai/src/models.ts:515-523 | a reachable run ends with an entry in the store whose update never ran |
| RefreshAgreement.LandedWriteUpdatesIff | packages/ai/src/models.ts:515-523 | the update of a live publication whose store call is in flight runs after it if and only if, until the answer, no event sets, deletes or refreshes the provider, clears the catalog or aborts the caller |
| RefreshAgreement.ReachableWriteUpdatesIff | packages/ai/src/models.ts:515-523 | the same after any run from an empty catalog and any store |
| RefreshAgreement.StoreFollowsUpdates | packages/ai/src/models.ts:504-531 | over every run in which no store call of the provider is overtaken by such an event or fails after taking effect, the store holds what the updates, in order, made of its first entry whenever no call is in flight |
| RefreshAgreement.HarmlessRunsAgree | packages/ai/src/models.ts:504-531 | in particular after any run without superseding, aborts or failing store calls that starts in agreement |
| RefreshServing.ResumeServes | packages/ai/src/models.ts:512-523 | when its turn comes a publication is refused exactly if its operation is not current; otherwise its update runs at once if it persists nothing, and its store call starts if it does, with one record each |
| RefreshServing.AnswerServes | packages/ai/src/models.ts:515-523 | a rejected store call fails the publication; after any other the update runs exactly if the operation is still current |
| RefreshServing.CallLands | packages/ai/src/models.ts:515-519 | a store call writes or removes its own provider's entry and no other |
| RefreshServing.ServedIff | packages/ai/src/models.ts:504-531 | from any state in which an operation is current, a publication of it is served when its turn comes exactly if until then nothing superseded the provider and the caller did not abort |
| RefreshServing.ServedSinceBegin | packages/ai/src/models.ts:486-531 | so it is from the beginning of every refresh, whose caller must not have aborted before |
| RefreshServing.PublicationRunsIff | packages/ai/src/models.ts:504-531 | from its being queued on, the store call of a publication that persists starts exactly if nothing disturbed it before its turn, and its update has run after an answer exactly if nothing did until the answer |
| RefreshServing.CatalogAfter | packages/ai/src/models.ts:405-420 | after setting, deleting or clearing exactly the right providers are registered, their refreshes are over, and store, publications and other controllers are as before |
| RefreshServing.RefreshBegins | packages/ai/src/models.ts:486-502 | beginning adds one registered operation, current unless its caller has aborted, and ends the provider's earlier ones |
| RefreshServing.PublicationQueues | packages/ai/src/models.ts:504-531 | a publication is queued last, behind the newest of its provider that is not released |
| RefreshServing.CallerAborts | packages/ai/src/models.ts:504-531 | a caller's abort reaches its operations and touches nothing else |
| RefreshServing.RefreshEnds | packages/ai/src/models.ts:525-602 | what the end of a refresh's body, its cleanup and the release of a tail change, and that they change nothing else |
| RefreshReentrancy.ReentrantBegin | packages/ai/src/models.ts:486-502 | with listeners on the aborted controller that call back, beginning a refresh keeps the invariant if and only if the provider is registered and no listener sets, deletes or refreshes it or clears the catalog |
| RefreshReentrancy.ReentrantRefreshBreaks | packages/ai/src/models.ts:486-502 | from a reachable state with a refresh running, a listener that refreshes the same provider leaves a controller of an older generation registered |
| RefreshReentrancy.ReentrantSet | packages/ai/src/models.ts:405-408 | setting a provider keeps the invariant whatever its listeners do |
| RefreshReentrancy.ReentrantDelete | packages/ai/src/models.ts:410-413 | deleting a provider keeps it if and only if the last listener call that supersedes the provider, if any, is not a refresh |
| RefreshReentrancy.ReentrantDeleteBreaks | packages/ai/src/models.ts:410-413 | from a reachable state, a listener that refreshes the provider leaves it deleted with a current operation that is not aborted |
| RefreshReentrancy.ReentrantClear | packages/ai/src/models.ts:415-420 | clearing the catalog, provider by provider in any order, keeps it if and only if for no provider the last superseding call is a listener's refresh |
| RefreshInvariant.StepKeeps | packages/ai/src/models.ts:405-602 | every step of the protocol keeps the invariant of operations, controllers, publication chains and the history of effects |
| RefreshInvariant.RunKeeps | packages/ai/src/models.ts:405-602 | so does every run |
| ModelsImpl.Catalog.SupersedeProviderRefresh | packages/ai/src/models.ts:486-495 | advances the generation, removes and aborts the registered controller, and changes nothing else |
| ModelsImpl.Catalog.SetProvider | packages/ai/src/models.ts:405-408 | the object performs exactly the protocol's step and keeps its invariant |
| ModelsImpl.Catalog.DeleteProvider | packages/ai/src/models.ts:410-413 | the object performs exactly the protocol's step and keeps its invariant |
| ModelsImpl.Catalog.ClearProviders | packages/ai/src/models.ts:415-420 | the loop over providers and controllers amounts to superseding all of them at once |
| ModelsImpl.Catalog.BeginProviderRefresh | packages/ai/src/models.ts:497-502 | the object performs exactly the protocol's step and keeps its invariant |
| ModelsImpl.Catalog.PublishProviderModels | packages/ai/src/models.ts:504-530 | a publication is queued behind the current tail of its provider's chain |
| ModelsImpl.Catalog.ResumePublication | packages/ai/src/models.ts:512-519 | after its predecessor a publication is refused, starts its store call, or runs its update |
| ModelsImpl.Catalog.StoreTakesEffect | packages/ai/src/models.ts:515-519 | the store changes at some moment of the call, whatever has been superseded since |
| ModelsImpl.Catalog.StoreAnswered | packages/ai/src/models.ts:521-523 | after the store call the update runs only if still current and not aborted |
| ModelsImpl.Catalog.ReleaseTail | packages/ai/src/models.ts:525-529 | a settled tail is removed only while it is still the chain's tail |
| ModelsImpl.Catalog.FinishRefresh | packages/ai/src/models.ts:597-601 | a finished refresh unregisters its own controller and no other |
| Transcript.ReducedTranscript | packages/agent/src/agent.ts:565-613 | the transcript the reducer rebuilds is its start followed by the completed messages of the log |
| Transcript.PendingAreRunning | packages/agent/src/agent.ts:580-592 | a pending tool-call id always belongs to a running call |
| Transcript.PendingIsExact | packages/agent/src/agent.ts:580-592 | while no id runs twice the pending ids are exactly the running calls |
| Transcript.PendingIsAlwaysExact | packages/agent/src/agent.ts:580-592 | and so they are after every event of such a log |
| Transcript.StreamingIsLastShown | packages/agent/src/agent.ts:565-580 | while a message is open the agent shows what its last start or update said, and otherwise none |
| Transcript.ErrorIsLastReported | packages/agent/src/agent.ts:594-598 | the agent's error is that of the last turn that reported one |
| ToolDeclarations.DeclareToolChanges | packages/agent/src/agent-loop.ts:333-363 | the backward search and the rewriting of pending messages compute the declared messages that the lemmas below are about |
| ToolDeclarations.DifferenceExactIffConsistent | packages/ai/src/utils/transcript.ts:150-165 | applying the difference reaches the executable tools from every earlier tool set if and only if same-named tools have the same declaration |
| ToolDeclarations.DeclaredToolsAreExecutable | packages/agent/src/agent-loop.ts:322-363 | after delivery, replaying the system messages yields exactly the executable tools, for any pending system messages with any tool changes anywhere |
| ToolDeclarations.ReplayExactIffConsistent | packages/agent/src/agent-loop.ts:322-363 | for given executable tools this holds over every transcript and all pending messages if and only if same-named tools have the same declaration |
| ToolDeclarations.DeclareKeepsConversation | packages/agent/src/agent-loop.ts:333-363 | no message but system messages is touched, dropped or reordered |
| ToolDeclarations.DeclareSettles | packages/agent/src/agent-loop.ts:351-359 | once declared, an empty delivery declares nothing more |
| ToolDeclarations.DeclareTouches | packages/agent/src/agent-loop.ts:333-359 | with a system message pending, at most the tool changes of the last one are rewritten |
| ToolDeclarations.DeclareComesFirst | packages/agent/src/agent-loop.ts:360-363 | without one, a single message without text is put before all others, or none |
| ToolBatch.ExecuteSequential | packages/agent/src/agent-loop.ts:530-584 | results match a non-empty prefix of the calls in order, all of them unless aborted, each with its call's id, name, text and error flag; one start and one end each with that flag, and updates of calls that ran only; the batch terminates exactly when every result says so |
| ToolBatch.FailTruncated | packages/agent/src/agent-loop.ts:478-503 | every call of a truncated message is answered with an error and none runs |
| ToolBatch.StartsMatchFinishes | packages/agent/src/agent-loop.ts:586-660 | in any well-formed log the running calls are those started and not ended, counted with repetition |
| ToolBatch.BatchLeavesNothingPending | packages/agent/src/agent.ts:580-592 | after a batch every start has exactly one end and the reducer has nothing pending |
| ParallelBatch.ParallelBatchOk | packages/agent/src/agent-loop.ts:586-660 | under every completion order and abort, a returning batch reports one result per started call in source order, all calls unless aborted, each with its own call's outcome, and terminates exactly when there are results and each says so |
| ParallelBatch.StepKeeps | packages/agent/src/agent-loop.ts:596-647 | each step keeps the log well-formed and its running calls equal to the unfinished ones |
| ParallelBatch.RunningCallsAreOpen | packages/agent/src/agent-loop.ts:596-647 | at every moment the log's running calls are exactly those opened and not finalized |
| ParallelBatch.StepsProgress | packages/agent/src/agent-loop.ts:586-660 | every step but an update or an abort decreases the remaining work |
| ParallelBatch.NeverStuck | packages/agent/src/agent-loop.ts:586-660 | until the batch returns such a step exists |
| BatchOutcomes.OutcomesAreGiven | packages/agent/src/agent-loop.ts:586-647 | in every run a call is finalized exactly with what its refusal, its tool or an earlier abort gave it |
| BatchOutcomes.EndsAreOutcomes | packages/agent/src/agent-loop.ts:586-660 | the log ends every finalized call once, with its own error flag, and each result right after its start |
| BatchOutcomes.AbortOpensAtMostOne | packages/agent/src/agent-loop.ts:596-647 | once aborted a batch opens at most the call it had already turned to, and starts no tool |
| PendingCalls.PendingExactIffDistinct | packages/agent/src/agent.ts:580-592 | in every run of a concurrent batch the reducer shows exactly the unfinished calls as pending, if and only if the calls of the message have pairwise different ids |
| PendingCalls.DistinctIsExact | packages/agent/src/agent-loop.ts:586-660 | with different ids the pending ids are those of the unfinished calls after every run |
| PendingCalls.RepeatedIdHides | packages/agent/src/agent.ts:587-592 | for any two calls of one id a run of the batch ends with one of them unfinished and its id not pending |
| PendingCalls.SequentialIsExact | packages/agent/src/agent-loop.ts:530-584 | a sequential batch shows exactly its running call after every event, repeated ids or not |
| AgentStream.StreamAssistantResponse | packages/agent/src/agent-loop.ts:411-469 | the event loop computes the context and the events that the next row is about |
| AgentStream.ResponseEvents | packages/agent/src/agent-loop.ts:411-469 | from the first start on one event for everything the stream yields, with what it yields, then the end with the final message |
| AgentStream.StreamingIsCleanIffOneStart | packages/agent/src/agent-loop.ts:411-469 | the context grows by exactly the final message, and the log by one well-formed message, if and only if the stream starts at most once |
| AgentStream.SecondStartKeepsPartial | packages/agent/src/agent-loop.ts:416-421 | the stream of two starts and its end leaves the first partial message in the context and breaks the event grammar |
| AgentLoopProofs.CompletedRunIsWellFormed | packages/agent/src/agent-loop.ts:102-321 | the log of every completed run walks the whole event grammar, its completed messages are the returned messages, its last event carries them, and the reducer has nothing pending |
| AgentLoopProofs.TurnsAlternate | packages/agent/src/agent-loop.ts:113-114 | in any well-formed log turn starts and turn ends strictly alternate |
| AgentLoopProofs.StartsOnce | packages/agent/src/agent-loop.ts:113-113 | the run's start is its first event and occurs once |
| AgentLoopProofs.EndsLast | packages/agent/src/agent-loop.ts:316-321 | the run's end is its last event and occurs once |
| AgentLoopProofs.NothingPendingAtTurnEnd | packages/agent/src/agent.ts:580-592 | whenever a turn ends the reducer has no tool call pending |
| AgentLoopProofs.ContextIsTranscript | packages/agent/src/agent-loop.ts:163-321 | without context replacement the loop's context is the starting messages followed by the returned ones, and so is the transcript the agent rebuilds from events |
| AgentLoopProofs.EveryRequestDeclaresItsTools | packages/agent/src/agent-loop.ts:206-245 | at every request that prepareRequest did not replace, the replayed tools are the executable ones, and each turn delivers what was prepared and pending |
| AgentTurns.RequestsFollowTheHooks | packages/agent/src/agent-loop.ts:184-270 | over every run each request is made with the context prepareRequest returned, or else with the context its turn started in and the delivered messages; a turn starts in what prepareNextTurn returned, or else in the turn before's request with its response and results |
| AgentTurns.TurnEmits | packages/agent/src/agent-loop.ts:184-321 | a turn emits its start, its deliveries, its response, its tool calls, its end with the results, and then perhaps the run's end with all messages |
| AgentTurns.PairsAt | packages/agent/src/agent-loop.ts:210-216 | every delivered message starts and ends in order |
| AgentTurns.TurnDraws | packages/agent/src/agent-loop.ts:196-321 | before a turn messages are drawn only if none are pending; after it steering messages, and follow-ups only when the agent would stop; each as the queue's mode says; a failed or ended turn polls nothing |
| AgentTurns.PromptsDraw | packages/agent/src/agent-loop.ts:102-126 | a prompted run starts with its prompts delivered and, unless they came from the queue, with steering drawn |
| AgentTurns.ContinuingDraws | packages/agent/src/agent-loop.ts:128-151 | a continued run needs a last message that is not the model's, delivers nothing and draws steering |
| AgentScheduling.QueuesAreConserved | packages/agent/src/agent-loop.ts:171-321 | in a completed run each queue's messages are those drawn by turns, in order, followed by those still queued; the returned messages are the initial ones and the turns' messages in order |
| AgentScheduling.OneSteeringMessagePerTurn | packages/agent/src/agent-loop.ts:200-204 | in one-at-a-time mode no turn delivers two steering messages although the queue is polled twice |
| AgentScheduling.EveryTurnHasItsReason | packages/agent/src/agent-loop.ts:171-321 | over a whole run each turn but the last was followed for tool results, drawn messages that are the next turn's pending ones, or a continue decision; the last failed, was told to end, or left none of these |
| AgentScheduling.PromptedRunsStart | packages/agent/src/agent-loop.ts:102-126 | a prompted run starts in a state the theorems about runs apply to, with the declared prompts delivered and, one at a time, at most one steering message pending |
| AgentScheduling.ContinuedRunsStart | packages/agent/src/agent-loop.ts:128-151 | and so does a continued run, with nothing delivered |
| AgentScheduling.AnotherTurnIff | packages/agent/src/agent-loop.ts:232-314 | after a normal turn another starts exactly when tool results are outstanding, a message was drawn, or the hook said continue; an error or an end never polls a queue |
| AgentScheduling.ContinueAddsAtMostOne | packages/agent/src/agent-loop.ts:283-313 | the requests of a completed run are one, plus those of tool results, steering and follow-ups, plus at most one for each continue decision |
| AgentLoopImpl.RunLoop | packages/agent/src/agent-loop.ts:163-321 | the nested loops with their flags and polls compute, turn by turn, the runs that the lemmas are about |
| AgentLoopImpl.OuterLoop | packages/agent/src/agent-loop.ts:177-321 | the outer loop takes turns and checks for follow-ups until the run ends or the script is used up, and loses nothing of what the script has in store |
| AgentLoopImpl.InnerLoop | packages/agent/src/agent-loop.ts:181-292 | the inner loop takes turns until one ends the run or leaves it idle |
| AgentLoopImpl.InnerTurn | packages/agent/src/agent-loop.ts:184-291 | one pass of the inner loop is one turn, or leaves the loop idle |
| AgentLoopImpl.FollowUpOrStop | packages/agent/src/agent-loop.ts:294-317 | the check when the agent would stop completes that turn |
| AgentLoopImpl.DeliverMessages | packages/agent/src/agent-loop.ts:210-216 | every delivered message is emitted, appended to the context and returned, in order |
| Agent.PendingMessageQueue.Drain | packages/agent/src/agent.ts:159-169 | draining takes all messages or the first one and keeps the rest in order |
| Agent.PendingMessageQueue.Enqueue | packages/agent/src/agent.ts:151-153 | a message is queued last |
| Agent.PendingMessageQueue.Clear | packages/agent/src/agent.ts:171-173 | clearing drops every message and keeps the mode |
| Agent.AgentObject.ProcessEvent | packages/agent/src/agent.ts:565-604 | each event changes the agent's state as the reducer says and nothing else |
| Agent.AgentObject.RunWithLifecycle | packages/agent/src/agent.ts:507-561 | a run's events are reduced in order, its queues are left as the run left them, and a finished run leaves the agent idle with nothing pending |
| Agent.AgentObject.Continue | packages/agent/src/agent.ts:384-411 | a refusal changes nothing; otherwise the run starts from the drained steering messages, else follow-ups, else the transcript, and the transcript grows by the completed messages |
| Agent.ContinueConserves | packages/agent/src/agent.ts:394-399 | continuing with steering queued loses none: prompts, then drawn, then still queued; the first turn draws no more of them |
| Agent.ContinueTakes | packages/agent/src/agent.ts:384-411 | continuing resumes after a message that is not the model's, else takes prompts off the steering queue, else off the follow-ups, leaving the other queue alone, else refuses |
| Agent.ContinueConservesFollowUps | packages/agent/src/agent.ts:401-405 | follow-ups that became prompts are not delivered twice: prompts, then drawn, then still queued |
| Agent.PlansStart | packages/agent/src/agent.ts:384-458 | whatever continue plans, the run starts in a state that the theorems about runs apply to |
| LedgerRuns.RunBalanced | eval/live/ledger.ts:79-140 | over every run each counter of each quota is its seed plus the effects of its reservations, whatever the groups |
| LedgerRuns.ReservedIsHeld | eval/live/ledger.ts:96-130 | reserved counters equal the seed plus what open and usage-less reservations hold, and never fall below the seed |
| LedgerRuns.RunSafe | eval/live/ledger.ts:79-140 | starting within limits with distinct groups, no quota ever exceeds its limits while the ledger has not stopped |
| LedgerRuns.AdmitSafe | eval/live/ledger.ts:79-110 | an admitted request with distinct groups keeps every quota within its limits |
| LedgerRuns.RepeatedGroupExceedsLimit | eval/live/ledger.ts:85-101 | for every group list with a repetition some safe ledger admits it and exceeds a limit |
| LedgerRuns.StoppedForGood | eval/live/ledger.ts:64-78 | after the first stop the reason never changes, nothing is admitted or sent, and call counters stay |
| LedgerRuns.FittingSettlementNeverStops | eval/live/ledger.ts:116-140 | a settlement before the deadlines whose usage fits its reservation never stops a ledger that was within limits |
| LedgerDecisions.AdmitsIff | eval/live/ledger.ts:79-96 | a request is admitted exactly when nothing has stopped the ledger, its amounts are whole numbers in range, its input fits the cap, and every group is before its deadline with calls, input, proxy and output left |
| LedgerDecisions.RefusedRequestStops | eval/live/ledger.ts:79-96 | a refused request charges nothing and stops the ledger with the first reason of the first group without room |
| LedgerDecisions.AdmittedIsCharged | eval/live/ledger.ts:97-102 | an admitted request adds one call, its proxy, its input and its output to a quota for every time it is named |
| LedgerDecisions.SentIsCounted | eval/live/ledger.ts:111-115 | a send is counted once for every time a quota is named, and not at all on a stopped ledger |
| LedgerDecisions.SettlementStopsIff | eval/live/ledger.ts:116-140 | a settlement stops a running ledger exactly for unavailable usage, an overrun of the input reservation, a passed deadline or an exceeded sum, and with which code |
| LedgerDecisions.SettlementBooks | eval/live/ledger.ts:116-131 | a settlement gives the reservation back and books the usage as known or estimated |
| LedgerImpl.Ledger.Group | eval/live/ledger.ts:59-63 | a new quota is last, starts at zero and leaves the others alone |
| LedgerImpl.Ledger.Admit | eval/live/ledger.ts:79-110 | the two loops over mutable quotas are the specification's admit: all are looked at before any is charged |
| LedgerImpl.Ledger.Sent | eval/live/ledger.ts:111-115 | counts a send in each group or throws the stop reason |
| LedgerImpl.Ledger.Settle | eval/live/ledger.ts:116-140 | a second settlement throws and changes nothing; otherwise the specification's settlement, which throws exactly when its usage, overrun or an excess stops it |
| LedgerImpl.Ledger.Halt | eval/live/ledger.ts:64-70 | only the first stop code is kept |
| QuotaTree.TreeIsConserved | eval/live/plan.ts:182-199 | over every interleaving of runs, judge reviews and transports, for each counter, global is baseline plus judge, and baseline is the seed plus the run quotas |
| QuotaTree.PlanStaysWithinLimits | eval/live/codex.ts:152-304 | if every quota starts within its limits then, over every interleaving of runs, reviews and transports that nothing has stopped, no quota of the plan exceeds a limit |
| QuotaTree.SentNeverExceedsCalls | eval/live/codex.ts:155-160 | beyond its seed no quota counts more sends than calls, and so none at all when the seed does not |
| QuotaTree.IdlePlanHoldsNothing | eval/live/codex.ts:258-304 | in a plan that nothing has stopped, when every call is over and each built one payload, no quota has anything reserved beyond its seed |
| QuotaTree.RunKeepsPlan | eval/live/codex.ts:152-304 | a transport owns at most one reservation per request and sends it at most once |
| PlanSteps.ChargedTo | eval/live/plan.ts:182-199 | a request is charged to global, to baseline or the judge, and to the quotas below by its purpose |
| PlanSteps.PayloadReserves | eval/live/codex.ts:199-224 | a payload is admitted with its request's groups and then owns a fresh reservation, or stops the ledger |
| PlanSteps.FetchSends | eval/live/codex.ts:155-160 | a fetch is sent exactly when it goes to the expected address for an unsent reservation on a running ledger; an improper one stops it |
| PlanSteps.SettlementSpends | eval/live/codex.ts:258-259 | settling spends the request's own open reservation with the usage and no other |
| PlanSteps.FailureStops | eval/live/codex.ts:282-307 | a failing request settles what it has sent and stops the ledger with its reason, unless something has before |
| PlanSteps.ReturnAfterSettling | eval/live/codex.ts:258-281 | a call returns only after its own reservation is settled |
| PlanSteps.PlanGrows | eval/live/plan.ts:182-199 | a new quota starts without counts and a new request without a reservation |
| StrictJsonProofs.CopyDecidesStrictness | packages/chord/src/json.ts:16-65 | copying succeeds if and only if every reachable node is strict and no cycle is reachable; shared nodes are no cycle |
| StrictJsonProofs.CheckDecidesStrictness | packages/chord/src/json.ts:74-120 | the check answers the same question |
| StrictJsonProofs.CheckAgreesWithCopy | packages/chord/src/json.ts:20-120 | check and copy agree for every set of ancestors, not only at the root |
| StrictJsonProofs.CopyFollowsPaths | packages/chord/src/json.ts:28-64 | the ancestor set makes copying fail exactly when some path from the value is unclean |
| StrictJsonCopy.Copy | packages/chord/src/json.ts:20-65 | the recursive copy over a mutable heap and a shared ancestor set answers as specified, restores the ancestors, and only allocates |
| StrictJsonCopy.CopyJson | packages/chord/src/json.ts:16-18 | the result is a fresh tree of the value's unfolding and nothing existing changes |
| StrictJsonResults.Check | packages/chord/src/json.ts:78-120 | the checking program with its ancestor set decides the specified predicate and restores the set |
| StrictJsonResults.IsJsonValue | packages/chord/src/json.ts:74-76 | true exactly when copying without options would succeed |
| StrictJsonResults.CopyIsStrict | packages/chord/src/json.ts:16-18 | a copy passes the check, and copying it again yields the same tree |
| StrictJsonResults.SingleOwner | packages/chord/src/json.ts:37-61 | in a copy every node is referenced from exactly one place |
| StrictJsonResults.OmitIsDeletion | packages/chord/src/json.ts:58-58 | omitting undefined properties is copying the graph from which they were deleted; arrays stay strict |
| StrictJsonUnfolding.CopyIsUnfolding | packages/chord/src/json.ts:16-65 | a copy succeeds with a tree if and only if the graph is strict and the tree is read off it node by node, a shared node once for every reference |
| StrictJsonUnfolding.OmittingCopyIsUnfolding | packages/chord/src/json.ts:16-65 | omitting undefined properties, the same of the graph without them |
| StrictJsonUnfolding.OneUnfolding | packages/chord/src/json.ts:16-65 | a value unfolds to one tree at most |
| StrictJsonUnfolding.ResultUnfoldsAlike | packages/chord/src/json.ts:16-18 | the source and the result of a copy, each in its own heap, unfold to exactly the same tree |
| StrictJsonFaults.LeafFault | packages/chord/src/json.ts:20-27 | which fault a value that is no container is reported as |
| StrictJsonFaults.ArrayFault | packages/chord/src/json.ts:28-44 | an array fails as a cycle, else for its shape, else with the fault of its first item that fails |
| StrictJsonFaults.ObjectFault | packages/chord/src/json.ts:28-61 | an object fails as a cycle, else for its prototype, else with the fault of its first property that fails |
| StrictJsonFaults.KeptIs | packages/chord/src/json.ts:58-58 | only named, enumerable properties that hold undefined are omitted, and the order of the others is kept |
| CatalogVersions.ComparePiVersions | scripts/model-catalog-protocol.ts:221-260 | the loops compute the comparison that the lemmas are about |
| VersionPrecedence.ComparesBelowIff | scripts/model-catalog-protocol.ts:221-260 | comparison is negative exactly when item 11 of Semantic Versioning 2.0.0 puts the first version before the second: major, minor, patch, a prerelease before its release, then the first differing identifier, where a list that ended, a smaller number, a number before a name, or the earlier name comes first |
| VersionPrecedence.ComparesAboveIff | scripts/model-catalog-protocol.ts:221-260 | and positive exactly when it puts the second before the first |
| VersionPrecedence.SplitIff | scripts/model-catalog-protocol.ts:239-240 | identifiers are the dotless parts that join to the prerelease |
| VersionPrecedence.NumeralIff | scripts/model-catalog-protocol.ts:249-250 | an identifier is a number when it consists of digits |
| VersionPrecedence.NumeralsCompareByDigits | scripts/model-catalog-protocol.ts:251-253 | numbers without leading zeros are ordered by length and then by their first different digit |
| CatalogVersions.PrecedenceIsTotalOrder | scripts/model-catalog-protocol.ts:221-260 | without leading zeros comparison is antisymmetric and zero exactly on equal versions |
| CatalogVersions.PrecedenceIsTransitive | scripts/model-catalog-protocol.ts:221-260 | and transitive |
| CatalogVersions.ComparesEqualIff | scripts/model-catalog-protocol.ts:242-259 | any two versions compare equal exactly when they are equal or first differ in two spellings of one number |
| CatalogVersions.PrecedenceIsOrderIff | scripts/model-catalog-protocol.ts:221-260 | on any set of versions comparison is antisymmetric, transitive and zero only on equals if and only if no two members of one release have prereleases that first differ in two spellings of one number |
| CatalogVersions.CanonicalVersionsDoNotClash | scripts/model-catalog-protocol.ts:242-259 | no two versions without leading zeros are of that kind |
| CatalogVersions.BeforeIsTransitive | scripts/model-catalog-protocol.ts:221-260 | coming strictly before is transitive on all versions |
| CatalogVersions.LeadingZerosBreakTheOrder | scripts/model-catalog-protocol.ts:251-255 | three concrete versions on which comparison is not transitive |
| CatalogVersions.SelectModelCatalog | scripts/model-catalog-protocol.ts:132-158 | the first entry of the default revision without a version, nothing for a malformed one, an error with the first malformed minimum, otherwise the best entry |
| VersionPrecedence.SelectionIsFirstGreatest | scripts/model-catalog-protocol.ts:132-158 | the best entry is the first of those not after the request that none of those comes after; there is none exactly when every minimum comes after the request |
| CatalogVersions.BestIsGreatest | scripts/model-catalog-protocol.ts:144-156 | the selected entry fits and no fitting entry has a greater minimum, whenever the minimums are ordered in that sense |
| CatalogVersions.NothingIffIncompatible | scripts/model-catalog-protocol.ts:144-157 | nothing is selected exactly when no entry is compatible |
| CatalogVersions.SelectionIsMonotone | scripts/model-catalog-protocol.ts:132-158 | a newer client never gets an older catalog and never loses having one |
| CatalogVersions.CanonicalSelection | scripts/model-catalog-protocol.ts:132-158 | so without leading zeros every client gets the fitting entry with the greatest minimum, and a newer client has the same minimum or a newer one |
| GatewayPricing.GetAiGatewayCost | packages/ai/scripts/ai-gateway-pricing.ts:38-67 | the tiers are exactly one per positive bracket start, in ascending order, with the listed prices there |
| GatewayPricing.ConvertedFrom | packages/ai/scripts/ai-gateway-pricing.ts:30-50 | base prices are those of the list for a million tokens, zero where there is none, and starts are the positive bracket starts of all rates |
| GatewayPricing.ListedIs | packages/ai/scripts/ai-gateway-pricing.ts:52-64 | a listed price is that of the first bracket that reaches from its start up to but not including its end, if it has one, else the base price |
| GatewayPricing.ChargedAsListedIff | packages/ai/scripts/ai-gateway-pricing.ts:38-67 | for tiers in any order, every rate at every prompt length is charged as listed if and only if no price changes at zero or at an end that is no start |
| GatewayPricing.ZeroBracketIsNotCharged | packages/ai/scripts/ai-gateway-pricing.ts:38-67 | a list whose one bracket starts at zero at twice the base price converts to no tier, and every request is charged half of what it says |
| GatewayPricing.WellFormedListsConvert | packages/ai/scripts/ai-gateway-pricing.ts:34-37 | so lists whose zero bracket is the base price and whose ends are starts are always charged as listed |
| GatewayPricing.TierOrderIsIrrelevant | packages/ai/src/models.ts:1204-1209 | the tier loop's result does not depend on the order of unambiguous tiers |
| GatewayPricing.MatchedIsGreatest | packages/ai/src/models.ts:1203-1209 | the loop finds the greatest threshold below the prompt length, or keeps the base rates |
| GatewayPricing.Usage.CalculateCost | packages/ai/src/models.ts:1200-1220 | each cost is its rate times its tokens, one-hour writes at twice the input rate, and the total is their sum |
| GatewayPricing.RequestCostsAsListed | packages/ai/src/models.ts:1200-1220 | a request charged with converted tiers costs the listed price per token for its prompt length: input, output, cache reads, and cache writes with the one-hour ones at twice the input price |
| GatewayPricing.ChargeRequest | packages/ai/scripts/ai-gateway-pricing.ts:38-67 | converting a list and charging a request with the result charges what the list says, whenever the list meets the exact condition |
| FixtureValidation.ValidateMappings | eval/schema.ts:204-309 | validation succeeds exactly on fixtures that meet every check, and otherwise names the first group of checks that fails |
| FixtureValidation.CheckTriggers | eval/schema.ts:248-258 | the loop with its running boundary accepts exactly strictly increasing, well-placed triggers |
| FixtureMeaning.ValidMeans | eval/schema.ts:204-309 | validation accepts exactly one chain of different records of the stated size on which no id names two annotations and every annotation is in order, which the next rows say |
| FixtureMeaning.FactMeans | eval/schema.ts:218-223 | a fact has its declared type and is quoted by an entry no later than the one it is valid at |
| FixtureMeaning.DecisionMeans | eval/schema.ts:224-234 | a decision takes effect after all it supersedes and no earlier than its quotes |
| FixtureMeaning.AuthorityMeans | eval/schema.ts:235-242 | an authority takes effect no earlier than its sources and is measured offline unless it is an original message |
| FixtureMeaning.TriggersMean | eval/schema.ts:244-255 | triggers stand at assistant records, each after the one before, with the tokens so far |
| FixtureMeaning.TokensAddUp | eval/schema.ts:201-203 | a record counts a third of its bytes, rounded up |
| FixtureMeaning.ProbeMeans | eval/schema.ts:265-308 | a probe targets the writer exactly for a promotion, its annotations exist, its support is quoted and joint if it must be, and nothing its gold answer or its early facts rest on is later than its checkpoint |
| FixtureProofs.ScriptedAnswersPass | eval/scripted-responses.ts:4-44 | on validated fixtures every scripted fact, decision, authority and no-answer response passes, and a support response passes exactly when none of its quotes carries counter-evidence |
| FixtureProofs.ValidatedSupportCanFail | eval/schema.ts:289-299 | a concrete fixture is accepted although its scripted support answer fails |
| FixtureProofs.CounterMatchesIff | eval/scorer.ts:97-106 | a scripted quote matches counter-evidence exactly when it is of the same entry and contains it |
| FixtureProofs.EntriesAreFound | eval/scorer.ts:88-96 | locating entries by id within the checkpoint finds exactly those entries |
| FixtureScoring.FactPassesIff | eval/scorer.ts:195-203 | an answer to a fact passes exactly when it is an answer without claims and foreign fields, with the fact's unit and a value of the same normal form |
| FixtureScoring.SupportPassesIff | eval/scorer.ts:204-210 | to a support probe exactly with the claim, one whole set of evidence backed and no counter-evidence backed |
| FixtureScoring.DecisionPassesIff | eval/scorer.ts:211-224 | to a decision exactly with its value and scope, a locator of when it took effect, locators of exactly what it superseded, and one set of evidence backed |
| FixtureScoring.AuthorityPassesIff | eval/scorer.ts:225-244 | to an authority probe exactly when both the verdict and the trusted measurement of the dimension are the expected ones, with the attempted scope |
| FixtureScoring.NoAnswerPassesIff | eval/scorer.ts:260-270 | to a no-answer probe exactly when it says unknown and nothing else |
| FixtureScoring.UnjudgedOutcomes | eval/scorer.ts:157-169 | exactly when an answer is blocked, omitted, invalid or abstained, in this order of precedence |
| FixtureScoring.WrongFactFails | eval/scorer.ts:195-203 | the scripted answer to a fact with a value of another normal form, another unit or another status fails |
| FixtureScoring.WrongDecisionFails | eval/scorer.ts:211-224 | so does that to a decision with another value or scope or naming another superseded entry |
| FixtureScoring.WrongAuthorityFails | eval/scorer.ts:225-244 | and that to an authority probe with the other verdict, another scope or the other measurement |
| FixtureScoring.LocatedIff | eval/scorer.ts:88-96 | a locator points at exactly the records that fit every part it names, and at none if it names nothing |
| FixtureScoring.BackedIff | eval/scorer.ts:97-106 | a quote is matched exactly by a locator of its entry whose own text, if any, contains it |
| FixtureScoring.PrefixEndsAt | eval/scorer.ts:170-172 | an answer may refer to the records up to and including its checkpoint's |
| FixtureScoring.FactAnswerIsBacked | eval/scripted-responses.ts:9-13 | on validated fixtures the scripted answer to a fact shows its source |
| ProxyStream.ProxyReader.ReadAll | packages/agent/src/proxy.ts:175-232 | however the text is cut into chunks the result is that of its lines, and the consumer always gets a terminal event |
| ProxyStream.SplitContinues | packages/agent/src/proxy.ts:199-201 | splitting a longer text continues only its last line |
| ProxyStream.ProxyReader.ProcessProxyEvent | packages/agent/src/proxy.ts:257-393 | an event changes only its own block, or fails without changing anything |
| ProxyStream.BodyIsItsDeltas | packages/agent/src/proxy.ts:265-313 | a block's text or thinking is the concatenation of its deltas since it was begun |
| ProxyStream.BlocksAreIndependent | packages/agent/src/proxy.ts:257-369 | each block is what its own events alone would have built, however blocks interleave |
| ProxyStream.AcceptedIffEachBlockIs | packages/agent/src/proxy.ts:257-369 | a stream is accepted exactly when each block's own events are |
| ProxyResults.ConsumerSees | packages/agent/src/proxy.ts:175-232 | the consumer sees the events of the lines before the first that is malformed or does not fit, without ends of tool calls that none began, and then an error if the stream failed or merely stopped |
| ProxyResults.AcceptedIffFits | packages/agent/src/proxy.ts:257-369 | an event is accepted exactly when it needs no block or the block was last begun with its kind |
| ProxyResults.SplitIff | packages/agent/src/proxy.ts:199-201 | lines are the unbroken parts that join to the text |
| ProxyResults.TagIsLast | packages/agent/src/proxy.ts:257-369 | a block's tag is that of the last event that began or ended it |
| ProxyResults.ToolCallBody | packages/agent/src/proxy.ts:329-366 | a tool call collects its deltas until its end takes them away |
| ProxyResults.LateDeltas | packages/agent/src/proxy.ts:339-366 | deltas after the end of a tool call are appended to the word undefined |
| WorkerPool.PoolIsBounded | eval/live/scheduler.ts:2-20 | in every interleaving at most the given number of items is in progress, the claimed items are a prefix, and none is claimed, finished or lost twice |
| WorkerPool.EveryItemOnce | eval/live/scheduler.ts:2-20 | a pool that is never stopped and rejects nothing has processed every item exactly once when it returns |
| WorkerPool.PoolShape | eval/live/scheduler.ts:2-20 | there are as many workers as may run at once or as there are items, and a claim takes the next item, if there is one |
| WorkerPool.SomeoneCanStep | eval/live/scheduler.ts:11-18 | a worker that has neither returned nor thrown can always go on |
| Overhead.OverheadReport | eval/preview/overhead.ts:511-549 | overall figures are those of all rows and the sum over the cuts, each cut has exactly its own rows, each tier exactly its own attempts, and the tiers share out the attempts |
| Overhead.ReportIsConserved | eval/preview/overhead.ts:325-388 | every counted call is in exactly one column and the missing count is the sum of the columns' missing counts |
| Overhead.AttemptChargesEachCall | eval/preview/overhead.ts:308-345 | an attempt charges each of its writer calls, by record or by journal, and each dispatched preparation call exactly once: a failed attempt's calls to its failure, its repairs also to those not committed, else declined calls apart and the rest to the writer; preparation to the writer exactly after success on the complete path |
| Overhead.ProbeChargesEachCall | eval/preview/overhead.ts:360-381 | a probe charges its recorded rounds as calls of its own condition, its dispatched preparation calls as preparation, each exactly once, and no column any other call |
| Overhead.WarmupChargesEachCall | eval/preview/overhead.ts:383-388 | a warm-up charges each dispatched preparation call exactly once, to preparation, and no other call |
| OverheadRows.RowFigures | eval/preview/overhead.ts:271-388 | what a row adds to the figures of a column is the number of the calls its outcome puts there, how many reported no usage, and the sums of each kind of token over the others |
| OverheadRows.AttemptCounts | eval/preview/overhead.ts:325-358 | an attempt counts its note's figures when it succeeded, and its one-hour writes where its outcome says |
| OverheadRows.ProbeCounts | eval/preview/overhead.ts:360-381 | a probe with the history is one question, and its other figures are added up |
| OverheadRows.AttemptMisses | eval/preview/overhead.ts:285-291 | calls of an attempt without usage are tallied by their purpose and by their phase |
| OverheadRows.ProbeMisses | eval/preview/overhead.ts:285-291 | and so are those of a probe |
| OverheadRows.WriterCallAt | eval/preview/overhead.ts:308-319 | a writer's calls are its records and then what the journal has beyond them |
| OverheadRows.JournalConcat | eval/preview/overhead.ts:313-323 | a journal's calls of a purpose are those that were dispatched, in order |
| Overhead.TiersShareTheWriter | eval/preview/overhead.ts:525-533 | the tiers' writer figures sum to the overall writer figures |
| Overhead.Enter | eval/preview/overhead.ts:271-291 | entering a charge adds what the call reported to its column, and to the missing tallies when it reported nothing |

## Left out

- RefreshResults.PublicationsAreSerial: a store call is assumed to take effect at one moment between its start and its answer, and only publications are assumed to change the store.
- RefreshResults.SupersededNeverActs: setting, deleting, clearing and beginning a refresh are single steps in the runs of RefreshProtocol, and so in every result about runs; abort listeners that call back during one are treated in RefreshReentrancy alone.
- RefreshProtocol: a refresh begins registered providers only; in the program one that a callback deletes between two begins of the same refresh is begun unregistered, of which RefreshReentrancy.ReentrantBegin says only that the invariant fails.
- RefreshReentrancy: the calls a listener makes are whole events, so listeners on what those calls abort run no calls of their own.
- ModelsImpl: credential resolution, reading the stored entry, the race that lets a caller stop waiting, and the errors collected by refresh are not modelled.
- createProvider's overlay of dynamic models, getModels and thinking levels are not modelled.
- AgentLoop: hooks, tools and listeners that throw, and the failure run that reports them, are not modelled; a hook that returns the very context object it was given is treated as returning its value.
- AgentLoop: the model and thinking level that hooks choose are not modelled.
- AgentLoop: runs are taken over finite scripts of turns; a run that the script does not finish is only as long as the script.
- AgentScheduling.QueuesAreConserved: clearing a queue during a run is not modelled.
- Agent.AgentObject.RunWithLifecycle: the events of a run are reduced after the loop instead of between its awaits, and a run reads the queues through the script's arrivals; listeners are not modelled.
- ToolBatch: argument preparation, validation, the before and after hooks and runToolCall are one oracle that yields an outcome.
- ToolDeclarations: tools are compared by one serialized declaration; the system prompt text of a transcript is not modelled.
- LedgerRuns: counters are unbounded integers, event rows and snapshots are not modelled, and the cap mode has no part in the accounting.
- QuotaTree: the plan and its transports are a step relation over values, with every step of a request between two awaits; the schedule, combined limits, the first-writer gate, run results and files are not modelled.
- StrictJsonCopy: proxies, getters with effects and typed arrays are not modelled; property order is the order of own keys.
- CatalogVersions: versions are parsed by a parameter, and identifiers larger than a safe integer are compared exactly here, while the program compares rounded numbers.
- GatewayPricing: prices are exact rationals, so rounding to six digits and the parsing of price strings are not modelled.
- FixtureOracle.Score: scripted answers and scores are functions over values; continuation probes, the counters of extra and unsupported claims and the traceable flag are not modelled, and equality of JSON values is equality of values.
- FixtureValidation.ValidateMappings: the first failing group of checks is named instead of the error code, and continuation probes are not modelled.
- ProxyStream.ProxyReader.ReadAll: the fetch and its errors and aborting are not modelled; the decoder is assumed to flush no line break.
- ProxyStream.ProxyReader.ProcessProxyEvent: the parsing of tool-call arguments, usage and stop reasons are not modelled.
- WorkerPool: the workers are a step relation over values, in which whole claims and completions interleave; the concurrency check that throws is the precondition of the initial pool.
- Overhead.OverheadReport: journal parsing, per-checkpoint ratios, medians, saved tokens and the tier decision are not modelled; retrieval operations are plain counts.
- Redaction, file and process handling, registries, generated tables and statistics scripts are not modelled.
