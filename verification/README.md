# A verified model of the ForgePilot agent runtime

This project models the parts of ForgePilot that carry algorithms rather than plumbing, and proves what
they keep over every run. Each Dafny module follows one part of the program; operations that change state
are methods of classes, proved equal to specification functions, and the theorems are lemmas about those
functions over arbitrary runs. `dafny verify dfyconfig.toml` checks everything.

| files | part of the program |
|---|---|
| `messages.dfy`, `message_contents.dfy`, `compaction.dfy` | the message normaliser, image stripping, compaction and its orchestrator, result truncation |
| `tool_stage.dfy`, `reply_parsing.dfy`, `tool_answers.dfy`, `engine.dfy` | reply parsing, the tool and permission stage, the agent loop `submit_message` |
| `engine_stops.dfy`, `engine_runs.dfy`, `engine_ledger.dfy`, `engine_transcript.dfy` | theorems over whole runs and sessions of the agent loop: when it stops and what it says, turns, fallback, compaction, ledgers, budget, tool stages, transcript |
| `runtime_permissions.dfy`, `permission_protocol.dfy`, `permission_invariant.dfy`, `permission_safety.dfy`, `permission_outcomes.dfy`, `permission_races.dfy` | the SQLite permission table and the approval protocol over all interleavings of its statements |
| `memory_rate_limit.dfy`, `redis_rate_limit.dfy` | the sliding-window limiter and the Redis fixed-window script |
| `json_scanner.dfy`, `mcp_framing.dfy`, `mcp_headers.dfy`, `stream_assembly.dfy` | the JSON object scanner, the MCP stdio framing and request table, reassembly of streamed tool calls |
| `file_cache.dfy` | the byte- and count-bounded LRU cache |
| `sandbox_machine.dfy`, `sandbox_uses.dfy`, `sandbox_leases.dfy`, `sandbox_bounds.dfy`, `sandbox_misuse.dfy`, `sandbox_pool.dfy` | the sandbox pool as a machine of steps, and as mutable objects that refine it |
| `session_store.dfy`, `session_lock.dfy` | session payloads, repair and the metadata patch; concurrent appends under the lock file |
| `options.dfy`, `filters.dfy`, `lists.dfy`, `local_passes.dfy`, `arithmetic.dfy` | shared: optional values, filtering, duplicate-free lists, passes over a list that look at the last element kept, maximum and minimum |

The outside world is an argument: the provider's and summariser's answers, policy, permission answers, hooks
and tool bodies, JSON decoding, clocks, fresh ids and the working directory. A run of the agent loop is driven
by a script of such answers, so a script of any length observes a prefix of a run. Times and costs are reals or
whole numbers. Insertion-ordered dictionaries whose order matters are sequences of pairs.

Some properties one would expect do not hold of the code. For these the model keeps the code's behaviour, and
the table has a lemma with the failing input beside the statement of what does hold:

- a forced compaction that fails or has nothing to compact gives the turn back without marking anything, so the
  number of provider calls is unbounded (`EngineRuns.FirstSubmissionUnbounded`); it is bounded if and only if the
  engine has compacted before (`EngineRuns.QuestionsBoundedIff`);
- a submission that finishes on its last allowed turn is closed as `error_max_turns` (`EngineStops.ToolsThenText`);
  `EngineStops.SubmissionCloses` says for every submission how it is closed;
- a sandbox filed under the empty image name is never evicted, because the name is tested for truth
  (`SandboxMisuse.UnnamedImageOverflows`); the pool exceeds its bound by at most one for each eviction skipped in
  this way (`SandboxBounds.PoolBounded`);
- releasing a sandbox twice can make two later leases share it (`SandboxMisuse.StaleReleaseShares`); leases stay
  distinct and in use if and only if nobody gives back what another holds (`SandboxLeases.ApartIffConsiderate`), and
  are also exactly the instances in use if and only if every release is harmless
  (`SandboxLeases.ExclusiveIffDisciplined`);
- `retry_after` of the in-memory limiter is rounded down, so waiting exactly that long is enough only when less
  than a second remained (`MemoryRateLimit.RetryAfterAccurate`); with a limit of zero or less the limiter raises
  (`MemoryRateLimit.DecidesOnFullHistory`);
- breaking a stale session lock can lose an append (`SessionLock.StaleLockLoses`); nothing is ever lost if and only
  if every write had read the transcript that is still there (`SessionLock.IntactIffWritesCurrent`);
- `repaired=False` does not mean that a session was left unchanged (`SessionStore.SilentRepair`); it was if and only
  if the file was settled (`SessionStore.UnchangedIffSettled`);
- two responders to one permission can both report success, and a cancelled waiter leaves its row behind
  (`PermissionRaces.BothRespondersSucceed`, `PermissionRaces.CancelLeavesRow`); a responder succeeds if and only if
  it checked while the row was pending and writes while it is visible (`PermissionRaces.RespondsIff`,
  `PermissionRaces.LateResponderFails`);
- a tool result whose id is empty, which a provider that declares such a call can cause, is not sent behind the
  assistant message it answers (`EngineTranscript.EmptyIdDropped`, `EngineTranscript.EmptyIdSentIff`);
- the pairing pass looks into block lists only, so a user message whose content is one bare tool result, which the
  preloaded history or a prompt can hold, is sent unmatched (`Messages.StraySent`); all results sent behind block-list
  assistant messages are matched if and only if no such message stands alone (`Messages.NormalizePairsIff`);
- a release of the very sandbox that is being stopped can make it the most recently used one before it is removed
  (`SandboxMisuse.VictimRefreshed`); exactly when is said by `SandboxBounds.EvictsLeastRecentlyUsed`;
- truncating a tool result to a limit of 0 or 1 makes it longer, as the slice `[-0:]` is the whole text
  (`Compaction.MicroTextBounded`).

## Model

| member | source | states |
|---|---|---|
| Messages.KeepValid | forgepilot_sdk/utils/messages.py:74-87 | the inner loop keeps exactly the dict blocks that are no tool result or answer a non-empty id of the preceding assistant message |
| Messages.FixToolResultPairing | forgepilot_sdk/utils/messages.py:64-92 | the pairing loop computes `Fix`, each message judged against the last one kept so far |
| Messages.NormalizeMessagesForApi | forgepilot_sdk/utils/messages.py:52-61 | the merging loop followed by the pairing pass computes `Normalize` on every message list |
| Messages.NormalizeIdempotent | forgepilot_sdk/utils/messages.py:52-92 | normalising a normalised transcript changes nothing |
| Messages.NormalizeShape | forgepilot_sdk/utils/messages.py:52-92 | no two user messages are adjacent, and in a block list behind a block-list assistant message every tool result answers one of its ids |
| Messages.NormalizePairsIff | forgepilot_sdk/utils/messages.py:52-92 | all tool results behind block-list assistant messages are matched, however they are held, if and only if the transcript has no user message that is a bare unmatched result with no user message behind it |
| Messages.UnmatchedIffStray | forgepilot_sdk/utils/messages.py:67-91 | in what is sent, a user message behind a block-list assistant message holds an unmatched result if and only if its content is one bare result outside any list |
| Messages.StraySent | forgepilot_sdk/utils/messages.py:67-91 | a bare result with an empty id that answers nothing is sent as it is |
| Messages.NormalizeKeepsPlainBlocks | forgepilot_sdk/utils/messages.py:52-92 | no dict block of a user message other than a tool result is lost, added or reordered |
| Messages.OthersKept | forgepilot_sdk/utils/messages.py:52-92 | messages that are not user messages come through unchanged and in order |
| Messages.FixIsLocal | forgepilot_sdk/utils/messages.py:64-92 | without adjacent users the pass decides each message from its own predecessor, although it looks at what it kept |
| Messages.NormalizeKeepsAnswers | forgepilot_sdk/utils/messages.py:52-92 | the tool results sent are, in order, exactly those that each run of user messages keeps: of a block list behind a block-list assistant message the ones answering it, and elsewhere, a bare result included, all |
| Messages.ResultsSurvive | forgepilot_sdk/utils/messages.py:52-92 | the tool results of a user message behind an assistant message that are known to it stay together and in order at the head of the user message that is sent right behind that assistant message |
| Messages.PlacesAscend | forgepilot_sdk/utils/messages.py:52-92 | the surviving results of different user messages behind assistant messages are sent in different messages, in transcript order |
| MessageContents.NormalizeSays | forgepilot_sdk/utils/messages.py:40-92 | what the user messages say, read straight off their contents, is kept by merging text by text and block by block, and of each merged message nothing is missing but tool results that the block-list assistant message before it does not know |
| MessageContents.TwoTextsSay | forgepilot_sdk/utils/messages.py:49-61 | two texts in a row are sent as one message that holds both |
| Compaction.StripImagesFromMessages | forgepilot_sdk/utils/messages.py:95-108 | the loop strips image blocks message by message, leaving a placeholder text where nothing is left |
| Compaction.StripSays | forgepilot_sdk/utils/messages.py:95-108 | stripping leaves the blocks that are no images, in order, and a text in place of a list of nothing but images |
| Compaction.ChunkSize | forgepilot_sdk/utils/compact.py:158-174 | the chunk never reaches into the recent messages, is no longer than asked for, and is empty exactly when there are too few messages |
| Compaction.CompactionConserves | forgepilot_sdk/utils/compact.py:177-260 | success replaces exactly the oldest k messages by two and keeps the rest in order up to image stripping; failure or an empty chunk changes no message; `compacted` never goes back |
| Compaction.CompactionShrinksIff | forgepilot_sdk/utils/compact.py:158-247 | success shortens the transcript if and only if more than two messages are summarised |
| Compaction.CompactionSettles | forgepilot_sdk/utils/compact.py:158-247 | repeated compaction ends at exactly keep_recent + 2 messages, however long the transcript was |
| Compaction.ContextOrchestrator.constructor | forgepilot_sdk/utils/context_orchestrator.py:59-74 | counters start at zero |
| Compaction.ContextOrchestrator.ApplyBeforeModelCall | forgepilot_sdk/utils/context_orchestrator.py:76-137 | compacts only when enabled, below three failures and over the threshold; the counters move exactly when the transcript was rewritten and then account for every message |
| Compaction.MicroCompactMessages | forgepilot_sdk/utils/compact.py:263-291 | the nested loops truncate the over-long tool results of block lists and nothing else |
| Compaction.MicroTextBounded | forgepilot_sdk/utils/compact.py:280-286 | truncation keeps a result within the limit plus the marker if and only if the limit is at least 2 or the text already fits |
| Compaction.MicroSays | forgepilot_sdk/utils/compact.py:280-286 | an over-long text becomes its first half limit, the marker and its last half limit, and for each limit below 2 what the slices make of it |
| Compaction.MicroTouches | forgepilot_sdk/utils/compact.py:263-291 | nothing but the output of tool results in lists is touched; ids, flags and other blocks stay |
| Compaction.ProviderSeesPairs | forgepilot_sdk/engine.py:448 | what is sent - normalised, then truncated - has no adjacent users and only matched tool results in block lists, and only matched ones altogether if and only if no bare unmatched result stands alone |
| ToolStage.NormalizeProviderResponse | forgepilot_sdk/engine.py:216-245 | the two loops compute `Parse`: blocks in order, calls keyed by id with the last one winning, declared calls added only when new |
| ToolStage.ParseWell | forgepilot_sdk/engine.py:216-245 | call ids are distinct, every call has its tool_use block and every tool_use block a call, and nothing but text and identified tool_use blocks is recorded |
| ReplyParsing.ParseSays | forgepilot_sdk/engine.py:216-245 | blocks in order with the text, or the name and input under the block's own or fresh id; for every id the last tool_use block, ids in order of first occurrence; then the first declared call for every new id, with its block |
| ToolStage.AnswerOne | forgepilot_sdk/engine.py:591-704 | the body of the second loop, branch by branch, gives the answer `AnswerPending` |
| ToolStage.SortByPolicy | forgepilot_sdk/engine.py:578-589 | the first loop answers the denied calls at once and keeps the others, both in call order |
| ToolStage.RunToolStage | forgepilot_sdk/engine.py:568-704 | the two loops give policy-denied answers first, then one answer for each remaining call |
| ToolStage.EachCallAnsweredOnce | forgepilot_sdk/engine.py:568-704 | the answer ids are the denied ids followed by the others, each in call order: a permutation of the call ids |
| ToolStage.BodyRunsIffAuthorised | forgepilot_sdk/engine.py:578-704 | a tool body runs for a call if and only if policy, permission, tool, `can_use_tool` and hooks all let it through, and on the effective input |
| ToolAnswers.EveryAnswerRight | forgepilot_sdk/engine.py:295-330 | every answer of a stage goes under its call's id and name and gives the tool body's own output and error flag for an authorised call, and an error with the words of the first gate it failed for any other |
| ToolAnswers.EveryCallRight | forgepilot_sdk/engine.py:568-704 | where the ids are distinct every call gets its right answer |
| ToolAnswers.ErrorsSay | forgepilot_sdk/engine.py:707-712 | the errors collected are the outputs of the failed answers, in order |
| ToolStage.RecordResults | forgepilot_sdk/engine.py:706-721 | the loop turns each answer, in order, into one tool_result block with its id, output and error flag, and appends the failed outputs to the errors |
| Engine.QueryEngine.constructor | forgepilot_sdk/engine.py:80-156 | a new engine has an empty transcript, empty ledgers and an uncompacted state |
| Engine.QueryEngine.Preload | forgepilot_sdk/agent.py:549-558 | an earlier history is put behind what the transcript holds, with no say about where it came from |
| Engine.QueryEngine.ApplyContextWindow | forgepilot_sdk/engine.py:425-437 | the orchestrator's messages and state are taken over |
| Engine.QueryEngine.TakeOver | forgepilot_sdk/engine.py:481-486 | a compaction result replaces transcript and state, and provenance moves with it |
| Engine.QueryEngine.AddUsage | forgepilot_sdk/engine.py:501-512 | totals, cost and the active model's ledger entry grow by the same usage |
| Engine.QueryEngine.HandleError | forgepilot_sdk/engine.py:464-499 | fallback, forced compaction or giving up, with the turn given back in the first two cases only |
| Engine.QueryEngine.HandleReply | forgepilot_sdk/engine.py:501-727 | a reply is billed and recorded, then recovered from, ended or sent through the tool stage, exactly as `AfterReply` says |
| Engine.QueryEngine.Step | forgepilot_sdk/engine.py:424-727 | one pass behind the abort and budget checks is `Iterate` |
| Engine.QueryEngine.SubmitMessage | forgepilot_sdk/engine.py:382-762 | a whole submission ends in the state, subtype and errors of the specification loop, `error_max_turns` included when the last allowed turn ended by itself; a blocked one changes nothing |
| EngineStops.CourseStops | forgepilot_sdk/engine.py:418-727 | what a turn does to status, turns, turn count, model and recoveries, told from the abort flag, the budget, the provider's answer, its stop reason and the recoveries so far |
| EngineStops.CourseSays | forgepilot_sdk/engine.py:515-724 | what a turn adds to the transcript - the reply's blocks, then the request to continue or one result for each call - and to the errors |
| EngineStops.CourseCompacts | forgepilot_sdk/engine.py:470-489 | a turn that forces a compaction goes on with its result |
| EngineStops.OrchestrateIff | forgepilot_sdk/utils/context_orchestrator.py:84-98 | the transcript is compacted before a call if and only if that is enabled, the threshold is passed and fewer than three failures in a row lie behind |
| EngineStops.StopsIff | forgepilot_sdk/engine.py:417-727 | over every run the loop is left if and only if a turn was aborted, answered without a call and was not continued, or ran its tools and meant to end; the budget, a provider error and an empty reply stop it in their own ways |
| EngineStops.SubmissionCloses | forgepilot_sdk/engine.py:460-735 | the closing subtype of every submission told from its turns: budget, error, empty reply, success, or turns used up, which also hides a success on the last turn |
| EngineStops.SubmissionSays | forgepilot_sdk/engine.py:397-724 | where nothing is compacted a submission leaves the old transcript, its prompt and what its turns said, and the errors its turns complained of |
| EngineStops.ToolsThenText | forgepilot_sdk/engine.py:417-735 | any number of tool replies within the limit and then a text ask the provider once each, and succeed unless the text took the last turn |
| EngineRuns.TurnBalance | forgepilot_sdk/engine.py:446-489 | turn_count + turns_remaining is the same before and after every pass; a turn is used unless the provider raised and the loop went on |
| EngineRuns.RunBalance | forgepilot_sdk/engine.py:411-499 | over any run, provider calls less refunds plus turns remaining is constant |
| EngineRuns.SessionTracked | forgepilot_sdk/engine.py:417-489 | over any session on any history, model and compaction state are functions of what happened: at most one fallback, forced compaction only before the first success, automatic compaction only below three failures |
| EngineRuns.FallbackOnce | forgepilot_sdk/engine.py:465-469 | the fallback happens at most once in the life of an engine |
| EngineRuns.ForcedOnce | forgepilot_sdk/engine.py:470-489 | if forced compactions succeed there is at most one |
| EngineRuns.ProviderCallBound | forgepilot_sdk/engine.py:411-499 | over any session on any history, provider calls are at most the turns allowed plus fallbacks plus forced compactions, hence at most two more than the turns when the forced compactions succeed |
| EngineRuns.CompactedBounds | forgepilot_sdk/engine.py:464-499 | once the engine has compacted, any run asks at most once for each turn left and once more for a fallback |
| EngineRuns.RefundsUnbounded | forgepilot_sdk/engine.py:470-489 | within budget and without a compaction behind it, a loop can ask any number of times with no turn used, whatever the window, the transcript and the fallback |
| EngineRuns.QuestionsBoundedIff | forgepilot_sdk/engine.py:464-499 | a loop that goes on within its budget has bounded provider calls over all scripts if and only if it has compacted |
| EngineRuns.FirstSubmissionUnbounded | forgepilot_sdk/engine.py:411-499 | already the first submission of an engine, on any history, can ask any number of times |
| EngineRuns.CompactionGivesUp | forgepilot_sdk/utils/compact.py:31-32 | after a success and then three failures in a row no compaction of any kind happens again |
| EngineRuns.SummariserBackoff | forgepilot_sdk/engine.py:425-489 | at every point of every session: no automatic compaction at three failures, no forced one after a success, and both together end compaction |
| EngineLedger.LedgerBalances | forgepilot_sdk/engine.py:501-512 | across submissions and model switches the totals are the sums over `model_usage`, and every entry and the cost are what was billed |
| EngineLedger.CacheBalances | forgepilot_sdk/engine.py:504-505 | over any session the two cache counters are the sums of what was billed |
| EngineLedger.BudgetHolds | forgepilot_sdk/engine.py:420-422 | one submission ends below the budget plus its last call's cost, and bills nothing when the budget was used up before |
| EngineLedger.RecoveriesBounded | forgepilot_sdk/engine.py:557-566 | no stretch of a submission without a tool stage holds more than three `max_tokens` recoveries |
| EngineLedger.EveryToolStage | forgepilot_sdk/engine.py:564-724 | at every tool stage of every session the answers are a permutation of the assistant message's distinct tool_use ids, denied first, each is the right answer to its call in output, error flag and name, and bodies ran exactly for authorised calls |
| EngineLedger.TurnLog | forgepilot_sdk/engine.py:424-727 | each pass that reaches the provider asks once, after at most one compaction, and bills once if and only if it was answered |
| EngineTranscript.SessionOrdered | forgepilot_sdk/engine.py:397-724 | in every transcript reachable from any preloaded history, a result list recorded by the engine stands directly behind the assistant message whose calls it answers, or behind a compaction's acknowledgement that replaced it |
| EngineTranscript.RecordedSurvive | forgepilot_sdk/engine.py:723-724 | what is sent of a recorded stage: the results with a non-empty id, or all of them after a compaction cut, in order at the head of the message right behind the one they stood behind |
| EngineTranscript.RequestsCarryResults | forgepilot_sdk/engine.py:425-448 | at every model call of every session, on any preloaded history, the normalised and truncated request carries each recorded stage whole, in order and right behind its assistant message, different stages in different messages; block lists are matched, and all results are if and only if no bare unmatched result stands alone, which only the history or a prompt can bring in |
| EngineTranscript.EmptyIdSentIff | forgepilot_sdk/utils/messages.py:67-90 | a result with an empty id is sent behind a block-list assistant message if and only if it is the bare content of its message: never in a block list, not even behind a call with an empty id |
| EngineTranscript.EmptyIdDropped | forgepilot_sdk/engine.py:239-243 | a run in which a declared call with an empty id is answered and the answer is not sent |
| RuntimePermissions.PermissionStore.constructor | forgepilot_api/storage/repositories.py:437-476 | the table starts empty |
| RuntimePermissions.PermissionStore.Register | forgepilot_api/storage/repositories.py:437-476 | the upsert makes the row pending with a fresh expiry, and visible |
| RuntimePermissions.PermissionStore.Get | forgepilot_api/storage/repositories.py:479-497 | a row is seen if and only if it is there and not expired |
| RuntimePermissions.PermissionStore.SetStatus | forgepilot_api/storage/repositories.py:500-510 | writes and reports success if and only if the row is visible; the expiry stays |
| RuntimePermissions.PermissionStore.Delete | forgepilot_api/storage/repositories.py:513-518 | removes the row and reports whether it was there |
| RuntimePermissions.PermissionStore.DeleteExpired | forgepilot_api/storage/repositories.py:521-524 | removes exactly the expired rows and counts them |
| RuntimePermissions.RegisterLasts | forgepilot_api/storage/repositories.py:437-476 | a registered row is pending and visible exactly until its time to live, of at least a second, is over; other rows stay |
| RuntimePermissions.MarkKeepsTimes | forgepilot_api/storage/repositories.py:500-510 | a write changes the status of one visible row and the visibility of none |
| RuntimePermissions.SweepUnseen | forgepilot_api/storage/repositories.py:521-524 | nobody can tell afterwards that expired rows were removed |
| PermissionInvariant.RunKeeps | forgepilot_api/services/agent_service.py:255-341 | in every interleaving each row's status is the last one written to it, every write has an author, and a returned waiter's row is invisible |
| PermissionSafety.GrantNeedsApproval | forgepilot_api/services/agent_service.py:280-341 | a waiter returns True only after a responder approved that id, after its registration, and reported success, with no other write to the row between the approval and the decision |
| PermissionOutcomes.DecidedPoll | forgepilot_api/services/agent_service.py:283-292 | a poll that finds the row decided deletes it and returns True if and only if the last status given to it is "approved" |
| PermissionOutcomes.ReadDecides | forgepilot_api/services/agent_service.py:280-292 | a poll that finds no row returns False |
| PermissionOutcomes.PendingPoll | forgepilot_api/services/agent_service.py:294-316 | a poll that finds the row pending polls again unless it sees the abort or is past its deadline; then it writes "cancelled" or "timeout", deletes the row and returns False |
| PermissionOutcomes.LeavingReturns | forgepilot_api/services/agent_service.py:287-292 | whatever others do meanwhile, a waiter that has decided returns its decision once it has deleted the row, unless it is cancelled before |
| PermissionOutcomes.ReturnsTrueIff | forgepilot_api/services/agent_service.py:280-324 | in every run a waiter returns True if and only if one of its polls found the row visible and last approved and it then deleted the row before anything cancelled it |
| PermissionOutcomes.ApprovalGrants | forgepilot_api/services/agent_service.py:280-341 | a registration, an approval and a poll that nothing disturbs return True |
| PermissionOutcomes.AbortStays | forgepilot_api/services/agent_service.py:267-277 | exactly the aborted sessions are seen as aborted, for ever |
| PermissionSafety.PendingNeverReturns | forgepilot_api/storage/repositories.py:479-518 | once a status has left "pending" it never comes back, in any continuation |
| PermissionSafety.ReturnIsFinal | forgepilot_api/services/agent_service.py:280-341 | after the waiter's own return the row stays invisible for ever and no later responder succeeds on it or changes it |
| PermissionSafety.RunOpenFirst | forgepilot_api/services/agent_service.py:255-265 | in every run each row was registered and each write came after the registration of its id |
| PermissionRaces.RespondsIff | forgepilot_api/services/agent_service.py:326-341 | wherever the waiter is, gone and cancelled included, a fresh responder succeeds if and only if the row is visible and pending, and one that has already checked if and only if it is visible |
| PermissionRaces.LateResponderFails | forgepilot_api/services/agent_service.py:326-341 | a responder whose check comes after the status has left "pending" never reports success, whatever happens afterwards |
| PermissionRaces.SecondNeedsEarlyCheck | forgepilot_api/services/agent_service.py:326-341 | after one success a responder that had not checked by then never succeeds on that id |
| PermissionRaces.BothCheckedSucceed | forgepilot_api/services/agent_service.py:334-341 | two responders that have both checked a visible row both succeed |
| PermissionRaces.BothRespondersSucceed | forgepilot_api/services/agent_service.py:326-341 | a run in which both responders report success and the waiter denies |
| PermissionRaces.CancelLeavesRow | forgepilot_sdk/engine.py:641-644 | after the outer timeout a responder still succeeds although nobody waits |
| MemoryRateLimit.InMemoryRateLimiter.constructor | forgepilot_api/core/rate_limit.py:54-56 | no identity is known at first |
| MemoryRateLimit.InMemoryRateLimiter.Check | forgepilot_api/core/rate_limit.py:58-72 | one identity's deque moves as `Judge` says; other identities are untouched |
| MemoryRateLimit.DecidesOnFullHistory | forgepilot_api/core/rate_limit.py:58-72 | the pruned deque decides as the full admission history would: admitted if and only if fewer than the limit lie in [now - window, now]; refused only with exactly the limit there; it raises if and only if the limit is not positive |
| MemoryRateLimit.SlidingBound | forgepilot_api/core/rate_limit.py:58-72 | every closed interval of one window's length holds at most `max_requests` admissions |
| MemoryRateLimit.RetryAfterAccurate | forgepilot_api/core/rate_limit.py:68-70 | `retry_after` lies in [1, max(1, window)], is within a second of the true wait, and suffices if and only if less than a second remained |
| RedisRateLimit.FixedWindow.constructor | forgepilot_api/core/rate_limit.py:15-32 | no key at first |
| RedisRateLimit.FixedWindow.Eval | forgepilot_api/core/rate_limit.py:15-32 | the script, statement by statement, is `Script` |
| RedisRateLimit.FixedWindow.Check | forgepilot_api/core/rate_limit.py:108-117 | an admitted call has no delay, a refused one the larger of 1 and the key's remaining seconds |
| RedisRateLimit.RetryAfterRounds | forgepilot_api/core/rate_limit.py:15-32 | inside a lifetime the delay is what is left of it, rounded to the nearest second and at least 1, and suffices if and only if nothing was rounded off |
| RedisRateLimit.FixedWindowBound | forgepilot_api/core/rate_limit.py:15-32 | from no key or any key counted before, with any expiry or none, later lifetimes start at least a window apart, each admits at most the limit, and a closed interval of one window's length holds at most twice the limit, and one less where a key is still there at its expiry millisecond |
| RedisRateLimit.BoundReached | forgepilot_api/core/rate_limit.py:15-32 | under either rule some run that starts without a key reaches the bound |
| RedisRateLimit.NoWindowNoLimit | forgepilot_api/core/rate_limit.py:15-32 | with a window that is not positive a run that starts without a key admits every call, or none when the limit is not positive |
| JsonScanner.FindBrace | forgepilot_api/services/agent_service.py:715-717 | finds the first brace at or behind the start, a negative start counted from the end, or reports that there is none |
| JsonScanner.ExtractJsonObject | forgepilot_api/services/agent_service.py:714-740 | returns the shortest non-empty piece from the first brace on whose string-aware depth returns to zero, and None if and only if there is none |
| JsonScanner.ExtractionUnique | forgepilot_api/services/agent_service.py:714-740 | the text determines the result |
| JsonScanner.ExtractUndoesPrint | forgepilot_api/services/agent_service.py:714-740 | any object text of sections 2 to 7 of RFC 8259 is cut out exactly, behind any brace-free prefix and before any suffix |
| McpFraming.LengthReadsBack | forgepilot_sdk/mcp/client.py:360 | parsing the printed length gives it back |
| McpFraming.TakeHeaders | forgepilot_sdk/mcp/client.py:348-358 | the inner loop reads lines up to a blank one, keys lower-cased and stripped |
| McpFraming.StdioRpcClient.constructor | forgepilot_sdk/mcp/client.py:341-345 | no request is known at first |
| McpFraming.StdioRpcClient.OpenRequest | forgepilot_sdk/mcp/client.py:393-399 | a new request gets an id that no earlier one had |
| McpFraming.StdioRpcClient.ReaderLoop | forgepilot_sdk/mcp/client.py:341-380 | on any byte stream the loop delivers exactly the bodies `ReadFrames` finds, in order; an exception fails everything still pending |
| McpFraming.StdioRpcClient.Settle | forgepilot_sdk/mcp/client.py:366-373 | a message answers its id if and only if that id is waiting |
| McpFraming.FirstAnswerWins | forgepilot_sdk/mcp/client.py:369-373 | a waiting request gets the first body with its id and keeps it; other bodies leave it alone |
| McpFraming.FrameRead | forgepilot_sdk/mcp/client.py:341-391 | one sent frame is read back as its body whatever follows; an empty body leaves no trace |
| McpFraming.FramesReadBack | forgepilot_sdk/mcp/client.py:341-391 | reading the concatenation of sent frames gives the non-empty bodies in order, whatever they contain |
| McpHeaders.StripSays | forgepilot_sdk/mcp/client.py:352-358 | stripping takes away the white space at both ends and nothing else |
| McpHeaders.BlockRead | forgepilot_sdk/mcp/client.py:348-358 | any block of header lines is read line by line, names in lower case and stripped, later lines over earlier ones |
| McpHeaders.AnyFrameRead | forgepilot_sdk/mcp/client.py:341-373 | a frame that gives its length under the name in any case, with any white space and among any other headers, is read as its body whatever follows |
| McpHeaders.FrameFails | forgepilot_sdk/mcp/client.py:360-380 | a frame of no bytes is passed over; a body that is cut off or cannot be decoded ends the reading with an exception |
| McpHeaders.StreamEnds | forgepilot_sdk/mcp/client.py:348-351 | a stream that ends between header lines ends cleanly |
| StreamAssembly.AddFragment | forgepilot_sdk/providers/openai_compatible.py:476-495 | one fragment overwrites id and name if it has them and appends its arguments |
| StreamAssembly.AddFragments | forgepilot_sdk/providers/openai_compatible.py:476-495 | the fragments of a chunk extend the fold over all earlier ones |
| StreamAssembly.FinishCalls | forgepilot_sdk/providers/openai_compatible.py:515-529 | one tool call for each slot in key order, arguments decoded or kept raw, empty ones read as `{}` |
| StreamAssembly.AssembleStream | forgepilot_sdk/providers/openai_compatible.py:463-531 | the loops compute the joined text, the calls and the last finish reason of the whole stream |
| StreamAssembly.SortedAscends | forgepilot_sdk/providers/openai_compatible.py:516 | the keys come out ascending, each once |
| StreamAssembly.SlotFromOwn | forgepilot_sdk/providers/openai_compatible.py:476-495 | what reaches one slot depends on that call's fragments alone |
| StreamAssembly.Confluent | forgepilot_sdk/providers/openai_compatible.py:472-531 | streams that agree index by index give the same calls, however interleaved |
| StreamAssembly.EverySlotSays | forgepilot_sdk/providers/openai_compatible.py:476-495 | a slot exists exactly for the indices seen and holds the last id and name that were given, a fresh id where none was, and all arguments in a row |
| StreamAssembly.ReplySays | forgepilot_sdk/providers/openai_compatible.py:463-531 | the text is that of all chunks in a row, and the finish reason the last one given |
| StreamAssembly.Reassembles | forgepilot_sdk/providers/openai_compatible.py:472-531 | calls cut into any fragments and interleaved in any way come back in index order, each with its own id or a fresh one where it had none, its name, and its arguments decoded or raw, none read as `{}` |
| FileCache.FileStateCache.constructor | forgepilot_sdk/utils/file_cache.py:18-23 | an empty cache with both limits at least 1 |
| FileCache.FileStateCache.Touch | forgepilot_sdk/utils/file_cache.py:33-38 | moves the key to the recent end |
| FileCache.FileStateCache.PopLru | forgepilot_sdk/utils/file_cache.py:40-46 | drops the least recently used entry and its bytes |
| FileCache.FileStateCache.Get | forgepilot_sdk/utils/file_cache.py:48-54 | a hit returns the entry and makes it the most recent; a miss changes nothing |
| FileCache.FileStateCache.Set | forgepilot_sdk/utils/file_cache.py:56-79 | forgets the old entry, evicts and inserts, keeping books and bounds |
| FileCache.FileStateCache.Evict | forgepilot_sdk/utils/file_cache.py:68-73 | the eviction loop stops at the first state with room |
| FileCache.FileStateCache.Delete | forgepilot_sdk/utils/file_cache.py:81-91 | removes entry, place and bytes, and reports whether it was there |
| FileCache.FileStateCache.Clear | forgepilot_sdk/utils/file_cache.py:93-96 | empties the cache |
| FileCache.FileStateCache.Clone | forgepilot_sdk/utils/file_cache.py:105-118 | a new cache with the same entries, order, size and limits |
| FileCache.RunSound | forgepilot_sdk/utils/file_cache.py:32-118 | after any operations the order lists every key once, the size is the exact byte sum, and both bounds hold unless exactly one entry is left |
| FileCache.BytesEncoded | forgepilot_sdk/utils/file_cache.py:28-30 | the size of an entry is the number of bytes of the UTF-8 encoding of its content |
| FileCache.InsertionEvicts | forgepilot_sdk/utils/file_cache.py:56-79 | `set` evicts exactly the shortest least-recently-used prefix that makes room and keeps the rest in order |
| FileCache.HitsAreCurrent | forgepilot_sdk/utils/file_cache.py:48-96 | a cached value is always the one last set and not deleted since |
| FileCache.KeepsMostRecent | forgepilot_sdk/utils/file_cache.py:33-96 | the cached keys are exactly the most recently used ones of an unbounded recency list, in order |
| SandboxMachine.RunInv | forgepilot_api/sandbox/pool.py:43-150 | in every run ids are unique, no instance is filed twice or under another image, no image keeps an empty list, and an instance being stopped is idle |
| SandboxMachine.OldestIsOldest | forgepilot_api/sandbox/pool.py:98-106 | the search finds the first idle instance with the least `last_used_at`, and none if and only if nothing is idle |
| SandboxUses.AcquireReuses | forgepilot_api/sandbox/pool.py:51-75 | an acquire gets an idle instance of its image if and only if there is one, marked in use at that time, and otherwise makes one, evicting only where the pool is full |
| SandboxUses.StartedFits | forgepilot_api/sandbox/pool.py:77-88 | a started instance is new, of the image asked for, filed under it and in use |
| SandboxUses.UsesRemembered | forgepilot_api/sandbox/pool.py:51-92 | in every run an instance is in use if and only if it was handed out last, and its time is that of its last hand-out or return |
| SandboxUses.LockHeld | forgepilot_api/sandbox/pool.py:51-135 | while the lock is held nobody is served; stopping everything leaves an empty pool |
| SandboxLeases.ReleaseApartIff | forgepilot_api/sandbox/pool.py:90-92 | a release keeps the leases distinct and in use if and only if nobody else holds the instance given back |
| SandboxLeases.ApartIffConsiderate | forgepilot_api/sandbox/pool.py:51-92 | leases stay distinct and in use throughout a run if and only if nobody in it gives back what another holds |
| SandboxLeases.ReleaseExclusiveIff | forgepilot_api/sandbox/pool.py:90-92 | a release keeps the leases apart, and exactly the instances in use, if and only if it returns what its caller holds, or its caller holds nothing and nobody holds the instance |
| SandboxLeases.LeasesExclusive | forgepilot_api/sandbox/pool.py:51-92 | with harmless releases outstanding leases are distinct instances, and exactly they are in use |
| SandboxLeases.ExclusiveIffDisciplined | forgepilot_api/sandbox/pool.py:51-92 | leases stay apart, and exactly the instances in use, throughout a run if and only if every release in it is harmless |
| SandboxMisuse.StaleReleaseShares | forgepilot_api/sandbox/pool.py:90-92 | a second release by an earlier holder lets two leases share an instance |
| SandboxBounds.PoolBounded | forgepilot_api/sandbox/pool.py:51-116 | in every run the pool is no larger than the larger of the largest limit set and the peak of instances in use plus waiting acquires, plus one for each eviction skipped over an empty image name |
| SandboxBounds.NamedNeverSkips | forgepilot_api/sandbox/pool.py:108-109 | no eviction is skipped while every image has a name |
| SandboxBounds.FullPoolGrowsIff | forgepilot_api/sandbox/pool.py:60-116 | an acquire makes a full pool grow if and only if nothing is idle or the instance to evict has an empty image name |
| SandboxBounds.LeasesInUse | forgepilot_api/sandbox/pool.py:51-92 | with harmless releases, instances in use and outstanding leases are equally many |
| SandboxMisuse.UnnamedImageOverflows | forgepilot_api/sandbox/pool.py:108-109 | the empty image name breaks the bound |
| SandboxBounds.EvictsLeastRecentlyUsed | forgepilot_api/sandbox/pool.py:94-119 | on a clock that does not go back, the instance chosen for eviction stays idle with no idle one used longer ago until it is removed, releases during the wait included, if and only if nobody releases that very instance while another idle one was used before |
| SandboxMisuse.VictimRefreshed | forgepilot_api/sandbox/pool.py:90-119 | a run in which the instance being stopped is released again and so is not the least recently used one when it goes |
| PoolObjects.SandboxPool.constructor | forgepilot_api/sandbox/pool.py:44-49 | an empty pool with a limit of at least 1 |
| PoolObjects.SandboxPool.FindIdle | forgepilot_api/sandbox/pool.py:53-58 | the loop finds the first idle instance of the image |
| PoolObjects.SandboxPool.ScanOldest | forgepilot_api/sandbox/pool.py:101-106 | the inner loop continues the minimum over the instances already seen |
| PoolObjects.SandboxPool.FindOldest | forgepilot_api/sandbox/pool.py:98-106 | the nested loops find the idle instance least recently used over all images |
| PoolObjects.SandboxPool.Cleanup | forgepilot_api/sandbox/pool.py:94-109 | decides what to evict, if anything |
| PoolObjects.SandboxPool.Acquire | forgepilot_api/sandbox/pool.py:51-60 | `acquire` up to its first await, on the mutable instances, is the machine's step |
| PoolObjects.SandboxPool.RemoveInstance | forgepilot_api/sandbox/pool.py:111-119 | removes exactly the stopped instance, and its image's list when empty |
| PoolObjects.SandboxPool.Create | forgepilot_api/sandbox/pool.py:77-88 | a fresh instance in use, with the next id, filed under its image |
| PoolObjects.SandboxPool.Release | forgepilot_api/sandbox/pool.py:90-92 | marks one instance idle and nothing else |
| PoolObjects.SandboxPool.SetMaxSize | forgepilot_api/sandbox/pool.py:149-150 | the limit becomes at least 1 |
| PoolObjects.SandboxPool.StopAll | forgepilot_api/sandbox/pool.py:124-131 | takes the lock for stopping everything |
| PoolObjects.SandboxPool.DropAll | forgepilot_api/sandbox/pool.py:132 | empties the pool, instances in use included |
| PoolObjects.SandboxPool.GetStats | forgepilot_api/sandbox/pool.py:134-144 | total is the number of instances, in_use + available is total, in_use counts the instances in use, by_image has every image with its count |
| SessionStore.NormalizeLoadedPayload | forgepilot_sdk/session.py:107-141 | the checks, one after the other, complete the metadata field by field and report exactly what was wrong |
| SessionStore.RepairMetadata | forgepilot_sdk/session.py:119-138 | truthy fields stay, whatever their type; missing ones are filled in silently, falsy ones with a report |
| SessionStore.RepairSettles | forgepilot_sdk/session.py:107-141 | loading a repaired payload again, at any later time, gives the same payload with repaired=False, the session's id and the exact count |
| SessionStore.UnchangedIffSettled | forgepilot_sdk/session.py:107-141 | loading gives back exactly what the file holds if and only if the file is settled: the two keys, all standard fields right and truthy, every message a non-empty role and a content; and then repaired is False |
| SessionStore.SilentRepair | forgepilot_sdk/session.py:107-141 | a payload that is changed although repaired=False |
| SessionStore.RepairReported | forgepilot_sdk/session.py:107-141 | what is reported as repaired, spelled out: no dictionary, no list, or a standard field that is there and wrong |
| SessionStore.CompletedSays | forgepilot_sdk/session.py:82-141 | field by field, what loading makes of the metadata |
| SessionStore.DefaultsSay | forgepilot_sdk/session.py:82-104 | field by field, the metadata that is written |
| SessionStore.MessageSays | forgepilot_sdk/session.py:63-69 | a stored message keeps role and content of a typed message or a dictionary; a missing or falsy role is "user"; any other value is stored as its text |
| SessionStore.NormalizeMessageTwice | forgepilot_sdk/session.py:63-69 | a message normalised on its own and then with the transcript is settled |
| SessionStore.NormalizeAllTwice | forgepilot_sdk/session.py:63-69 | normalising a transcript twice is normalising it once |
| SessionStore.DeepMergeDict | forgepilot_sdk/session.py:72-79 | the recursive loop computes the merge on arbitrarily nested dictionaries |
| SessionStore.MergeTwice | forgepilot_sdk/session.py:72-79 | applying a patch twice is applying it once |
| SessionStore.MergeReads | forgepilot_sdk/session.py:72-79 | reading any path of the result: scalars of the patch win, dictionaries merge, what the patch does not reach is the base's |
| SessionLock.SessionFile.constructor | forgepilot_sdk/session.py:55-56 | the transcript file of one session |
| SessionLock.SessionFile.Load | forgepilot_sdk/session.py:221-256 | raw dictionary in strict mode, repaired payload otherwise, nothing for a missing or unreadable file |
| SessionLock.SessionFile.AppendToSession | forgepilot_sdk/session.py:307-347 | the body under the lock writes what `Output` says, or nothing |
| SessionLock.SessionFile.UpdateSessionMetadata | forgepilot_sdk/session.py:481-510 | the body under the lock merges the patch, keeps the messages and reports whether it wrote |
| SessionLock.OutputAdds | forgepilot_sdk/session.py:307-347 | a call writes if and only if there is something to write to, and leaves the old messages, role by role and content by content, followed by its own, counted and identified |
| SessionLock.OutputMetadata | forgepilot_sdk/session.py:307-347 | the metadata written is the old one, with the patch of an update merged in, under the session's id, the new count and time, every other field kept |
| SessionLock.UndisturbedCall | forgepilot_sdk/session.py:160-218 | a call that finds the lock free and is left alone does what its body does and frees the lock; one that finds it taken changes nothing |
| SessionLock.LockFreed | forgepilot_sdk/session.py:160-218 | unless a call crashes inside or a lock is broken, the lock is there only while its owner is at work |
| SessionLock.AppendsConserved | forgepilot_sdk/session.py:160-218 | over any interleaving, crashes and failures included, with no lock going stale: one call inside at a time, each writes at most once, and the file is untouched or holds role and content of the old messages and then of those of the calls that wrote |
| SessionLock.InLockOrder | forgepilot_sdk/session.py:160-201 | those messages are in the order in which their calls took the lock |
| SessionLock.FinishedWrote | forgepilot_sdk/session.py:307-347 | on an existing session, or outside strict mode, every append that was carried out is among them |
| SessionLock.IntactIffWritesCurrent | forgepilot_sdk/session.py:160-347 | over any interleaving, broken locks included, no append is ever lost or duplicated if and only if every write had read the messages still in the file |
| SessionLock.NeverStaleIntact | forgepilot_sdk/session.py:178-182 | with no lock going stale every write is current, so nothing is lost at any point |
| SessionLock.StaleLockLoses | forgepilot_sdk/session.py:178-182 | when a lock is broken as stale, a message that was appended meanwhile is lost |

## Left out

- EngineRuns.ProviderCallBound: counts calls of the loop; the retries inside `with_retry` are not part of this model.
- EngineLedger.BudgetHolds: costs are reals, so floating-point rounding is not modelled.
- RedisRateLimit.FixedWindowBound: not for a window that is not positive, which the middleware's settings exclude and for which `NoWindowNoLimit` holds instead, and not for a key with an expiry and a count below 1, which the script never makes.
- FileCache.RunSound: cached `FileState` objects are values; the program shares them with its callers, and changing `content` in place would break the byte sum.
- SessionLock.AppendsConserved: threads of one process are modelled like separate processes; the re-entrant thread lock only removes interleavings.
- McpFraming.FramesReadBack: bodies are sequences of one-byte characters; UTF-8 decoding and white space outside ASCII are not modelled.
- McpFraming.StdioRpcClient.ReaderLoop: a header line longer than the stream's limit, on which `readline` raises, is not modelled, and neither are request timeouts, which leave their entry in the table.
- McpFraming.TakeHeaders: the same limit on a header line, and UTF-8 decoding.
- StreamAssembly.AssembleStream: starts from decoded chunks; line splitting, `[DONE]`, usage records and retries are left out.
- FileCache.FileStateCache.Set: keys are already normalised paths, and contents have no lone surrogates; on one the byte count raises after the old entry was already forgotten.
- SessionStore.RepairSettles: key order and not-a-number values are not modelled; `str` of a non-string is an oracle that is never empty.
- SessionLock.SessionFile.Load: migration of the legacy file and the write-back of a repair on an unlocked load.
- SessionLock.SessionFile.AppendToSession: an append that first migrates a legacy file.
- SessionLock.SessionFile.UpdateSessionMetadata: an update outside strict mode that first migrates a legacy file.
- Compaction.ContextOrchestrator.constructor: reading the window's settings from the environment.
- Compaction.ContextOrchestrator.ApplyBeforeModelCall: the structured form of the last summary and the time of the last compaction.
- PoolObjects.SandboxPool.StopAll: the calls that stop the providers one by one; they change no field of the pool.
- The abandoning of `submit_message` in the middle, the messages it yields, `_execute_tools` (which nothing in the loop calls) and structured output.
- Token estimation, the threshold comparison, the compaction prompt and the parsing of the summary: the threshold test and the summary text are inputs.
- Tool inputs and outputs are strings; tool_use ids that are not strings are not modelled.
- Policy rules, permission modes beyond their effect on `_requires_permission`, and the side effects of hooks.
- The permission payload, publish/subscribe wake-ups (they only cut a poll short) and the Redis permission backend.
- Redis being unreachable (fail open or closed) and expiry finer than a millisecond.
- Creating a session from the legacy file, `save_session`, `fork_session`, `delete_session` and the unlocked repair on load.
- The providers behind sandboxes: starting and stopping either returns or raises.
- HTTP clients and routes, server-sent events, subprocesses, telemetry, settings, skills, plans, the preview manager and the website.
