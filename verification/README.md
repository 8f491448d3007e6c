# Verification of the runtime and of the mobile client

This project models the stateful and concurrent core of the repository in Dafny and proves
what it promises: the task, gate and executor protocol of the agent runtime with its boot
pass; the streams between gateway, web server and phone; the claim-then-compensate handler
of the connector card; two caches whose late writes must never land; and the data
transformations the user interface and the providers rely on.

Code that changes things step by step is written as classes and methods over mutable fields,
each proved against a specification function of the old state; the properties are lemmas
about those functions, over every run, every interleaving and every input. Run
`dafny verify dfyconfig.toml` to check everything.

## Modules

- `Lifecycle`, `LifecycleInvariants`, `LifecycleSafety`, `LifecycleTheorems`,
  `LifecycleTerminal`, `LifecycleOutcomes`, `LifecycleCascade`, `LifecycleRuntime`: one step of `Lifecycle.Next` is one `mutateState`
  callback or one registry operation, every `await` is an interleaving point, and a run is any
  sequence of steps. `LifecycleRuntime.Runtime` holds the callbacks as written, each proved to
  be one step; the theorems then speak about all runs. Tasks, authorizations and setup
  requests are named by creation index.
- `BootReconcile`, `BootTheorems`, `BootRuntime`: one boot pass, any sequence of crashes and
  boots, and the pass as written.
- `GroupExchanges`, `GroupUpdates`, `GroupView`, `ParseCsv`, `ChatBlocks`, `ChatStream`, `PushRegistration`: the mobile
  client.
- `EventStream`, `WsBridge`, `ConnectorRequest`, `WebTarget`, `Embeddings`, `ModelCatalog`,
  `Quoting`: the runtime.
- `Common`: `Option` and `Result`.

## Where the code differs from what is said about it

- **A parked task with a pending gate is not always left alone at boot.** failTask cancels
  live children whatever their age and whatever they wait for, so a park with a pending gate,
  or a task of the new process, ends in the pass exactly when its parent ends in it
  (`BootTheorems.UntouchedIff`, witness `PendingParkCancelled`).
- **retryTask has no parent check.** The rule that no live task stays under a failed or
  cancelled parent is kept by a retry exactly when the parent has no verdict or still owes its
  child snapshot (`LifecycleCascade.RetryKeepsIff`, witness `RetryLeavesOrphan`). A crash in
  the middle of a cascade keeps it exactly when no cascade in progress has a live child left to
  cancel (`CrashKeepsIff`, witness `CrashLeavesOrphan`).
- **A completed chat task can still act.** No side effect of a task lands after any terminal
  status, at any point of a run, exactly when its chat loop never ends it over an action that
  has passed its guard (`LifecycleTerminal.LateEffectIff`); an imperative task never acts late
  (`ImperativeNeverLate`). The loop does end it so when the heal of a settled park overtakes an
  approved write: once no gate is pending, a replayed completion of a card (http.ts:908-924) or
  a message (chat.ts:617-624) resumes the turn although an approved action of the park is still
  under way, since safe-resume.ts:125-178 looks at gates and resumes but not at claimed actions
  (witness `HealOvertakes`).
- **prime() does not look at the generation again.** In any run, listeners and token belong to
  the current generation at every point exactly when no read that found a token comes back
  after a sign-out (`PushRegistration.CurrentOnlyIff`, witness `PrimeCanResurrect`).
- **The retry flag of push.ts has no generation.** In any run, at every point at most one
  registration of the current generation is under way exactly when no run from before a
  sign-out gives up while a newer one is (`OneRegistrationIff`, witness `ReopenReached`); every
  such step lets the next mount start a second one (`ReopenedGateAdmitsTwo`). The guarantees
  above hold for any number of runs.
- **Clearing the whole web-target cache restarts the generations.** A probe then lands stale
  exactly when everything was cleared while it was out and its instance has been invalidated
  since as often as the probe had counted when it began (`WebTarget.StaleLandingIff`); every
  probe still out can be brought there (`ClearAllAdmitsStale`). The cache is fresh throughout a
  run exactly when no landing is stale (`FreshIff`), so always under the per-instance form,
  which is the only one the gateway calls (http.ts:2822 and 2907).
- **A leftover block of a parked turn may still have a writer.** The comment at server.ts:115
  says a parked task has none; the same boot resumes it exactly when its gates are settled and
  no failed orphan takes it along (`BootTheorems.HealedBlockWriterExact`, witness
  `HealedParkRuns`).
- **The rollback of a connector request does not take the grant back.** A grant outlives a
  failed attempt exactly when the throw came from re-reading or enabling the skill
  (`ConnectorRequest.GrantOutlivesFailure`).
- **The chat stream closes on background and inactive only.** Other application states leave
  it open (`ChatStream.OtherStatesKeepStream`).
- **The bridge can reorder frames if a message follows the upstream's close.** Sockets do not
  do that; with such a socket the client sees a prefix, without it `WsBridge.LateFrameOvertakes`
  is a counterexample, and `UpstreamFramesExact` holds for every order of events.
- **The catalog's `name::model` key is not injective when names hold colons**
  (`ModelCatalog.KeyCollision`). A configured pair has a route exactly when it is the first with
  its key (`HasRouteIff`); `CollidingCatalog` is a catalog that loses one.
- **A last CSV record that is one bare empty cell needs a final break.** Written without one it
  cannot be told from the row that a trailing break leaves behind, and is dropped; every other
  table survives (`ParseCsv.RoundTrip`).

## Model

| member | source | states |
|---|---|---|
| LifecycleTheorems.NoEffectAfterVerdict | packages/runtime/src/agent.ts:444-453 | in every run, once a task has a cancelled or failed verdict row, no later row is a side effect of that task |
| LifecycleTheorems.NoClaimAfterVerdict | packages/runtime/src/agent.ts:2128-2170 | after the verdict no step can register a new action of the task, and the registered ones are aborted |
| LifecycleTheorems.ClaimedEffectIff | packages/runtime/src/agent.ts:2322-2346 | a claimed action takes effect if and only if its task has no verdict row at that moment |
| LifecycleTheorems.EffectAtMostOnce | packages/runtime/src/agent.ts:2052-2170 | across any number of crashes each claim has its effect at most once, and a gate's effect only under an approval that was never taken back |
| LifecycleTheorems.TerminalIsFinal | packages/runtime/src/state/store.ts:12-18 | from any state, whatever runs, a terminal status never changes |
| LifecycleTheorems.OneVerdict | packages/runtime/src/agent.ts:332-332 | at most one task.cancelled or task.failed row per task in total; the cancelled row exists exactly when the status is cancelled |
| LifecycleTheorems.OneAuthorizationWinner | packages/runtime/src/agent.ts:1371-1536 | an authorization leaves pending once, with one winner among approve, deny and teardown; its status is what its rows say; only the terminal guard takes an approval back, once |
| LifecycleTheorems.OneSetupWinner | packages/runtime/src/agent.ts:1875-1882 | a setup request is decided once, by completion, cancellation or teardown, and its status is what its rows say |
| LifecycleTheorems.VerdictAndGates | packages/runtime/src/agent.ts:1078-1107 | cancelling, denying and cancelling a setup leave the victim no pending gate; failTask leaves every gate as it was |
| LifecycleTerminal.OneImperativeGate | packages/runtime/src/agent.ts:759-836 | in every run, two authorizations of one task belong to a chat task: an imperative task has at most one, and gates carry the mode of their task |
| LifecycleTerminal.TimelyStep | packages/runtime/src/execution/chat-task.ts:2800-2812 | from any state of a run, a step makes an effect after the task's end possible exactly when the chat loop ends the task over an action past its guard |
| LifecycleTerminal.LateEffectIff | packages/runtime/src/agent.ts:2310-2347 | at no point of a run can an effect of the task land after any terminal status, exactly when no step of the run ends it over such an action |
| LifecycleTerminal.ImperativeNeverLate | packages/runtime/src/agent.ts:3522-3543 | in every run an imperative task has no effect after its end, completion by its own gate included |
| LifecycleTerminal.HealOvertakes | packages/runtime/src/execution/safe-resume.ts:125-178 | from every state a live chat task without pending gates reaches a park that looks wedged while its approved write is claimed; resumed, it completes and the write lands |
| LifecycleOutcomes.PerformOutcome | packages/runtime/src/agent.ts:2310-2347 | in every run, performing a claimed action nobody aborted writes its effect row, settles a file action, starts any other, and changes no task but the live imperative owner of a file action, which is completed |
| LifecycleOutcomes.CancelOutcome | packages/runtime/src/agent.ts:300-460 | cancelling a live task: its status and row, its gates' rows, one row naming exactly the actions it aborts, if any, and the child snapshot owed |
| LifecycleOutcomes.FailOutcome | packages/runtime/src/agent.ts:1039-1163 | failing a live task leaves its gates and names what it aborts; failing a failed one only asks for its children again; any other is left alone |
| LifecycleOutcomes.FinishOutcome | packages/runtime/src/agent.ts:3522-3543 | in every run, a started action that did not see an abort leaves a live imperative owner failed iff it errored, else completed, and every other task as it was; one that did changes no task |
| LifecycleOutcomes.WriteCompletes | packages/runtime/src/agent.ts:2346-2347 | in every run, the approved file action of an imperative task without a verdict leaves it completed |
| LifecycleOutcomes.GuardOutcome | packages/runtime/src/agent.ts:2128-2170 | in every run, the guard takes the approval of an ended task back with its row, else claims under the owner, and changes nothing else |
| LifecycleOutcomes.WriteCourse | packages/runtime/src/tools/file.ts:60-84 | from every state of a run, submit, approve, guard, write and release leave a completed task, an approved gate, three rows and nothing registered |
| LifecycleOutcomes.CommandCourse | packages/runtime/src/agent.ts:2560-2570 | the same for a command, completed or failed by its exit |
| LifecycleOutcomes.DenialCourse | packages/runtime/src/agent.ts:1410-1480 | from every state of a run, a denial leaves a failed task, a denied gate, its rows and the child snapshot owed |
| LifecycleSafety.InvStep | packages/runtime/src/agent.ts:300-460 | every step keeps the invariant tying statuses, audit rows, registry and executor phases together |
| LifecycleSafety.VerdictShape | packages/runtime/src/agent.ts:1410-1480 | a step that can give a verdict is gate rows first, then for its victim exactly one flip with one row and the abort of all its registered actions |
| LifecycleInvariants.TornAuthRowsExact | packages/runtime/src/agent.ts:613-646 | a teardown writes one row for each pending authorization of the task and none for any other |
| LifecycleInvariants.TornSetupRowsExact | packages/runtime/src/agent.ts:646-664 | a teardown writes one row for each pending setup request of the task and none for any other |
| LifecycleCascade.NoOrphans | packages/runtime/src/agent.ts:208-215 | in every run without retry or crash, when no snapshot is owed and no snapshotted child is left, no live task has a parent with a verdict |
| LifecycleCascade.SubmitNotOrphan | packages/runtime/src/agent.ts:208-215 | a submission under a parent with a verdict changes nothing |
| LifecycleCascade.RetryKeepsIff | packages/runtime/src/agent.ts:248-282 | exactly when a retry keeps the cascade promise |
| LifecycleCascade.RetryLeavesOrphan | packages/runtime/src/agent.ts:248-282 | a run with a retry that ends quiet and leaves an orphan |
| LifecycleCascade.CrashKeepsIff | packages/runtime/src/agent.ts:667-683 | a crash keeps the cascade promise iff no task with a verdict that owes its snapshot has a live child and no snapshotted child is live under a verdict |
| LifecycleCascade.CrashLeavesOrphan | packages/runtime/src/agent.ts:667-683 | a cancel and a crash before the child snapshot end quiet and leave an orphan |
| LifecycleCascade.CascadeStepDecreases | packages/runtime/src/agent.ts:667-683 | each cascade step lowers the measure of live tasks, owed snapshots and children left |
| LifecycleCascade.Drain | packages/runtime/src/agent.ts:667-683 | from every state the cascade reaches an end where nothing is pursued |
| LifecycleCascade.DrainedRunHasNoOrphans | packages/runtime/src/agent.ts:667-683 | every run without retry or crash can be drained to a state without orphans |
| LifecycleRuntime.Runtime.CancelPendingTaskApprovals | packages/runtime/src/agent.ts:613-664 | the two loops deny and cancel exactly the task's pending gates and write their rows in order |
| LifecycleRuntime.Runtime.AbortApprovalsForTask | packages/runtime/src/execution/approval-execution.ts:84-110 | aborts every entry of the task and returns exactly those not aborted before |
| LifecycleRuntime.Runtime.RecordInFlightAborted | packages/runtime/src/agent.ts:572-604 | the abort fan-out with one row naming what it aborted, and no row when there was nothing |
| LifecycleRuntime.Runtime.SubmitTask | packages/runtime/src/agent.ts:208-232 | the in-lock parent check and upsert are one step of the protocol; refused exactly under a cancelled or failed parent |
| LifecycleRuntime.Runtime.CancelTask | packages/runtime/src/agent.ts:300-490 | the cancel callback is one step; it reports a cancel only for a live task other than the caller |
| LifecycleRuntime.Runtime.FailTask | packages/runtime/src/agent.ts:1039-1163 | the fail callback is one step |
| LifecycleRuntime.Runtime.DecideApproval | packages/runtime/src/agent.ts:1368-1536 | an approve or deny callback is one step, refused when the gate is not pending |
| LifecycleRuntime.Runtime.ResolveSetupRequest | packages/runtime/src/agent.ts:1866-1943 | a setup callback is one step, refused when the row is not pending |
| LifecycleRuntime.Runtime.GuardApprovedAction | packages/runtime/src/agent.ts:2128-2170 | the executor's in-lock guard is one step: deny and skip for a terminal task, claim otherwise |
| LifecycleRuntime.Runtime.PerformFileAction | packages/runtime/src/agent.ts:2310-2347 | the abort check, the write and the completion are one step |
| LifecycleRuntime.Runtime.CancelTaskTree | packages/runtime/src/agent.ts:300-520 | cancel and cascade end, keep the invariants, and leave the task terminal |
| LifecycleRuntime.Runtime.StopTask | packages/runtime/src/agent.ts:300-520 | with no cascade in progress, afterwards no live task has a parent with a verdict |
| BootTheorems.PassExact | packages/runtime/src/agent.ts:1181-1298 | the whole new record of each task in terms of its own fields and the recursive reference definition of who ends |
| BootTheorems.OrphanDecided | packages/runtime/src/agent.ts:1212-1232 | a task left running or queued is dispatched again and counted iff it is a chat turn without a parent resumed less than three times, else failed |
| BootTheorems.ParkDecided | packages/runtime/src/agent.ts:1254-1290 | a park is failed iff nothing is pending, it has no snapshot and no lost task takes it along, cancelled iff its parent ends first, else left |
| BootTheorems.NeverDispatched | packages/runtime/src/agent.ts:1216-1219 | over any sequence of boots a task that is no chat turn, or has a parent, is never dispatched again |
| BootTheorems.PassHits | packages/runtime/src/agent.ts:1181-1298 | the tasks that end are exactly those the recursive reference definition names |
| BootTheorems.NoStaleTaskInFlight | packages/runtime/src/agent.ts:1181-1298 | after a pass no task from before the cutoff is running or queued |
| BootTheorems.UntouchedIff | packages/runtime/src/agent.ts:1188-1290 | exactly when a park with a pending gate, or a task at or after the cutoff, is untouched |
| BootTheorems.PendingParkCancelled | packages/runtime/src/agent.ts:1160-1160 | a pass that cancels a subagent's park with a pending gate under a chat turn out of resumes |
| BootTheorems.HealedBlockWriterExact | packages/runtime/src/server.ts:115-124 | exactly when a settled leftover block belongs to a task the same boot sets going; a block left alone belongs to one that is set going or failed, if older than the cutoff |
| BootTheorems.HealedParkRuns | packages/runtime/src/server.ts:115-124 | a park whose block is settled and whose turn the same boot resumes |
| BootTheorems.DispatchesBounded | packages/runtime/src/agent.ts:1168-1215 | over any sequence of crashes and boots a task is dispatched as often as its counter says and at most three times |
| BootTheorems.ExhaustedTaskEnds | packages/runtime/src/agent.ts:1168-1215 | an orphan whose resumes are used up is failed at that boot and stays failed in every later one |
| BootRuntime.Gateway.ScanTasks | packages/runtime/src/agent.ts:1188-1240 | the scan loop classifies every task and stamps exactly the resumable ones |
| BootRuntime.Gateway.HealParks | packages/runtime/src/agent.ts:1240-1298 | the park loop computes the reference result; it heals exactly the healable parks and fails exactly the wedged ones |
| BootRuntime.Gateway.ReconcileInFlightTasks | packages/runtime/src/agent.ts:1181-1298 | the whole pass computes the reference result; the resumed ids are exactly those set going and the failed ids exactly those failed for themselves |
| GroupExchanges.GroupExchanges | packages/mobile/src/group-exchanges.ts:33-72 | the loops with their index map compute the reference view |
| GroupExchanges.Partition | packages/mobile/src/group-exchanges.ts:55-69 | one exchange per task in order of first appearance, one per block without a task |
| GroupExchanges.AppendExchange | packages/mobile/src/group-exchanges.ts:74-169 | the scans and pushes of one exchange compute its reference items |
| GroupExchanges.IsExchangeComplete | packages/mobile/src/group-exchanges.ts:171-184 | the two scans compute `Complete`, which the next row states over the blocks |
| GroupView.CompleteExact | packages/mobile/src/group-exchanges.ts:171-184 | a turn is over iff its first task id is known to be terminal, or a settled assistant text is followed only by phases, tool results and notes |
| GroupView.FinalExact | packages/mobile/src/group-exchanges.ts:97-117 | the final answer is the assistant text with no text and no call after it; steps are the calls and the other texts |
| GroupView.PlainExact | packages/mobile/src/group-exchanges.ts:82-96 | a turn without tool calls is its blocks in order, the answer marked |
| GroupView.WithToolsExact | packages/mobile/src/group-exchanges.ts:111-169 | a turn with tool calls is the bubbles before its process, one group with the whole process in order, in progress iff the turn is not over, the other bubbles in order, and a file card iff it is over and wrote a file |
| GroupView.ExchangeInView | packages/mobile/src/group-exchanges.ts:66-72 | the view is the items of the exchanges, one exchange after the other |
| GroupExchanges.AppendNeverReflows | packages/mobile/src/group-exchanges.ts:111-134 | appending any block keeps the old steps as a prefix and the group where it is |
| GroupExchanges.StreamingKeepsTheView | packages/mobile/src/group-exchanges.ts:122-148 | what is rendered above the group is unchanged and the group keeps its id, calls and steps |
| GroupExchanges.StreamingGrowsOneExchange | packages/mobile/src/group-exchanges.ts:55-69 | one more block adds an exchange at the end or changes a single one, which does not reflow |
| GroupUpdates.UpdateKeepsPlaces | packages/mobile/src/group-exchanges.ts:97-134 | in one exchange a new version of a block moves neither final answer nor group, and steps and calls are the new versions of the old ones |
| GroupUpdates.UpdateInPlace | packages/mobile/src/queries.ts:426-449 | over the whole list the view after an in-place update is the old view showing the new version; nothing is added, removed or moved but in-progress flags and file cards |
| GroupExchanges.GroupingConserves | packages/mobile/src/group-exchanges.ts:82-148 | every block is displayed exactly as often as it occurs, except tool results |
| GroupExchanges.ExchangeConserves | packages/mobile/src/group-exchanges.ts:122-148 | within an exchange only tool results after the group start are not displayed |
| GroupExchanges.InterleavingIndependent | packages/mobile/src/group-exchanges.ts:46-51 | same per-task subsequences and same order of first appearance give the same view |
| GroupExchanges.OneFinalAnswer | packages/mobile/src/group-exchanges.ts:97-117 | the bubbles marked final are exactly the last assistant text when no tool call follows it |
| GroupExchanges.TerminalIdsOnlyFlag | packages/mobile/src/group-exchanges.ts:141-168 | the set of terminal tasks changes only in-progress flags and file cards |
| GroupExchanges.FilesExact | packages/mobile/src/group-exchanges.ts:155-168 | the file card lists each written path once, with the tool that wrote it last |
| ParseCsv.ParseCsv | packages/mobile/src/parse-csv.ts:6-76 | the loop computes the reference reading, for every text and delimiter |
| ParseCsv.RoundTrip | packages/mobile/src/parse-csv.ts:6-76 | parsing undoes printing for every mix of quoted and bare cells, LF, CRLF or CR, with or without a final break, if and only if the text does not end in a blank bare record |
| ParseCsv.QuotedRoundTrip | packages/mobile/src/parse-csv.ts:25-74 | printing with every cell quoted and parsing gives the grid back |
| ParseCsv.ParsedIsGrid | packages/mobile/src/parse-csv.ts:15-23 | every result is a non-empty list of non-empty rows |
| ParseCsv.ReprintIsStable | packages/mobile/src/parse-csv.ts:6-76 | parse, print, parse equals parse, for every text |
| ChatBlocks.UpsertBlock | packages/mobile/src/queries.ts:444-449 | find by id, replace in place or append |
| ChatBlocks.UpsertAllMeaning | packages/mobile/src/queries.ts:441-454 | ids stay unique, each id holds its last frame, order is that of first appearance |
| ChatBlocks.ReplayChangesNothing | packages/mobile/src/queries.ts:441-454 | replaying any applied suffix leaves the list equal |
| ChatBlocks.AtLeastOnceIsExactlyOnce | packages/mobile/src/queries.ts:387-394 | however often the stream resumes from an earlier frame, a client that has caught up holds the list of one that received every frame once |
| ChatBlocks.MergeMeaning | packages/mobile/src/queries.ts:594-605 | the seed merge keeps ids unique, prefers the seed and keeps other ids |
| ChatStream.OpenOnlyWhenWatching | packages/mobile/src/queries.ts:564-570 | in every run a stream is open only for the current session, after its seed, not cancelled, last seen active |
| ChatStream.CurrentIsAsked | packages/mobile/src/queries.ts:405-415 | in every run the effect that is not cleaned up, if any, is that of the session last asked for |
| ChatStream.StreamStep | packages/mobile/src/queries.ts:564-570 | for every event, exactly when a stream opens, with which header, and whether one is held afterwards |
| ChatStream.OpensExact | packages/mobile/src/queries.ts:469-493 | in every run a stream opens at exactly the seed, failed seed and foreground events that allow it, each with the resume cursor of that moment |
| ChatStream.HeldExact | packages/mobile/src/queries.ts:517-560 | in every run a stream is held iff an opening event was not followed by a session change, background, inactive or a 401; other errors keep it |
| ChatStream.CursorIsLastSeen | packages/mobile/src/queries.ts:441-452 | in every run the cursor is the last seed id or the last frame id since |
| ChatStream.RecordsShown | packages/mobile/src/queries.ts:461-467 | a record frame replaces the shown record iff it is the session's own |
| ChatStream.OtherStatesKeepStream | packages/mobile/src/queries.ts:643-648 | which application states close an open stream |
| ChatStream.SeedNeverOverwrites | packages/mobile/src/queries.ts:594-619 | when a seed resolves nothing is shown yet, and what is shown afterwards is the response |
| ChatStream.OnlyOwnBlocks | packages/mobile/src/queries.ts:431-443 | no block of another session and no repeated id is ever shown |
| ChatStream.CancelledActsNever | packages/mobile/src/queries.ts:665-669 | callbacks of a cancelled effect change nothing that is shown, open or sent |
| ChatStream.FramesAreUpserts | packages/mobile/src/queries.ts:441-454 | frames of the current stream are upserted in order and move the resume cursor |
| ChatStream.ChatStream.OnBlock | packages/mobile/src/queries.ts:441-454 | a block frame is one step: both guards, the upsert and the cursor |
| ChatStream.ChatStream.OnSeed | packages/mobile/src/queries.ts:587-623 | a resolved seed is one step: merge, cursor, session, gated open |
| ChatStream.ChatStream.OnSeedFailed | packages/mobile/src/queries.ts:624-635 | a failed seed still allows opening unless it was a 401 |
| ChatStream.ChatStream.OnAppChange | packages/mobile/src/queries.ts:643-663 | a state change is one step: reopen, close or nothing |
| ChatStream.ChatStream.RunEffect | packages/mobile/src/queries.ts:405-423 | a session change cleans up the old effect, resets, and starts the next |
| EventStream.EventList.AppendEvent | packages/runtime/src/state/audit.ts:61-77 | the capped newest-first list is the tail of the history |
| EventStream.Connection.Send | packages/runtime/src/http.ts:3697-3719 | a poll writes the unseen retained events oldest first, or a keepalive after five quiet seconds |
| EventStream.Connection.constructor | packages/runtime/src/http.ts:3673-3696 | a new connection counts as seen what is retained up to the client's last id, or nothing |
| EventStream.FreshExact | packages/runtime/src/http.ts:3701-3706 | exactly which retained events a poll writes, also when ids repeat |
| EventStream.SendIsPoll | packages/runtime/src/http.ts:3697-3706 | the poll over the list is the poll over the history's window |
| EventStream.DeliveryExact | packages/runtime/src/http.ts:3667-3719 | over any chain of polls, losses and reconnects each frame is the next log event, or the first of its poll's window |
| EventStream.StrictlyIncreasing | packages/runtime/src/http.ts:3667-3719 | delivered positions strictly increase |
| EventStream.SkippedOnlyIfEvicted | packages/runtime/src/http.ts:3678-3696 | a position is skipped only if it had left the window before the poll |
| EventStream.CaughtUp | packages/runtime/src/http.ts:3697-3720 | when a poll's frames have arrived the client has the last event |
| EventStream.ConnectSends | packages/runtime/src/http.ts:3673-3719 | from every state of every run, connecting sends the retained events after the last one received, in order |
| EventStream.PollSends | packages/runtime/src/http.ts:3697-3719 | a later poll sends the retained events after the previous poll, in order |
| EventStream.FramesArrive | packages/runtime/src/http.ts:3697-3719 | frames arrive in order and a loss drops those on the wire and no others |
| EventStream.RetainsTheLastThousand | packages/runtime/src/state/audit.ts:61-77 | the window is the newest thousand events, or all while there are no more |
| WsBridge.SafeCloseCode | packages/runtime/src/http.ts:2832-2837 | the result may always be sent; 1000 and 3000 to 4999 pass, every other code and none become 1011 |
| WsBridge.Bridge.OnUpstreamOpen | packages/runtime/src/http.ts:2881-2886 | flushes the client's early frames in order |
| WsBridge.Bridge.OnUpstreamDown | packages/runtime/src/http.ts:2896-2909 | records the loss and closes an open client |
| WsBridge.Bridge.Open | packages/runtime/src/http.ts:2926-2935 | closes at once on a dead upstream, else flushes in order |
| WsBridge.ProxyWebSocketUpgrade | packages/runtime/src/http.ts:2865-2915 | 502 without a port, 426 and a closed upstream when the upgrade fails |
| WsBridge.ClientFramesInOrder | packages/runtime/src/http.ts:2881-2940 | for every order of events, frames from the client are those sent upstream followed by those buffered |
| WsBridge.UpstreamFramesExact | packages/runtime/src/http.ts:2887-2935 | for every order of events, where each frame from the upstream is |
| WsBridge.ClientSeesPrefix | packages/runtime/src/http.ts:2887-2935 | the client is sent a prefix of what the upstream produced, all of it once open on a live upstream |
| WsBridge.LateFrameOvertakes | packages/runtime/src/http.ts:2887-2935 | the order broken by a message after the close |
| WsBridge.CloseReachesClient | packages/runtime/src/http.ts:2896-2935 | a close of the client is requested exactly when it is open and the upstream is down, always with a code it may be sent |
| WsBridge.TimerPendingExact | packages/runtime/src/http.ts:2876-2898 | the timer closes exactly an upstream that neither opened nor failed |
| WsBridge.CallsExact | packages/runtime/src/http.ts:2865-2945 | for every order of events: flags and frames recorded, how often the upstream is closed, how and how often the client, and that exactly the errors drop the cached port |
| ConnectorRequest.Gateway.Complete | packages/runtime/src/http.ts:1107-1263 | the handler's effects and reply for every choice of failing calls; a loser changes nothing |
| ConnectorRequest.Gateway.TryConnect | packages/runtime/src/http.ts:1127-1228 | what the try block has done when it returns or throws |
| ConnectorRequest.Gateway.Cancel | packages/runtime/src/http.ts:1399-1413 | a winning cancel resumes or fails the task, a losing one changes nothing |
| ConnectorRequest.OneWinner | packages/runtime/src/http.ts:1096-1107 | in every interleaving at most one attempt passes the claim |
| ConnectorRequest.WinnerDecides | packages/runtime/src/http.ts:1096-1263 | in every interleaving the final world is what the winner alone makes of it |
| ConnectorRequest.ReplyExact | packages/runtime/src/http.ts:1127-1263 | in every interleaving the winner's reply, by the calls that threw |
| ConnectorRequest.ConnectedExact | packages/runtime/src/http.ts:1167-1228 | in every interleaving an ok reply has audited once, granted iff the skill declares the credential, enabled it iff it then has all it needs, kept one connector and resumed |
| ConnectorRequest.NotConnectedExact | packages/runtime/src/http.ts:1135-1262 | in every interleaving any other reply has enabled nothing, granted only what is declared, stored its outcome unless that threw, and resumed all the same |
| ConnectorRequest.CancelExact | packages/runtime/src/http.ts:1399-1413 | in every interleaving a winning cancel resumes a live task with a call, fails one without, and does nothing else |
| ConnectorRequest.AttemptEnds | packages/runtime/src/http.ts:1107-1263 | from every state of every interleaving nine moves bring an attempt to its reply |
| ConnectorRequest.FirstMoverWins | packages/runtime/src/http.ts:1096-1107 | while nobody has won, whoever moves first claims the row |
| ConnectorRequest.LosersDoNothing | packages/runtime/src/http.ts:1096-1107 | losers create, grant, audit and resume nothing |
| ConnectorRequest.ResumedOnce | packages/runtime/src/http.ts:1109-1118 | in every interleaving the winner resumes the task exactly once |
| ConnectorRequest.SurvivesIffConnected | packages/runtime/src/http.ts:1119-1126 | in every interleaving, with a delete that works, the winner's connector survives iff its reply is ok, and no other is touched |
| ConnectorRequest.GrantOutlivesFailure | packages/runtime/src/http.ts:1188-1202 | in every interleaving, exactly when a grant outlives a failed attempt |
| PushRegistration.OnlyCurrentGeneration | packages/mobile/src/push.ts:405-505 | after priming, in every interleaving, listeners and the cached token are work of the current generation |
| PushRegistration.StorageAgreesAtRest | packages/mobile/src/device-token-store.ts:42-76 | when the storage is idle it holds the in-memory token |
| PushRegistration.ResetInvalidates | packages/mobile/src/push.ts:612-638 | after a sign-out memory is empty and everything suspended is out of date |
| PushRegistration.StaleRunIsInert | packages/mobile/src/push-registration-guard.ts:20-31 | a run of an older generation ends where it next looks and changes nothing else |
| PushRegistration.PostedToken | packages/mobile/src/push.ts:453-494 | in every run, a run still current when its POST succeeds caches that token, stores it and listens for rotations |
| PushRegistration.RegistrationCompletes | packages/mobile/src/push.ts:500-537 | in every run, a run still current when the category is ready ends with both listeners installed |
| PushRegistration.RotationLands | packages/mobile/src/push.ts:481-493 | a rotation is posted iff a listener is on, lands once, and replaces the cached token iff it succeeded and no sign-out came in between |
| PushRegistration.ServedInOrder | packages/mobile/src/device-token-store.ts:42-76 | the storage serves its oldest request and reads come back in the order they were asked |
| PushRegistration.FirstRegistration | packages/mobile/src/push.ts:394-537 | the undisturbed course from permission to listeners, with the whole state it leaves |
| PushRegistration.OneCurrentStep | packages/mobile/src/push.ts:537-543 | a step keeps one registration per generation iff it is not an older run giving up while a current one is under way |
| PushRegistration.OneRegistrationIff | packages/mobile/src/push.ts:394-543 | over every run from the start of the process, one registration per generation at every point iff no such step occurs |
| PushRegistration.ReopenedGateAdmitsTwo | packages/mobile/src/push.ts:537-543 | after every such step the next mount starts a second registration beside the first |
| PushRegistration.ReopenReached | packages/mobile/src/push.ts:537-543 | a run that reaches such a step |
| PushRegistration.CurrentOnlyStep | packages/mobile/src/device-token-store.ts:56-68 | every step keeps listeners and token current, except a read that found a token and comes back after a sign-out, which never does |
| PushRegistration.CurrentOnlyIff | packages/mobile/src/device-token-store.ts:56-68 | over every run from the start of the process, without waiting for prime: all is current at every point iff no such read comes back |
| PushRegistration.PrimeLandsAgrees | packages/mobile/src/device-token-store.ts:56-68 | after a read that found a token lands, memory holds what the storage will hold iff that is the token read |
| PushRegistration.PrimeCanResurrect | packages/mobile/src/device-token-store.ts:56-68 | a run in which prime brings a signed-out token back |
| PushRegistration.PushModule.PostReturns | packages/mobile/src/push.ts:453-494 | the continuation after the POST is one step |
| PushRegistration.PushModule.OnCategory | packages/mobile/src/push.ts:500-537 | the continuation after the category is one step |
| PushRegistration.PushModule.RotationPostReturns | packages/mobile/src/push.ts:481-493 | a rotation's continuation caches only in its own generation |
| PushRegistration.PushModule.ResetRegistration | packages/mobile/src/push.ts:612-638 | the sign-out reset is one step |
| WebTarget.ProbeWritesIff | packages/runtime/src/web-target.ts:76-97 | over every run, clears included, a validated probe writes the cache iff its instance has been invalidated as often since the last clear as when the probe began |
| WebTarget.StaleLandingIff | packages/runtime/src/web-target.ts:43-55 | a probe older than the latest invalidation writes iff everything was cleared while it was out and the counts agree again |
| WebTarget.FreshStep | packages/runtime/src/web-target.ts:91-105 | one step keeps every entry newer than the latest invalidation iff it is no stale landing |
| WebTarget.FreshIff | packages/runtime/src/web-target.ts:35-55 | over every run, clears included, the cache is fresh at every point iff no landing is stale |
| WebTarget.ClearAllAdmitsStale | packages/runtime/src/web-target.ts:47-51 | from every state every probe still out lands stale after one clear and as many invalidations as its generation says |
| WebTarget.EntriesAreFresh | packages/runtime/src/web-target.ts:35-55 | in every interleaving with per-instance invalidations each entry was written by a probe that validated that port and began after the latest one |
| WebTarget.AnswersAreValidated | packages/runtime/src/web-target.ts:65-105 | in every run, clears included, a non-null answer is not the gateway's port and was validated by its probe or by that of an unexpired entry |
| WebTarget.CallExact | packages/runtime/src/web-target.ts:65-77 | a call answers null at once iff no usable port is on file, the port at once iff an unexpired entry has it, else begins a probe of it |
| WebTarget.FetchExact | packages/runtime/src/web-target.ts:78-90 | a refused response answers null and drops the entry; an ok one is read |
| WebTarget.BodyExact | packages/runtime/src/web-target.ts:91-105 | a validated probe answers its port whether or not it writes; any other body answers null and drops the entry |
| WebTarget.EveryCallAnswered | packages/runtime/src/web-target.ts:65-105 | in every run each call is answered exactly once or its probe is still out |
| WebTarget.Target.ResolveWebPort | packages/runtime/src/web-target.ts:65-77 | the call up to its first await is one step |
| WebTarget.Target.BodyDone | packages/runtime/src/web-target.ts:91-105 | the end of a probe is one step |
| WebTarget.Target.ClearWebTargetCache | packages/runtime/src/web-target.ts:47-55 | both forms of the invalidation are one step |
| Embeddings.EmbedBatch | packages/runtime/src/embeddings.ts:359-371 | succeeds iff every input is answered, in any response order, and then equals the pointwise function |
| Embeddings.OpenAiProvider.Embed | packages/runtime/src/embeddings.ts:305-327 | the cached, batched result equals the pointwise function; it fails iff a batch is not covered; the cache stays within the function either way |
| Embeddings.LocalProvider.Embed | packages/runtime/src/embeddings.ts:213-236 | the same for one extraction at a time |
| Embeddings.BatchesPartition | packages/runtime/src/embeddings.ts:316-318 | the batches partition the misses in order, at most 100 each, only the last short |
| Embeddings.MissesExact | packages/runtime/src/embeddings.ts:216-222 | a position is a miss iff its text is not cached |
| Embeddings.CauchySchwarz | packages/runtime/src/embeddings.ts:436-450 | the squared dot product is at most the product of the squared norms |
| Embeddings.CosineSimilarity | packages/runtime/src/embeddings.ts:436-450 | the result lies in -1 to 1 and times the norms is the dot product; 0 for unequal lengths or a zero vector |
| ModelCatalog.BuildModelCatalog | packages/runtime/src/model-routes.ts:76-112 | the loops compute the reference catalog |
| ModelCatalog.PairHasOneRoute | packages/runtime/src/model-routes.ts:79-101 | with plain provider names every configured pair is exactly one route, in the entry of its canonical model |
| ModelCatalog.RoutesAreConfigured | packages/runtime/src/model-routes.ts:81-96 | every route stands for a configured pair under its canonical id |
| ModelCatalog.EntriesInOrder | packages/runtime/src/model-routes.ts:97-102 | entry ids are distinct and in order of first appearance |
| ModelCatalog.RoutesInOrder | packages/runtime/src/model-routes.ts:102-111 | routes are sorted by preference, stable, and exactly the first is default |
| ModelCatalog.DefaultRoute | packages/runtime/src/model-routes.ts:50-61 | the default route has the most preferred provider of its entry, by the named order |
| ModelCatalog.ProfilesShareTheModel | packages/runtime/src/model-routes.ts:26-37 | each geographic profile is filed under its first-party model and labelled with its geography |
| ModelCatalog.OthersStandForThemselves | packages/runtime/src/model-routes.ts:20-25 | every other id is its own entry under its provider's name |
| ModelCatalog.OneEntryPerModel | packages/runtime/src/model-routes.ts:97-101 | pairs of one model are routes of one entry |
| ModelCatalog.OrderUnique | packages/runtime/src/model-routes.ts:105-108 | there is only one such order, so any correct sort finds it |
| ModelCatalog.KeyInjective | packages/runtime/src/model-routes.ts:86-90 | the dedupe key is injective for names without a colon |
| ModelCatalog.KeptIffFirst | packages/runtime/src/model-routes.ts:86-90 | a pair is kept iff it is the first of the list with its key |
| ModelCatalog.HasRouteIff | packages/runtime/src/model-routes.ts:79-101 | for any names, a pair has a route iff it is the first configured pair with its key |
| ModelCatalog.CollidingCatalog | packages/runtime/src/model-routes.ts:86-90 | a catalog of two configured pairs one of which has no route |
| Quoting.ShellQuoteRoundTrip | packages/runtime/src/agent.ts:3495-3497 | a POSIX reader gets back the single word, for every value |
| Quoting.CommandIsOneArgument | packages/runtime/src/agent.ts:3313-3313 | the whole command line reads as zsh, -lc and the command |
| Quoting.CanonicalUriRoundTrip | packages/runtime/src/aws-sigv4.ts:46-53 | percent-decoding and UTF-8 decoding give the path back |
| Quoting.SegmentsKept | packages/runtime/src/aws-sigv4.ts:46-53 | splitting the result at slashes gives the encoded segments of the path |
| Quoting.OutputIsCanonical | packages/runtime/src/aws-sigv4.ts:46-53 | every other character is unreserved or part of an uppercase escape |
| Quoting.LeftAloneExact | packages/runtime/src/aws-sigv4.ts:38-53 | a character is left as it is iff it is a letter, a digit, one of - _ . ~ or the slash |

## Left out

- The audit log is the full history, oldest first; the ring-buffer cap of 5000 rows and the
  newest-first storage are not modelled. Ids are creation indices or assumed distinct.
- LifecycleTheorems.NoEffectAfterVerdict: covers verdicts of cancelTask, failTask, a denial and
  a setup cancellation; the ends set without a verdict row, by the chat loop and by
  completeApprovedTask, are those of `LifecycleTerminal.LateEffectIff`.
- LifecycleTerminal.LateEffectIff: the chat loop is any sequence of status changes and mints;
  which of them the heal of a settled park causes is not derived from a model of the loop.
- LifecycleCascade.NoOrphans: assumes that the awaited child cancellations do not throw; the
  source swallows such an error and moves on.
- Lifecycle: a failing state write, block emission, notes, traces, runs and jobs; the effect of
  an action after it has been spawned (a process already started may end normally).
- BootTheorems.PassExact: the pass is modelled without other requests interleaving with it;
  times are numbers instead of ISO strings.
- The skill.grant_connector branch, the chat-task loop, safe-resume and the bodies of connectors,
  skills, providers and tools are not modelled; `safeResume` is taken not to throw.
- ConnectorRequest.WinnerDecides: a resume counts as made when it is requested.
- EventStream.DeliveryExact: assumes that event ids are distinct and not empty; the source makes
  them from eight hex digits, and `FreshExact` says what a repeated id loses.
- WsBridge.ProxyWebSocketUpgrade: whether the server accepts the upgrade, and the address and
  subprotocol that are dialed, are parameters.
- WsBridge.ClientFramesInOrder: speaks of attempted sends; a send that throws is swallowed by
  the source and counts as made.
- ChatStream.OnlyOwnBlocks: assumes that a seed response holds that session's blocks once each;
  React's copy of the state and the error banner are not modelled.
- PushRegistration.OnlyCurrentGeneration: assumes that the boot-time prime has landed; without
  it see `CurrentOnlyIff`. Storage calls do not fail and are served in order. The order of
  DELETE and reset in auth.ts, shared credentials, the tap listener, and the in-flight slot that
  a sign-out drains (push.ts:546-551) are not modelled.
- WebTarget.EntriesAreFresh: excludes clearing everything, for which see `FreshIff`.
- Embeddings.OpenAiProvider.Embed: the service answers a text by its embedding; credentials,
  URLs and overlapping calls on one provider are not modelled, nor is floating-point rounding
  or the copy out of the extractor's shared buffer. echoEmbed is left out.
- ParseCsv.RoundTrip: delimiters of more than one character, which never split, are read but
  not printed.
- Quoting.CanonicalUriRoundTrip: texts are sequences of Unicode scalar values; a lone surrogate
  makes the library call throw. Request signing, hashing and header sorting are left out.
- GroupUpdates.UpdateInPlace: a new version keeps id, task and kind of its block.
- Not modelled: parseByteRange, isTaskInFlight,
  readDocSection, migrateLegacyInstancePaths, the settlement race of api(), and the local
  address ranges of auth.ts.
