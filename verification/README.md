# ConvHub: a verified model

ConvHub keeps conversations with AI providers for a workspace: it records transcripts uploaded by an editor plugin, meters
credits that members may lend to one another, lets conversations branch, commit and be restored, keeps a sync history per
repository branch, and tells connected clients what happens. This project models the parts of it that carry state or walk
graphs, and proves what they keep.

Where the source updates an object in place the model is a class whose methods take the same branches, and each method is
proved to compute a function of the state it found; the theorems are about those functions and about every run of them.
Pure code is functions. Amounts of money are whole cents, so rounding up to two decimals is an integer ceiling.
Transcripts are bytes.

| file | part of the program |
|---|---|
| `TranscriptSessions.dfy` | the session server: resumable sessions, contiguous chunks, rebuilt snapshots |
| `PluginRuntime.dfy` | the plugin's hook handlers and its push command |
| `SyncProtocol.dfy`, `SyncTheorems.dfy` | many plugins, one server, lost requests, lost replies, crashes, late duplicates: what every run keeps |
| `CreditPolicy.dfy`, `CreditLedger.dfy`, `BudgetService.dfy` | prices, the append-only ledger, the budget rows that cache it |
| `LenderStrategy.dfy`, `BorrowEngine.dfy` | which lender is asked, reserving and returning shared credits |
| `Gateway.dfy`, `GatewayTheorems.dfy`, `GatewayAdmission.dfy`, `GatewayRuns.dfy` | one request: reserve, charge, reconcile or refund over at most two attempts, failures after the settlement included; all runs of requests; which requests are served and how they end; two runs worked out |
| `ConversationForest.dfy`, `BranchTree.dfy`, `FamilyTotals.dfy` | parent walks, common ancestors, descendants, the branch tree and its totals |
| `ConversationMessages.dfy` | ordered messages, branching by copying a prefix, comparing |
| `CommitRanges.dfy`, `CommitBook.dfy`, `ConversationRestore.dfy` | what a commit introduces, commits and packages as they are made, restoring packages |
| `BranchHistory.dfy` | the sync history of a repository branch and the sync state shown for it |
| `RealtimeHub.dfy`, `PresenceRuns.dfy` | the websocket manager: connection table, indexes, presence, broadcasts that may fail; when a member is shown online |
| `StableSort.dfy`, `Wrappers.dfy` | sorting as the queries and lists do it; shared types |

## Where the code gives less than its name suggests

Each of these is proved, with the exact condition under which the expected property does hold.

- The key by which a session is resumed does not name a transcript file. Two files uploaded under one key leave a session
  that is a prefix of neither (`SwitchedTranscript`); an accepted upload keeps a prefix exactly when the two files agree on
  the uploaded range (`AcceptedKeepsPrefixIff`). `TranscriptSafety` therefore assumes one append-only transcript per session:
  what is uploaded to a session, and the path a plugin saves while bound to it, is that transcript. A machine may go on to
  another transcript with its next session. `Recovery` assumes nothing: the session ends up with the whole file exactly when the
  session of the key that was open before, if any, held a prefix of it.
- A push reports success without having uploaded anything when no hook has told the plugin where its transcript is
  (`PushUploadsNothing`). It means that the server has the whole transcript exactly when the plugin had been told, or the
  transcript is empty (`PushSucceededMeansWhole`).
- The push command moves the local offset to the server's, but not the sequence number. The cursor of a bound plugin stays
  usable exactly when the read-back is not answered, its transcript goes on past its offset, or the server has no more than that
  offset; an unbound plugin is bound in step (`PushKeepsCursorIff`). A lost reply followed by a second transcript not yet
  written breaks it (`PushDrifts`). With one transcript per session the condition always holds (`SteadyNoDrift`).
- A failed request does not always restore its sender. The release of a borrowed attempt stops at zero and the refund comes
  after it; and an error raised after the settlement, even after the commit, refunds the whole estimate again. All rows are
  restored exactly when the surpluses cancel, the earlier one is no more than the use recorded before, and a borrower could
  have paid the cost itself (`FailureRestoresIff`); when nothing fails late, exactly when the last route is not a borrowed one
  that costs something or the sender has the estimate (`EarlyFailureRestoresIff`). What is left over is accounted for in
  `WorkspaceTotal`. A sender without credits keeps a whole failed loan (`FailedBorrowLeavesCredits`), and a sender whose own
  provider answers gains the estimate when the broadcast after it fails (`LateFailureAddsCredits`).
- For the same reason a budget row can exceed the plain replay of its ledger. It always equals the replay in which a return
  stops at zero, and equals the plain one exactly when no return has hit that floor since the last allocation
  (`LedgerRefinement`); the failed loan above is such a run.
- A sender in debt, which soft enforcement allows, is not served with a borrowed account even though somebody could lend the
  whole estimate: the loan is charged against a balance that is still negative (`BorrowedServedIff`).
- A synced branch whose conversation gets a newer package without a newer commit is shown in conflict unless both have packages
  of different versions (`PackageAfterSync`), and two commits of one date are a conflict when the newer has the higher id
  (`CommitAfterSync`).
- `_resolve_root_conversation` notices a repetition one step later than the other walks, so on a cycle they stop at different
  conversations, and the common ancestor then depends on the side (`WalksAgreeIff`, `CommonAncestorOnACycle`). No table the
  program can build has a cycle (`ReachableTables`).
- A branch reads back as the prefix it copied exactly when the new ids keep the order of messages with equal times
  (`ReadsBackIff`); otherwise comparing it with its parent can share nothing at all (`SameTimeDiverges`).
- A context package is stored once, but messages are ordered by their dates, and a reply is dated by the start of its
  transaction. One that arrives late falls inside the range of a commit made in between, whose package then lacks it
  (`LateReply`). A message changes a commit's range exactly when it lands between the range's ends (`RangeStaysIff`), a stored
  package is always the commit's range without what has come since, and the stored packages restore the tip's prefix exactly
  when nothing with content has (`BookRestoresIff`).
- A commit is the child of the newest one, by clock reading and then id, which need not be the last one created: two commits at
  one clock reading can make the third a sibling of the second, and both introduce the same message (`EqualClocksFork`). The
  commits are a chain exactly when each that has a successor is newer than the one before it (`ChainIffInOrder`).
- Commits of a conversation may step back to an earlier message (`StepsBack`). Their ranges make up the tip's prefix exactly
  when none does (`RangesPartitionIff`).
- Presence is not connection. Somebody shown online stays so exactly when none of its connections in the workspace is dropped
  or fails, however many remain (`StaysOnlineIff`), and over a run is shown online exactly when it has lost none since its last
  subscription there (`OnlineIff`). Closing one of two connections is a run that shows a connected member offline
  (`CloseRunShowsOffline`).
- Switching to another workspace leaves the old one without a MEMBER_LEFT (`SwitchIsSilent`,
  `SwitchRunIsSilent`); a departure by closing or by a failed send is always announced, once (`LeftOnceWhenLastIsGone`).

## Model

| member | source | states |
|---|---|---|
| SyncTheorems.TranscriptSafety | plugins/claude/runtime.py:106-149 | in every run in which each session has one append-only transcript, under lost requests, lost replies, crashes before saving, late duplicates and stray connects: each session and its snapshot hold exactly the first `synced` bytes of its transcript, each plugin's offset and next sequence number are the cursor after some prefix of its session's chunks, and at most one session is open per resume key |
| SyncTheorems.EveryRunIsSound | backend/app/external_ai_sessions/service.py:72-119 | with no assumption on transcript paths: in every run sessions are numbered and tiled, one is open per key at most, and each chunk is byte for byte what its file holds at its offsets |
| SyncTheorems.StaleAddsNothing | plugins/claude/runtime.py:106-211 | a plugin that missed a reply neither duplicates nor skips bytes: whatever path it is told, no hook short of a session start adds a chunk to any session |
| SyncTheorems.StaleStaysPut | plugins/claude/runtime.py:106-211 | with one transcript per session, and the hook naming that transcript if any, such a hook leaves the server's whole table and the plugin's saved cursor as they were |
| SyncTheorems.AcceptedIffInStep | plugins/claude/runtime.py:122-149 | a bound plugin's upload is accepted exactly when its session is open and it has seen every chunk |
| SyncTheorems.FlushReturnedMeansWhole | plugins/claude/runtime.py:106-149 | when a forced flush of a plugin that knows its file returns normally, the session holds the whole file exactly when it held a prefix of it before, and the plugin is then clean and at the session's end |
| SyncTheorems.Recovery | plugins/claude/runtime.py:38-70 | from every sound table, hence every reachable one, whatever its plugins and files: one answered session start and one answered pre-compaction flush naming a file leave a clean plugin in step with an open session of its key, which holds the whole file exactly when every session of the key open before held a prefix of it |
| SyncTheorems.SteadyRecovery | plugins/claude/runtime.py:38-70 | after any run with one transcript per session the two hooks leave the whole file on the server when the file is the transcript of the key's open session, or none is open |
| SyncTheorems.TurnCatchesUp | plugins/claude/runtime.py:73-165 | from a plugin in step with an open session, a tool use and the answered end of the turn leave it clean and at its session's end, with the path last named; the session holds that whole file exactly when it held a prefix of it, and no other session is touched |
| SyncTheorems.StopCatchesUp | plugins/claude/runtime.py:152-165 | the same for the end of a turn of a dirty plugin; for one that is not dirty the table and the cursor stay as they were |
| SyncTheorems.SessionEndCloses | plugins/claude/runtime.py:184-211 | an answered session end catches up in the same way, leaves the plugin unbound and clean, and closes the session at that time unless the request to close it is lost |
| SyncTheorems.LostChangesNoTable | plugins/claude/runtime.py:38-211 | a hook or push all of whose requests are lost leaves the server's table as it is |
| SyncTheorems.UnansweredLands | plugins/claude/runtime.py:122-149 | a flush whose reply is lost, or that dies before saving, leaves the table an answered one leaves, and if that is another table the plugin keeps its cursor and the hook fails |
| SyncTheorems.PushSucceededMeansWhole | plugins/claude/commands.py:53-81 | with one transcript per session, a push that reports success leaves the plugin at its session's end, and the session has the whole transcript exactly when the plugin knew a path or the transcript is empty |
| SyncTheorems.PushUploadsNothing | plugins/claude/commands.py:41-81 | a run of two events: a transcript is written and the first thing its machine runs is a push, which reports success and uploads nothing |
| SyncTheorems.SteadyNoDrift | plugins/claude/commands.py:69-81 | with one transcript per session a push always meets the condition of `PushKeepsCursorIff` |
| SyncTheorems.PushKeepsCursorIff | plugins/claude/commands.py:69-81 | for every fate of its requests a push keeps the plugin's cursor usable exactly when the read-back is not answered or, before the push, the plugin is unbound, its transcript goes on past its offset, or the server has no more than that offset |
| SyncTheorems.PushDrifts | plugins/claude/commands.py:69-81 | a run of five events whose last, a successful push, leaves the plugin at offset 2 and sequence number 1 |
| SyncProtocol.LandsInStepIff | plugins/claude/commands.py:64-81 | a push that reaches its alignment finds the server no further than the plugin exactly under that condition |
| SyncTheorems.AcceptedKeepsPrefixIff | backend/app/external_ai_sessions/service.py:159-181 | after an accepted upload from some file a session is still a prefix of a given file exactly when that file agrees on the uploaded range |
| SyncTheorems.SwitchedTranscript | backend/app/external_ai_sessions/service.py:159-181 | a run with two transcripts under one resume key whose session ends as a prefix of neither |
| SyncTheorems.EveryRunVersions | backend/app/transcript_snapshots/service.py:22-54 | in every run, connects cut off between their two commits included, a session of n chunks has snapshot version n + 1, or it has neither snapshot nor chunks |
| SyncProtocol.StepKeepsSound | plugins/claude/runtime.py:38-211 | every event of the system, whatever is lost or delivered again, keeps its invariant, and keeps all cursors unless a push drifts |
| SyncTheorems.SentRecords | plugins/claude/runtime.py:122-149 | every chunk a hook or push adds is that of an upload on record, so that it may be delivered again at any later time |
| SyncTheorems.RedeliverIs | backend/app/external_ai_sessions/service.py:72-119 | such an upload delivered again is taken exactly when it is still the next of its open session, and otherwise changes nothing |
| SyncTheorems.SendsNothing | plugins/claude/runtime.py:73-83 | tool uses, session starts and ends of turns of a plugin that is not dirty send no upload, and a tool use no request at all |
| SyncTheorems.StraysLand | backend/app/external_ai_sessions/service.py:32-70 | connects and disconnects from elsewhere reach the server: a session of the key is open, or the one named is closed |
| TranscriptSessions.UploadAccepted | backend/app/external_ai_sessions/service.py:72-119 | the exact condition under which an upload is accepted, and its whole effect on the session and its snapshot |
| TranscriptSessions.UploadRejectedAs | backend/app/external_ai_sessions/service.py:78-104 | which error each rejected upload gets, with the sequence number that was expected |
| TranscriptSessions.UploadKeepsTable | backend/app/external_ai_sessions/service.py:72-119 | accepted or not, an upload keeps every session numbered, tiled and equal to its snapshot |
| TranscriptSessions.DuplicateUploadRejected | backend/app/external_ai_sessions/service.py:88-104 | the same upload delivered again is rejected |
| TranscriptSessions.ConnectBinds | backend/app/external_ai_sessions/service.py:32-70 | connecting resumes the open session of the key or appends one started now, never fails once built, gives it the conversation named, changes nobody's chunks, key, status or dates, and answers with the session's cursor and chunk count; cut off, it leaves a session without a snapshot |
| TranscriptSessions.DisconnectCloses | backend/app/external_ai_sessions/service.py:121-134 | closing an open session sets its status and end time and nothing else, closing a closed one changes nothing, and only an unknown one fails |
| TranscriptSessions.FindResumable | backend/app/external_ai_sessions/service.py:159-181 | the session resumed is an open one of that key started no earlier than any other, and none is found only when none is open |
| TranscriptSessions.TiledMaxSequence | backend/app/external_ai_sessions/service.py:183-189 | the largest sequence number equals the number of chunks, so the client's chunk count + 1 is the server's next number |
| TranscriptSessions.MaxSequenceIs | backend/app/external_ai_sessions/service.py:183-189 | on any rows it is the largest number there, and 0 when there is none |
| TranscriptSessions.RebuildOfTiled | backend/app/transcript_snapshots/service.py:22-54 | the ordering check never rejects a tiled session, and the rebuilt snapshot is the chunks joined, one version on |
| TranscriptSessions.RebuildFailsIff | backend/app/transcript_snapshots/service.py:22-54 | on any chunks the rebuild fails exactly when one is not numbered by its place in sequence order, and names the first such place |
| TranscriptSessions.OrderedAlready | backend/app/transcript_snapshots/service.py:93-102 | loading chunks by sequence gives them in the order they were accepted |
| TranscriptSessions.FirstMisnumbered | backend/app/transcript_snapshots/service.py:104-113 | the ordering check finds the first chunk whose number is not its position, and nothing exactly when all are numbered 1, 2, ... |
| TranscriptSessions.SessionService.ValidateChunkOrdering | backend/app/transcript_snapshots/service.py:104-113 | the loop finds the first misnumbered chunk |
| TranscriptSessions.SessionService.Rebuild | backend/app/transcript_snapshots/service.py:22-54 | replaces the snapshot row, or leaves the table as it was |
| TranscriptSessions.SessionService.ConnectSession | backend/app/external_ai_sessions/service.py:32-70 | table and reply are those of the connect the lemmas speak about |
| TranscriptSessions.SessionService.Receive | backend/app/external_ai_sessions/service.py:72-119 | table and error are those of the upload the lemmas speak about; a rejection is rolled back |
| TranscriptSessions.SessionService.Close | backend/app/external_ai_sessions/service.py:121-134 | table and error are those of the disconnect the lemmas speak about |
| PluginRuntime.ReadDelta | plugins/claude/runtime.py:86-103 | what is read is the file from the clamped offset to its end, with its true offsets, and is empty exactly when they meet |
| PluginRuntime.PluginState.MarkDirty | plugins/claude/state.py:28-31 | sets the flag, and the path when one is given |
| PluginRuntime.PluginState.MarkFlushed | plugins/claude/state.py:33-38 | moves offset and sequence number together and clears the flag |
| PluginRuntime.PluginHost.FlushTranscript | plugins/claude/runtime.py:106-149 | local state, saved state and server table after a flush, for every fate of its request |
| PluginRuntime.PluginHost.HandleSessionStart | plugins/claude/runtime.py:38-70 | binds the plugin to the server's cursor, for every fate of the request |
| PluginRuntime.PluginHost.HandlePostToolUse | plugins/claude/runtime.py:73-83 | marks the saved state dirty |
| PluginRuntime.PluginHost.HandleStop | plugins/claude/runtime.py:152-165 | saves the path named and flushes when dirty, for every fate of the upload |
| PluginRuntime.PluginHost.HandlePreCompact | plugins/claude/runtime.py:168-181 | forces a flush |
| PluginRuntime.PluginHost.HandleSessionEnd | plugins/claude/runtime.py:184-211 | forces a flush, then unbinds whether or not the disconnect got through |
| PluginRuntime.PluginHost.BindIfUnbound | plugins/claude/commands.py:41-50 | starts a session only when none is bound |
| PluginRuntime.PluginHost.AlignOffset | plugins/claude/commands.py:73-81 | refuses when the local offset is ahead, otherwise takes the server's |
| PluginRuntime.PluginHost.RunPush | plugins/claude/commands.py:53-81 | the push up to where it has saved its state, for every fate of its three requests |
| CreditPolicy.CostMonotone | backend/app/resource_management/credit_policy.py:16-29 | more tokens never cost less |
| CreditPolicy.EstimateIsFull | backend/app/resource_management/credit_policy.py:31-47 | the estimate is zero for a free provider and otherwise depends on the length of the prompt alone |
| CreditPolicy.WhoPays | backend/app/resource_management/pricing_engine.py:7-33 | nobody pays on the free profile and everybody on the demo one; in production all but ollama and mock, in whatever case the name is written, pay the full estimate |
| CreditPolicy.FullEstimateIs | backend/app/resource_management/credit_policy.py:31-47 | the full estimate is a hundredth per ten tokens begun, with a token for every four characters of the prompt, at least one, and 1024 for the reply |
| CreditPolicy.CostOfSplitRequest | backend/app/resource_management/credit_policy.py:16-29 | paying for two parts costs what the whole costs, or one cent more |
| CreditPolicy.CostZeroIff | backend/app/resource_management/pricing_engine.py:24-33 | a request is free exactly when its provider is or it used no tokens |
| CreditPolicy.ZeroEstimateIsFree | backend/app/resource_management/credit_policy.py:31-47 | a zero estimate means a zero cost whatever was used, so the late charge never charges |
| CreditPolicy.WithinEstimate | backend/app/resource_management/credit_policy.py:31-47 | using no more tokens than estimated never costs more than the estimate |
| CreditLedger.PlainReplayGap | backend/app/resource_sharing/engine.py:242-287 | the replay with returns stopped at zero is never below the plain one, and equal to it exactly when no return hit zero since the last allocation |
| BudgetService.ResetCatchesUp | backend/app/resource_management/budget_service.py:91-115 | the reset loop ends for every date; when due it writes one allocation per month entered, and leaves the row refilled with the next reset after today |
| BudgetService.ResetIdempotent | backend/app/resource_management/budget_service.py:91-115 | a second reset on the same day changes nothing |
| BudgetService.OnOrBeforeIs | backend/app/resource_management/budget_service.py:91-115 | dates are compared by year and month first, and within a month by day |
| BudgetService.ResetKeepsBooks | backend/app/resource_management/budget_service.py:91-115 | a reset keeps every row equal to the ledger's replay and touches no other row |
| BudgetService.ConsumeKeepsBooks | backend/app/resource_management/budget_service.py:129-161 | consuming keeps rows and ledger in agreement, and without permission to overdraw leaves nobody newly negative |
| BudgetService.AdjustKeepsBooks | backend/app/resource_management/budget_service.py:205-237 | so does an adjustment, which moves the balance and its entry together |
| BudgetService.CreateKeepsBooks | backend/app/resource_management/budget_service.py:37-80 | opening a budget adds a full row that is due next month and one allocation, keeps the agreement with the ledger and everybody else, and does nothing for a member that has one |
| BudgetService.AllocateKeepsBooks | backend/app/resource_management/budget_service.py:163-188 | an allocation refills exactly that row, due next month, writes one entry, fails exactly without a row, and keeps the agreement with the ledger and everybody out of overdraft |
| BudgetService.BudgetStore.CreateRow | backend/app/resource_management/budget_service.py:37-80 | rows and ledger after creation |
| BudgetService.BudgetStore.Reset | backend/app/resource_management/budget_service.py:91-115 | the loop's rows and ledger are those of catching up, for any reset date |
| BudgetService.BudgetStore.HasAvailable | backend/app/resource_management/budget_service.py:117-127 | answers from the balance after the reset it may make; asks nothing for a non-positive amount |
| BudgetService.BudgetStore.ConsumeCredits | backend/app/resource_management/budget_service.py:129-161 | rows, ledger and error of a charge |
| BudgetService.BudgetStore.AllocateMonthly | backend/app/resource_management/budget_service.py:163-188 | rows, ledger and error of an allocation |
| BudgetService.BudgetStore.AdjustCredits | backend/app/resource_management/budget_service.py:205-237 | rows, ledger and error of an adjustment |
| LenderStrategy.OrderIsStableAndDescending | backend/app/resource_sharing/strategy.py:41-50 | lenders are rearranged by capacity, most first, then by priority number, and equal ones keep their order |
| LenderStrategy.SelectedIsHeadOfOrder | backend/app/resource_sharing/strategy.py:56-73 | the lender selected is the head of that order when the head can cover the amount, and nobody otherwise |
| LenderStrategy.SelectedIsCandidate | backend/app/resource_sharing/strategy.py:56-73 | whoever is selected was a candidate and can cover the amount |
| BorrowEngine.ScanKeeps | backend/app/resource_sharing/engine.py:45-151 | searching for lenders leaves each member as it was or caught up with its resets, writes allocations only, and every candidate found was accepted on its own preference row |
| BorrowEngine.ReserveMovesCredits | backend/app/resource_sharing/engine.py:153-223 | after resets, a reservation moves exactly the amount from one eligible lender, who stays at or above its own row's reserve and within its limit, and otherwise nothing moves; with no reset due the books before it are those books |
| BorrowEngine.LendersAre | backend/app/resource_sharing/engine.py:45-151 | with no reset due the candidates are exactly the sharing members of workspace and conversation, other than the borrower, whose limit and reserve leave room for the amount, or who have anything left to lend when there is none |
| BorrowEngine.ReserveIff | backend/app/resource_sharing/engine.py:153-223 | with no reset due credits are reserved exactly when the borrower has a row and somebody may and can lend them all; the lender has the most left to lend of those, the lowest priority number deciding among equals |
| BorrowEngine.ReleaseKeepsBooks | backend/app/resource_sharing/engine.py:242-287 | a release keeps rows and ledger in agreement, loans within limits and everybody out of overdraft |
| BorrowEngine.BorrowDesk.Search | backend/app/resource_sharing/engine.py:45-86 | books and candidates of the search, with an amount or without |
| BorrowEngine.BorrowDesk.ReserveShared | backend/app/resource_sharing/engine.py:153-223 | books, error and reservation of a reservation |
| BorrowEngine.BorrowDesk.ReserveChosen | backend/app/resource_sharing/engine.py:174-223 | the second half, once a lender is chosen and both rows have been reset |
| BorrowEngine.BorrowDesk.ReleaseBorrow | backend/app/resource_sharing/engine.py:242-287 | books and error of a release |
| Gateway.AIGateway.ResolveBorrowedRouting | backend/app/ai/gateway.py:469-501 | books and route when asking lenders in order |
| Gateway.AIGateway.ResolveExecutionRouting | backend/app/ai/gateway.py:424-467 | own account, then a lender's, then a free configured provider |
| Gateway.AIGateway.PrepareAttempt | backend/app/ai/gateway.py:109-182 | books, reserved amount and reservation of the preparation the lemmas of admission speak about, or its rejection |
| Gateway.AIGateway.CompensateFailure | backend/app/ai/gateway.py:358-397 | return first, full refund second, from whatever state the attempt has reached; when one of them raises, only what was committed stays |
| Gateway.AIGateway.ReconcileCharge | backend/app/ai/gateway.py:280-304 | late charge or settlement of the difference |
| Gateway.AIGateway.FinishAttempt | backend/app/ai/gateway.py:305-397 | the rest of the attempt after its settlement: delivered, or compensated or rolled back, on either side of the commit |
| Gateway.AIGateway.RunAttempt | backend/app/ai/gateway.py:108-397 | one turn of the attempt loop, whatever raises in it |
| Gateway.AIGateway.GenerateResponse | backend/app/ai/gateway.py:58-422 | the attempt loop: books, ending and number of attempts, with rejections rolled back to the last commit |
| GatewayTheorems.AttemptEffect | backend/app/ai/gateway.py:108-397 | what one attempt does to every row when it is delivered, compensated early, or compensated after its settlement, and which results lead there |
| GatewayTheorems.WholeRequest | backend/app/ai/gateway.py:58-422 | with no reset falling inside the request: at most two attempts on routes known beforehand, each reserving its route's estimate; a rejection leaves only what the first attempt had committed; a delivery charges exactly the actual cost; failed attempts change the sender's row alone, to the balance less the cost, stopped at zero for a loan, plus the estimate |
| GatewayAdmission.FirstRouteIs | backend/app/ai/gateway.py:424-501 | with no reset due a request takes the sender's own account; else, when borrowing is allowed, that of the member with the most left to lend among those who may and have an account; else a free configured provider; else none |
| GatewayAdmission.RetryRouteIs | backend/app/ai/gateway.py:399-416 | a retry is routed to such a lender after a first attempt that was not borrowed, and to nobody else |
| GatewayAdmission.AttemptRejectedIff | backend/app/ai/gateway.py:138-229 | an attempt leaves no trace exactly when its sender is not admitted (a disabled local model; or a positive estimate and no row, a short balance under hard enforcement, or for a borrowed route a debt or nobody to lend it all) or its outcome is undone; it is compensated exactly when admitted and failed |
| GatewayAdmission.RequestEnds | backend/app/ai/gateway.py:58-422 | rejected, delivered, answered or failed, after how many attempts: exactly as the routes, the admission of the sender on them and the results of the attempts say |
| GatewayAdmission.OwnAccountServedIff | backend/app/ai/gateway.py:138-229 | with an account of its own a request answered in time is delivered exactly when its provider is not a disabled local model and the estimate is zero, or the sender has a row and enforcement is soft or the balance covers the estimate; otherwise it is rejected without a trace |
| GatewayAdmission.BorrowedServedIff | backend/app/ai/gateway.py:138-229 | with a lender's account, exactly when that provider is not a disabled local model and the estimate is zero, or the sender has a row, is not in debt, and somebody may and can lend the whole estimate |
| GatewayTheorems.FailureRestoresIff | backend/app/resource_sharing/engine.py:242-287 | a failed request restores every row exactly when a condition on the sender's row before it, the routes known beforehand and the costs of the replies holds: surpluses cancel, the first is no more than the recorded use, and a borrower could have paid |
| GatewayTheorems.EarlyFailureRestoresIff | backend/app/resource_sharing/engine.py:242-287 | when nothing fails after a settlement, every row is restored exactly when the last route is own or free, or the sender has at least the full estimate |
| GatewayTheorems.RetryAgrees | backend/app/ai/gateway.py:469-501 | the lender found for the retry does not depend on what the first attempt did to the borrower |
| GatewayRuns.FailedBorrowLeavesCredits | backend/app/ai/gateway.py:381-422 | a reachable workspace in which a sender without credits ends a failed loan with the whole estimate, and the ledger floor has been hit |
| GatewayRuns.LateFailureAddsCredits | backend/app/ai/gateway.py:305-397 | a reachable workspace in which an attempt that fails after its settlement leaves the sender with more than it had |
| GatewayTheorems.WorkspaceTotal | backend/app/ai/gateway.py:58-422 | the exact change of the workspace total: minus the actual cost of a delivered request whoever lent, minus what a rejected one had committed, plus what each failed attempt refunds beyond its cost, plus what a failed borrower was short of it |
| GatewayTheorems.GenerateKeeps | backend/app/ai/gateway.py:58-422 | a request, late failures included, keeps rows and ledger in agreement and loans within limits, and under hard enforcement with replies within the estimate overdraws nobody |
| GatewayTheorems.LedgerRefinement | backend/app/resource_management/budget_service.py:37-237 | over every run of all operations: each row equals the ledger's replay with returns stopped at zero, is at least the plain replay, equals it exactly when no return hit zero since the last allocation, and has lent no more than the limit of its own preference row |
| GatewayTheorems.HardBudgetHolds | backend/app/ai/gateway.py:138-182 | over every run of requests under hard enforcement with replies within the estimate, late failures, resets, allocations, charges within the balance, credits, loans and returns, no balance is ever negative |
| ConversationForest.ChainSteps | backend/app/conversations/insights.py:806-820 | on any table the guarded walk climbs one parent at a time, never repeats, and stops only at a missing parent or a repetition |
| ConversationForest.AncestorsAreChain | backend/app/conversations/insights.py:806-820 | the chain holds exactly the conversations reachable by following parents |
| ConversationForest.FindRoot | backend/app/conversations/insights.py:766-778 | ends on every table at the top of the chain |
| ConversationForest.AncestorChain | backend/app/conversations/insights.py:806-820 | ends on every table with the chain |
| ConversationForest.GetLineage | backend/app/conversations/service.py:656-679 | the lineage is the chain from the root down, without its two ends |
| ConversationForest.ResolveRoot | backend/app/branch_memory/service.py:439-451 | ends on every table, one parent above the top when that one was already seen |
| ConversationForest.WalksAgreeIff | backend/app/branch_memory/service.py:439-451 | this walk and the others agree exactly when the walk ends at a root, or at a conversation that is its own parent |
| ConversationForest.CompareAncestors | backend/app/conversations/insights.py:299-305 | the loop finds the first of the left chain that is on the right chain |
| ConversationForest.CommonAncestorIsDeepest | backend/app/conversations/insights.py:299-305 | on any table the answer is a common ancestor that every common ancestor is above, and there is none exactly when nothing is above both |
| ConversationForest.CommonAncestorSymmetric | backend/app/conversations/insights.py:299-305 | swapping the sides gives the same answer when either walk ends at a root |
| ConversationForest.CommonAncestorOnACycle | backend/app/conversations/insights.py:299-305 | on a two-conversation cycle the answer depends on the side and the root walks differ |
| ConversationForest.NoCommonAncestorIffRootsDiffer | backend/app/conversations/insights.py:766-820 | where walks end at roots, there is no common ancestor exactly when the roots differ |
| ConversationForest.ReachableTables | backend/app/conversations/service.py:549-640 | in every table built by creating, branching and deleting, walks end at roots, all walks agree, and the common ancestor is symmetric and missing exactly when the roots differ |
| ConversationForest.GrownIsReachable | backend/app/conversations/service.py:549-626 | every table whose parents are older than their children and of the same workspace can be built so: those are exactly the reachable ones |
| ConversationForest.DeleteOrphans | backend/app/models/conversation.py:77-81 | deleting takes out that conversation only, its children become roots, and all others keep their parents |
| BranchTree.GroupByParent | backend/app/conversations/insights.py:788-794 | the lists by parent hold each parent's children in listing order |
| BranchTree.LoadDescendants | backend/app/conversations/insights.py:780-804 | on any table, cycles included and with no visited set, the stack search ends and returns each proper descendant exactly once, parents first |
| BranchTree.DescendantIffAncestor | backend/app/conversations/insights.py:780-820 | in reachable tables the descendants are the other conversations whose ancestor chain contains the root |
| FamilyTotals.BuildBranchTree | backend/app/conversations/insights.py:540-591 | the tree built by appending to children lists and sorting them |
| FamilyTotals.SummarizeTree | backend/app/conversations/insights.py:593-607 | the recursive totals |
| FamilyTotals.GrownHolds | backend/app/conversations/insights.py:559-586 | attaching in search order puts every conversation under its own parent, once, with its own activity and counts |
| FamilyTotals.SortKeeps | backend/app/conversations/insights.py:588-589 | sorting moves nobody to another parent and changes no total |
| FamilyTotals.SortedByActivity | backend/app/conversations/insights.py:588-589 | the most recently active child comes first |
| FamilyTotals.SortedEverywhere | backend/app/conversations/insights.py:588-589 | at every node of the tree the children are in descending activity |
| FamilyTotals.ValuesAreNodes | backend/app/conversations/insights.py:151-187 | summing the values of a grouped count is summing over all the conversations |
| FamilyTotals.TreeEqualsFlat | backend/app/conversations/insights.py:145-191 | the tree holds the root and each descendant exactly once, under its own parent and with its own activity and counts, and its recursive totals are the family overview's flat sums |
| ConversationMessages.CompareMessages | backend/app/conversations/insights.py:307-336 | the shared messages are the first of the left side and agree with those of the right in role and in content; where both sides go on they differ in one of the two; the rests are what is left, and the divergence names the last shared message |
| ConversationMessages.SharedIsMaximal | backend/app/conversations/insights.py:310-320 | no beginning on which both sides agree in role and content is longer than the shared part |
| ConversationMessages.ComparesSymmetrically | backend/app/conversations/insights.py:307-336 | the other way round as much is shared and the rests are exchanged |
| ConversationMessages.CopiesOrderedPrefix | backend/app/conversations/service.py:568-588 | what a branch copies is exactly the conversation's ordered messages up to and including the chosen one |
| ConversationMessages.ReadsBackIff | backend/app/conversations/service.py:617-626 | the branch reads back as the copied prefix exactly when the new ids ascend among messages of equal time |
| ConversationMessages.BranchThenCompare | backend/app/conversations/insights.py:307-336 | branching and comparing shares the whole branch up to the chosen message, leaves nothing on the branch alone and the rest of the parent on the parent |
| ConversationMessages.DistinctTimesAscend | backend/app/conversations/service.py:568-588 | distinct times meet the condition of the two laws above |
| ConversationMessages.SameTimeDiverges | backend/app/conversations/service.py:568-626 | two messages of one time, with ids drawn the other way round, whose branch shares nothing with its parent |
| ConversationMessages.ConversationStore.CreateBranch | backend/app/conversations/service.py:549-626 | appends copies of the ordered prefix with role, content, author and time, or fails exactly when the message is not the conversation's and changes nothing |
| CommitRanges.RangesAgree | backend/app/conversations/context_packages.py:81-98 | the package's range, the detail view's and the summary's are the same when the commit's message is there and its parent is listed |
| CommitRanges.ChainRange | backend/app/conversations/commits.py:361-365 | in a conversation's chain a commit's range starts where the one before it ended |
| CommitRanges.RangesPartitionIff | backend/app/conversations/context_packages.py:81-98 | the ranges of a chain put together are the tip's prefix exactly when no commit steps back |
| CommitBook.StepsBack | backend/app/conversations/commits.py:68-195 | a sound book of two commits, the second at an earlier message, whose ranges are more than the prefix of the tip |
| CommitRanges.RangeAfterInsert | backend/app/conversations/context_packages.py:81-98 | a message that joins the ordered conversation joins a commit's range, at its place, exactly when it lands between the range's ends, and otherwise changes nothing of it |
| CommitRanges.RangeStaysIff | backend/app/conversations/context_packages.py:81-98 | so the range stays the same exactly when the position is before its start or after the commit's message |
| CommitRanges.CreditsAddUp | backend/app/conversations/insights.py:720-763 | credits shown commit by commit add up to those of the tip's prefix when no commit steps back |
| CommitRanges.RequestCounts | backend/app/conversations/insights.py:720-763 | a request adds its stored cost to the credits of exactly the ranges that contain its answer |
| CommitRanges.SummarizeRange | backend/app/conversations/insights.py:708-763 | credits of the requests answered in the range, and each of their providers once |
| CommitBook.ConversationCommits.AddMessage | backend/app/models/message.py:43-47 | a message joins at the place its date gives it; the book stays sound, and a stored package stays true exactly when the message is not dated between the end of its commit's parent and its commit's message |
| CommitBook.DatedInsideIff | backend/app/conversations/context_packages.py:75-98 | being dated between the two messages is landing between the range's ends |
| CommitBook.PackageTrueIff | backend/app/conversations/context_packages.py:164-173 | a stored package is the snapshot of its commit's range of today exactly when everything in that range was there when the commit was made |
| CommitBook.LateReply | backend/app/ai/gateway.py:246-257 | a sound book with true packages in which a reply dated before a committed note arrives after it: the stored package is no longer true, and restoring it does not say what the conversation up to the commit says |
| CommitBook.ConversationCommits.CreateCheckpointForMessage | backend/app/conversations/commits.py:37-66 | the new checkpoint's parent is a newest checkpoint, and none exactly when there was none |
| CommitBook.ConversationCommits.CreateCommit | backend/app/conversations/commits.py:68-195 | for any clock reading: the commit is a child of the newest one, at the newest checkpoint of its message or a new one, with the snapshot of what it introduced, and changes no other package's truth; refused exactly for a missing message or when that checkpoint has a commit, and then nothing changes |
| CommitBook.ConversationCommits.NewestCommit | backend/app/conversations/commits.py:112-118 | the parent is a commit no other is newer than, by time and then id, and is missing only when there is no commit |
| CommitBook.FreshUntaken | backend/app/conversations/commits.py:87-110 | a checkpoint made for a commit is never the reason to refuse it |
| CommitBook.NewestForIs | backend/app/conversations/commits.py:87-95 | the checkpoint looked up is of the message, none is newer, and it is missing only when there is none |
| CommitBook.ChainIffInOrder | backend/app/conversations/commits.py:112-118 | the commits are a chain, each the child of the one created before it, exactly when each that has a commit after it is newer than the one before it |
| CommitBook.EqualClocksFork | backend/app/conversations/commits.py:112-120 | a sound book of three commits, the first two at one clock reading: the third is the child of the first, the chain is broken, and the second and third commit both introduce the second message |
| CommitBook.CommitKeeps | backend/app/conversations/commits.py:68-195 | a new commit keeps parents, one commit per checkpoint and every package, and all packages are true after it exactly when all were before |
| CommitBook.BookRestoresIff | backend/app/conversations/restore.py:282-334 | for a chain in which no commit steps back, the stored packages restored in order say what the tip's prefix says, role, content, author and time, exactly when no message with content has come into a commit's range after the commit was made |
| ConversationRestore.RestoreRoundTrip | backend/app/conversations/context_packages.py:164-173 | restoring a snapshot gives back what every message with content said, and nothing else |
| ConversationRestore.DecodeIs | backend/app/conversations/restore.py:288-331 | only an object with content is restored: as an assistant's or system message under exactly those names and a user's otherwise, by its author if that can be read, and at its time, or else now |
| ConversationRestore.RestoreReproducesPrefix | backend/app/conversations/restore.py:282-334 | so do the packages of a chain restored one after the other |
| ConversationRestore.RestoreMessages | backend/app/conversations/restore.py:282-334 | the loop adds a row for each item with content, with its fallbacks for missing and unreadable fields, and moves the activity to the latest time |
| BranchHistory.VersionsAreDense | backend/app/branch_memory/service.py:335-347 | over every run the recorded versions are 1 to n |
| BranchHistory.LatestIsLastExplicit | backend/app/branch_memory/service.py:300-355 | over every run each pointer of the latest record is the one last given since the last detach, or nothing if there is none |
| BranchHistory.ReplayExtends | backend/app/branch_memory/service.py:300-355 | the log only grows |
| BranchHistory.SyncedIff | backend/app/sync/service.py:228-315 | the branches of the classifier for any ids at all: a commit id naming no row would also read as synced, which no caller can pass |
| BranchHistory.SyncedIffSame | backend/app/sync/service.py:228-315 | when the commit compared exists, synced exactly when attached, not in conflict, and with the conversation's newest commit and newest package |
| BranchHistory.LatestCommitIsNewest | backend/app/sync/service.py:317-327 | the newest commit is the conversation's own and all its others are older, ids deciding on equal dates |
| BranchHistory.LatestPackageIsNewest | backend/app/sync/service.py:329-339 | so is the newest package, by the time it was generated |
| BranchHistory.SyncStateIs | backend/app/sync/service.py:228-315 | for an attached branch not in conflict whose commit, if any, exists, exactly when it is ahead, behind or in conflict: dates of the commits decide, then their ids, and with the same commit the versions of the packages |
| BranchHistory.UntrackedIs | backend/app/sync/service.py:228-254 | a branch without records or detached by its latest one is detached whatever its status, one in conflict is so whatever it is attached to, and every other that is not attached is detached |
| BranchHistory.CommitAfterSync | backend/app/sync/service.py:35-60 | a branch shown synced becomes ahead with a later commit of its conversation, a conflict with one of the same date and a higher id, and stays synced with any other |
| BranchHistory.PackageAfterSync | backend/app/sync/service.py:288-313 | with a newer package and no newer commit it becomes ahead or behind by the versions, and a conflict when they are equal or it had none |
| BranchHistory.PushThenCommit | backend/app/sync/service.py:35-172 | after a plain push answered synced the status is synced, and a later commit of the conversation makes it ahead |
| BranchHistory.PlainPushState | backend/app/sync/service.py:79-172 | a push naming nothing is synced unless it carries a commit or package the conversation has none of: then behind or conflict |
| BranchHistory.BranchMemory.constructor | backend/app/branch_memory/service.py:46-60 | a new memory is at version 1 with the attach record |
| BranchHistory.CreateForBranch | backend/app/branch_memory/service.py:35-44 | an existing memory is returned as it is, otherwise a new one is made |
| BranchHistory.BranchMemory.AppendSyncRecord | backend/app/branch_memory/service.py:300-355 | appends exactly one record, advances both versions together, marks the branch not synced and stamps pushes |
| BranchHistory.BranchMemory.SyncForConversation | backend/app/branch_memory/service.py:194-226 | records the root found by the walk, with a branch conversation as itself unless told otherwise, exactly when the root or the conversation has a repository, and nothing otherwise |
| BranchHistory.BranchMemory.SyncForRestore | backend/app/branch_memory/service.py:265-298 | records the restored conversation with its package and commit exactly when the source conversation exists and its root has a repository |
| BranchHistory.DetachForConversation | backend/app/branch_memory/service.py:228-263 | of the repository's memories exactly those whose latest record is the root conversation's are detached |
| BranchHistory.BranchMemory.RegisterPush | backend/app/sync/service.py:79-172 | refused for exactly the listed reasons, changing nothing; otherwise one record, ready, and the state after it, synced for a plain push exactly when nothing stale is carried |
| BranchHistory.BranchMemory.GetStatus | backend/app/sync/service.py:35-60 | the state of the latest record's commit and package, as far as they still exist, which is what the status lemmas speak about |
| RealtimeHub.EvolvesChains | backend/app/realtime/manager.py:87-140 | what nested disconnects and broadcasts do adds up: exactly the closed connections and those whose send failed are gone, all other records are untouched, presence and departures follow |
| RealtimeHub.LeftOnceWhenLastIsGone | backend/app/realtime/manager.py:105-138 | MEMBER_LEFT goes out exactly once for each member whose last connection in a workspace has gone, and for nobody else |
| RealtimeHub.FailedAreGone | backend/app/realtime/manager.py:269-289 | no connection whose send failed is left in the table or in any index |
| RealtimeHub.DeparturesMatchArrivals | backend/app/realtime/manager.py:68-191 | over every run a member's departures from a workspace are the arrivals, less the one still due and the switches away |
| RealtimeHub.SwitchIsSilent | backend/app/realtime/manager.py:142-178 | a member whose only connection switches workspace leaves without a MEMBER_LEFT |
| RealtimeHub.ShownOfflineWhileConnected | backend/app/realtime/manager.py:102-110 | closing one of two connections shows the member offline while the other lives |
| PresenceRuns.StaysOnlineIff | backend/app/realtime/manager.py:102-110 | somebody shown online stays so exactly when none of its connections in the workspace was closed or failed |
| PresenceRuns.OnlineIff | backend/app/realtime/manager.py:87-178 | over every run a member is shown online in a workspace exactly when it has lost no connection there since its last subscription to it |
| PresenceRuns.CloseRunShowsOffline | backend/app/realtime/manager.py:87-140 | a run from the empty manager, every send succeeding, after which a connected member is shown offline |
| PresenceRuns.SwitchRunIsSilent | backend/app/realtime/manager.py:142-178 | a run from the empty manager after which a member has left a workspace and no MEMBER_LEFT was broadcast |
| RealtimeHub.PoppedDrops | backend/app/realtime/manager.py:93-124 | the block under the lock keeps table and indexes in agreement and removes exactly that connection |
| RealtimeHub.SubscribedIsValid | backend/app/realtime/manager.py:147-161 | so does the block of a subscription, which keeps everyone shown online connected |
| RealtimeHub.WebSocketManager.Connect | backend/app/realtime/manager.py:68-85 | adds the connection to the table and its user's index |
| RealtimeHub.WebSocketManager.Disconnect | backend/app/realtime/manager.py:87-140 | ends whatever sends fail; exactly this connection and the failed ones are gone, departures balance; everybody's entry in the workspace is announced as it is at that moment, the user of the closed connection offline |
| RealtimeHub.WebSocketManager.SubscribeWorkspace | backend/app/realtime/manager.py:142-178 | moves the connection, announces everybody's entry in the workspace, the newcomer online unless a connection of its there fails meanwhile, and tells the others but not the newcomer that it joined |
| RealtimeHub.WebSocketManager.SubscribeConversations | backend/app/realtime/manager.py:180-191 | record and index gain every conversation named |
| RealtimeHub.FollowingAdds | backend/app/realtime/manager.py:180-191 | exactly the conversations named join the connection's own, and nothing else changes but the index |
| RealtimeHub.WebSocketManager.SendToConnection | backend/app/realtime/manager.py:229-236 | one send to a live connection, closed if it fails |
| RealtimeHub.WebSocketManager.BroadcastToConnections | backend/app/realtime/manager.py:269-289 | every live target but the excluded one is sent the event exactly once, in order, before anything else; exactly those whose send fails, there or in what follows, are gone; what follows is presence and departures only |
| RealtimeHub.TargetsAre | backend/app/realtime/manager.py:278-283 | the targets of a broadcast are exactly the listed live connections other than the excluded one |
| RealtimeHub.WebSocketManager.BroadcastWorkspace | backend/app/realtime/manager.py:238-246 | the targets are exactly the workspace's connections |
| RealtimeHub.WebSocketManager.BroadcastConversation | backend/app/realtime/manager.py:248-259 | the targets are exactly the conversation's followers |
| RealtimeHub.WebSocketManager.BroadcastUser | backend/app/realtime/manager.py:261-267 | the targets are exactly the user's connections |
| RealtimeHub.WebSocketManager.BroadcastPresence | backend/app/realtime/manager.py:306-321 | every member is announced with the name and status its entry has at that moment, and the set of members stays the same while connections drop |
| RealtimeHub.AnnouncedAsIs | backend/app/realtime/manager.py:306-321 | a member none of whose connections leaves meanwhile is announced exactly as its entry was at the start |
| RealtimeHub.OnlineIsTrue | backend/app/realtime/manager.py:87-321 | whatever is closed and whatever fails, nobody is announced online who was not shown online, under that name, when it began |
| StableSort.SortSorts | backend/app/resource_sharing/strategy.py:41-50 | a sorted list is a rearrangement in ascending order of its key |
| StableSort.SortIsStable | backend/app/conversations/insights.py:588-589 | elements with equal keys keep their order |
| StableSort.SortFilter | backend/app/conversations/service.py:568-576 | filtering rows before the sort is filtering the sorted rows |

## Left out

- A plugin keeps one state file per home directory; the model keys plugins by resume key, so reconfiguring a home directory for another branch while it is bound is not covered.
- Concurrency inside one operation: database transactions run one after the other, and a rejected one restores the state it started from; awaits inside a websocket operation let no other operation in.
- Transcript text: the model reads and stores bytes, so decoding with replacement characters when a read cuts a multi-byte character is not covered, nor is a transcript file that is truncated.
- Provider calls, routing scores, streaming and encryption: a provider answers with token counts or fails, and routing returns some account of a member or none, both arbitrary.
- GatewayTheorems.WholeRequest: assumes that no member's monthly reset falls due during the request; the invariants of all runs (`LedgerRefinement`, `HardBudgetHolds`) do not.
- Gateway.AIGateway.ResolveBorrowedRouting: the account used may belong to another member than the one whose credits are reserved, as in the source; the model names both and claims nothing about their being the same.
- Lending preferences are fixed during a run, one row per user as the table's unique constraint demands; changing a limit below what is already lent is not modelled.
- Model-specific rates, percentages of workspace budgets, and the demonstration toolkit, which rewrites ledgers on purpose.
- Dates beyond year 9999 and midnight passing inside a request: today is one value per request.
- Access checks and the 404 answers for repositories, branches and conversations looked up before an operation; trimming of names; titles, notes and hashes.
- FamilyTotals.BuildBranchTree: the tree is a value that grows at its nodes, not shared objects in a table, so aliasing between a node and its parent's list is not represented; ahead/behind status and membership flags are not in it.
- Family overview fields other than the four sums: request count, providers, credits and latest activity.
- Metadata lists of a commit's detail view and a package's keywords, role counts and borrow records.
- ConversationRestore.RestoreMessages: dates and ids in a snapshot are values that parse or do not; writing a date as text and reading it back is taken to give the date.
- Deleting commits and packages under a branch history (the ids naming them become empty); pull packages, repository memory and Markdown rendering.
- Typing notices with their expiry timer, the heartbeat, and the text of websocket messages; the clock in presence entries.
