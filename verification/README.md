# Prompta: a verified model

Prompta dispatches prompts to ChatGPT from a durable queue and reads the answers back into a second
database. It must never send a prompt twice, never let too many chats run at once, and never mix up or lose
an answer. This project models the parts of Prompta those promises rest on and proves them, over every
input, every sequence of events and every interleaving the model allows.

SQL tables are sequences or maps of rows in key order; each transaction is one atomic step written as a row
update under the statement's own WHERE guard; the clock is a real number that never runs backwards. A crash
is a run in which the crashed worker has no further events. Store classes carry the tables as fields and
their methods are proved equal to the step functions; the theorems are about those step functions and the
runs built from them.

| file | what it holds |
|---|---|
| `Tables.dfy` | time, optional values, SQL-style update |
| `DeliveryQueue.dfy` | the fresh-chat queue: row updates, dispatch order, claims, the store |
| `Dispatch.dfy` | outcome classification, worker receipts, at-most-once over all runs |
| `LeaseRenewal.dfy` | the background lease renewer |
| `DisplayBlocks.dfy`, `BlockMerge.dfy` | canonical transcript blocks and their merge |
| `ToolCalls.dfy`, `ToolEvents.dfy` | saved tool calls and their merge; pairing invocations with results |
| `Captures.dfy`, `AnswerWriters.dfy`, `VisibleText.dfy`, `AnswerGrowth.dfy` | what a capture holds, how writers use it, and why visible answers only grow |
| `Responses.dfy` | saved responses of fresh chats and their capture leases |
| `Replies.dfy`, `ReplyRuns.dfy`, `ReplyStore.dfy` | manual replies: rows, whole runs, the store |
| `ChainAdvance.dfy` | when replacing a message id breaks the parent chain |
| `Fleet.dfy`, `Capacity.dfy`, `Overruns.dfy`, `Reconciliation.dfy` | queue, responses and replies as one system: the concurrency cap, the steps that can pass it, and the two-database reconciliation |
| `StoppedChats.dfy` | the closing transaction of a stop |
| `Followups.dfy` | follow-ups merged into an unclaimed prompt |
| `SseEvents.dfy`, `SseStream.dfy`, `OwnedStream.dfy`, `StreamParsing.dfy` | parsing one owned response stream, from network events to the snapshot |
| `SlotProjection.dfy`, `RateLimit.dfy`, `Scheduler.dfy` | timing: queue estimates, backoff, recurring jobs |

Some promises turned out not to hold on every input. For each, the model keeps the code's behaviour, one lemma
gives an input or a run on which the promise fails, and another states exactly when it holds:

- the visible answer can shrink on a legacy row whose duplicated text is spelled out again
  (`VisibleText.RevivalExample`; `VisibleText.ShortensIff`);
- one merge can blank a saved tool result, arguments or error, or make a finished call run again, when a heading
  is upgraded to an incoming call (`ToolCalls.DisplacementExample`; `ToolCalls.LossesIff`);
- a replayed invocation can reopen a finished call once another one relabelled it as observed
  (`ToolEvents.ReopenExample`; `ToolEvents.StaysAnsweredIff`);
- the concurrency cap can be passed by an acceptance saved after the lease was swept
  (`Overruns.LateAcceptanceExample`; `Overruns.AcceptanceOverrunsIff` and
  `Overruns.ObservedAcceptanceOverrunsIff`), and by historical progress on an expired capture of a response
  (`Overruns.RevivalExample`; `Overruns.RevivalOverrunsIff`) or of a reply (`Overruns.ReplyRevivalExample`;
  `Overruns.ReplyRevivalOverrunsIff`);
- replacing a bound message id breaks the parent chain when a later turn already answers it, for a reply
  (`ChainAdvance.AdvanceExample`; `ChainAdvance.AdvanceBreaksChainIff`) and for the original
  (`ChainAdvance.OriginalAdvanceExample`; `ChainAdvance.OriginalAdvanceBreaksChainIff`);
- a stop leaves a reply whose preflight failed alone, so an explicit click can still send it
  (`StoppedChats.Resumes`; `StoppedChats.ResumesIff`), and it leaves an original whose outcome is unknown alone, so
  a capture can still start on it (`StoppedChats.AcceptCaptures`; `StoppedChats.CaptureResumesIff`);
- reading a snapshot of an oversized answer stops the parser (`SseStream.PollExample`;
  `SseStream.PollingIsTransparentIff`);
- a chunk too large to hold before a stream is armed is skipped, and bytes past the cap are cut
  (`OwnedStream.OversizedChunkIsSkipped`; `OwnedStream.EveryByteOnceIff`);
- a backoff deadline shrinks when the reset forgets a longer one (`RateLimit.ShrinkExample`;
  `RateLimit.DeadlineShrinksIff`), and a restart that lands the last limit exactly on zero changes later waits
  (`RateLimit.ZeroExample`; `RateLimit.RestoreIsAlikeIff`);
- two scheduled rows can be less than an interval apart when a worker ends a delivery between the
  reconciliation and the enqueueing of one tick that then crashes (`Scheduler.RaceExample`;
  `Scheduler.CrashIsSafeIff`).

Where the code and the documentation differ the model follows the code: `docs/service-architecture.md` gives
90 seconds as the global pace of history reads and the code uses another interval, and a clean history read
does not extend a capture's deadline although the document speaks of a refreshed idle window.

## Model

| member | source | states |
|---|---|---|
| DeliveryQueue.NextIsExact | src/delivery_queue.py:617-627 | the claimed row is the unique least claimable one in priority, dispatch class and sequence order, and exists whenever any row is claimable |
| DeliveryQueue.ApplyKeepsRows | src/delivery_queue.py:46-788 | every queue operation keeps ids unique, owners on running rows only, identity and order of rows, and moves statuses only along the allowed graph; the prompt changes only while untouched |
| DeliveryQueue.ClaimEffect | src/delivery_queue.py:605-646 | a claim runs exactly the selected waiting row; every other row only expires |
| DeliveryQueue.OnlyClaimsRun | src/delivery_state.py:20-30 | a row starts running only through a claim of that claimable row, for the claiming owner |
| DeliveryQueue.DeliveryQueueStore.EnqueueIdempotent | src/delivery_queue.py:395-456 | one row per send id and client id; a repeated request returns the saved row and whether it was created |
| DeliveryQueue.DeliveryQueueStore.ExpireLeases | src/delivery_queue.py:68-91 | exactly the expired running rows are quarantined and reported |
| DeliveryQueue.DeliveryQueueStore.SelectNext | src/delivery_queue.py:617-627 | the selection loop finds the least claimable row |
| DeliveryQueue.DeliveryQueueStore.ClaimNext | src/delivery_queue.py:591-649 | sweep, slot check and claim happen together; a row is returned exactly when a slot and a claimable row exist |
| DeliveryQueue.DeliveryQueueStore.RenewLease | src/delivery_queue.py:651-666 | only a live lease of this owner is extended |
| DeliveryQueue.DeliveryQueueStore.RetryClaim | src/delivery_queue.py:668-703 | only a live lease of this owner is handed back for a later attempt |
| DeliveryQueue.DeliveryQueueStore.CompleteClaim | src/delivery_queue.py:705-747 | success is reported exactly when the row is succeeded afterwards |
| DeliveryQueue.DeliveryQueueStore.FailClaim | src/delivery_queue.py:749-788 | only a live lease ends in a terminal failure |
| DeliveryQueue.DeliveryQueueStore.CancelPending | src/delivery_queue.py:520-546 | only a delivery no worker holds is withdrawn |
| DeliveryQueue.DeliveryQueueStore.ReconcileAccepted | src/delivery_queue.py:133-154 | exactly the quarantined rows with a confirmed acceptance become succeeded, every other row is untouched, and no row it changes can be claimed again |
| Dispatch.ReplayIsSafe | src/delivery_browser.py:263-413 | a sender reports a replayable outcome only when Send was not reached or the service turned the prompt down |
| Dispatch.ReceiptForIsReplayable | src/delivery_worker.py:263-368 | the worker hands a delivery back only for a replayable outcome |
| Dispatch.WriteReceipt | src/delivery_worker.py:251-382 | the worker's last step writes exactly the receipt the outcome calls for, under a live lease |
| Dispatch.AtMostOnce | src/delivery_worker.py:202-382 | over every interleaving of workers, crashes, expiries, renewals and retries, an attempt followed by another can no longer send, and never did unless it was turned down |
| Dispatch.NeverSubmittedTwice | src/delivery_browser.py:915-1162 | no two attempts for one send id may both have submitted its prompt |
| Dispatch.ClaimsBalance | src/delivery_queue.py:591-703 | claims minus committed retry receipts is 0 or 1, and 0 while the delivery waits |
| Dispatch.NeverClaimedAgain | src/delivery_queue.py:68-91 | an expired or otherwise ended delivery is never claimed again in any continuation |
| LeaseRenewal.NeverWatchesAnExpiredLease | src/delivery_worker.py:122-160 | while storage calls are prompt, the renewer watches a live lease, gives it up before it expires, or has been refused |
| LeaseRenewal.RenewUntilDone | src/delivery_worker.py:129-160 | the renewal loop flags the lease as lost exactly when the turn-by-turn specification stops watching it |
| DisplayBlocks.NormalizeIsCanonical | src/display_blocks_store.py:61-99 | normalization yields bounded valid blocks, no two of them progressive versions of one another |
| DisplayBlocks.CanonicalIffFixed | src/display_blocks_store.py:31-99 | a list is canonical exactly when normalizing its stored form gives it back |
| DisplayBlocks.NormalizeTwice | src/display_blocks_store.py:61-109 | normalizing again, through the stored form, changes nothing |
| DisplayBlocks.CollapseProgressiveVersions | src/display_blocks_store.py:31-58 | the in-place collapse computes the block-by-block absorption |
| DisplayBlocks.NormalizeDisplayBlocks | src/display_blocks_store.py:61-99 | the validation and collapse loops compute the canonical form |
| DisplayBlocks.AbsorbBlock | src/display_blocks_store.py:36-57 | a longer rendering replaces the first version it re-renders and deletes the others; a shorter one is dropped |
| DisplayBlocks.DeleteMatches | src/display_blocks_store.py:48-53 | deleting matches from the last to the first removes exactly the matching blocks |
| BlockMerge.MergeGrows | src/display_blocks_store.py:145-238 | before its final normalization the merge grows slot by slot, keeping kinds, ids and first sight, and keeps ids unique |
| BlockMerge.MergeOneCovers | src/display_blocks_store.py:155-236 | unless the list is full, every incoming block ends up covered by a slot |
| BlockMerge.FreeIdExists | src/display_blocks_store.py:224-232 | under 256 blocks a numbered id is always free |
| BlockMerge.OnlyProseIsRenamed | src/display_blocks_store.py:160-174 | a tool marker with a used id is matched, so only prose is renamed |
| BlockMerge.MergeResult | src/display_blocks_store.py:145-238 | the stored merge is canonical, keeps every earlier tool marker first and in order, and keeps ids unique |
| BlockMerge.ChooseSlot | src/display_blocks_store.py:158-216 | the three scans pick the stable id, the identical prose, the longest extended slot, or the last one it shortens |
| BlockMerge.MergeBlock | src/display_blocks_store.py:155-236 | one incoming block is edited into the list as specified |
| BlockMerge.MergeDisplayBlocks | src/display_blocks_store.py:145-238 | the whole merge loop computes the specified merge |
| ToolCalls.MergeLosesNoInvocation | src/tool_call_store.py:33-94 | within the caps, the caps included, every saved and incoming stream invocation survives the merge |
| ToolCalls.MergeKeepsAllIff | src/tool_call_store.py:74-93 | before the size bound every id asked for is kept exactly when there are no more than 128 |
| ToolCalls.MergeIsUnique | src/tool_call_store.py:56-94 | merged ids are unique |
| ToolCalls.MergeKeepsInvocation | src/tool_call_store.py:74-93 | unless its snapshot is displaced, a saved invocation never loses a filled field and a finished one never runs again in one merge |
| ToolCalls.DisplacedEntry | src/tool_call_store.py:56-70 | a displaced entry says exactly what the incoming snapshot says |
| ToolCalls.LossesIff | src/tool_call_store.py:56-93 | one merge blanks a saved result, arguments or error exactly when the entry is displaced by incoming snapshots without that field, and makes a finished call run again exactly when it is displaced by one that says running |
| ToolCalls.DisplacementExample | src/tool_call_store.py:56-70 | a finished fetch with a result becomes a running call without one |
| ToolCalls.StoreToolCalls | src/tool_call_store.py:33-94 | the upgrade, index and merge loops compute the specified merge |
| ToolCalls.UpgradeHeadings | src/tool_call_store.py:55-70 | the heading loop upgrades in place and keeps the first entry of each id |
| VisibleText.ShortensIff | src/display_blocks_store.py:119-142 | a writer shortens the visible answer exactly when the capture, without blocks of its own, spells out the duplicate of a legacy row and is the text that writer reads |
| VisibleText.RevivalExample | src/response_store.py:299-373 | a one-character answer disappears behind invalid legacy blocks |
| VisibleText.VisibleNeverShrinks | src/response_store.py:299-373 | no sequence of the writers shortens the visible answer of a row this code wrote |
| VisibleText.LegacyNeverShrinks | src/reply_contracts.py:895-919 | nor of a legacy row, as long as no event revives its duplicate |
| VisibleText.UnspelledNeverRevives | src/response_store.py:299-373 | a run none of whose captures spells out the row's duplicate never revives it |
| VisibleText.ApplyKeepsCurrent | src/reply_contracts.py:669-690 | every writer keeps blocks canonical and text bounded |
| VisibleText.CanonicalShowsText | src/display_blocks_store.py:119-142 | canonical rows show their saved text |
| AnswerGrowth.ResponsesNeverShrink | src/response_store.py:159-974 | over any run of all response operations no visible answer gets shorter |
| AnswerGrowth.RepliesNeverShrink | src/reply_contracts.py:89-933 | over any run of all reply operations no visible answer gets shorter |
| Responses.RunEvolves | src/response_store.py:159-484 | over every run a conversation id is written once, final rows keep status and content, acceptance receipts stay, and owners exist only during capture |
| Responses.StaleOwnerChangesNothing | src/response_store.py:231-407 | a call by another owner changes nothing |
| Responses.ExpiredLeaseChangesNothing | src/response_store.py:265-392 | past the deadline no write, binding or renewal counts |
| Responses.MessageIdIsStable | src/response_store.py:925-949 | a bound message id changes only by a verified advance |
| Responses.ConversationIdIsStable | src/response_store.py:247-263 | a bound conversation id is kept by every operation |
| Responses.ReceiptIsPermanent | src/response_store.py:173-229 | an acceptance receipt never disappears |
| Responses.AnswerFollowsWriters | src/response_store.py:265-375 | the answer columns change only through the modelled writers or first acceptance |
| Responses.ResponseStore.Accept | src/response_store.py:173-185 | a capture starts exactly from an acceptable status with a future deadline |
| Responses.ResponseStore.BindConversationRoute | src/response_store.py:247-263 | only the live owner binds, and only a missing or equal id |
| Responses.ResponseStore.WriteSnapshot | src/response_store.py:299-373 | shorter text keeps the saved one, a repeat writes nothing, completion releases the lease |
| Responses.ResponseStore.Write | src/response_store.py:265-375 | stale owners and foreign snapshots change nothing |
| Responses.ResponseStore.RenewCaptureDeadline | src/response_store.py:377-392 | only a live lease is extended, and only forwards |
| Responses.ResponseStore.PrepareDeploymentRecovery | src/response_store.py:426-459 | live owners are detached with at most the idle budget; nothing is revived |
| Responses.ResponseStore.RecoverHistoricalResponse | src/response_store.py:905-974 | a page read is taken exactly for a matching ownerless row it does not truncate |
| Replies.RowSteps | src/reply_contracts.py:468-933 | one row operation keeps identity, receipts and settled turns, and a claim is the only way out of the unclaimed statuses |
| ReplyRuns.ApplyKeeps | src/reply_contracts.py:121-933 | table operations keep rows in place; only the walk binds a queued row |
| ReplyRuns.WalkIsExact | src/reply_contracts.py:330-354 | the lineage walk succeeds exactly on branches whose turns are all settled and attached in order |
| ReplyRuns.BindsTheTip | src/reply_contracts.py:374-400 | unconditionally, only the first waiting turn of a chain linked at decision time is bound, to its tip |
| ReplyRuns.BranchShape | src/reply_contracts.py:121-169 | every reachable chat is settled turns, at most one unsettled, then queued ones, with unique ids |
| ReplyRuns.OneInFlight | src/reply_contracts.py:285-354 | two unsettled turns of a chat that left the queue are the same row |
| ReplyRuns.NeverClickedTwice | src/manual_reply_dispatch.py:484-502 | no reply id is claimed, hence clicked, by two executions |
| ReplyRuns.ParentChain | src/reply_contracts.py:508-593 | without message-id advance, every bound reply answers its predecessor in its original's conversation |
| ChainAdvance.AdvanceBreaksChainIff | src/reply_contracts.py:850-933 | a page read of a reply keeps the parent chain exactly unless it replaces a bound message id that a later turn already answers |
| ChainAdvance.OriginalAdvanceBreaksChainIff | src/response_store.py:925-949 | a write to an original keeps the parent chain exactly unless it replaces a bound message id that some reply already answers |
| ChainAdvance.AdvanceExample | src/reply_contracts.py:873-876 | a run from a saved answer after which the second reply answers a message id that is gone |
| ChainAdvance.OriginalAdvanceExample | src/response_store.py:925-929 | a run after which the first reply does |
| ReplyStore.ManualReplyStore.WalkBranch | src/reply_contracts.py:149-158 | the loop over earlier turns computes the walk and names the first blocking turn |
| ReplyStore.ManualReplyStore.Prepare | src/reply_contracts.py:121-169 | an intent is saved exactly on the tip of a settled branch, or found again; each of the six refusals is given exactly for its cause |
| ReplyStore.ManualReplyStore.QueueExplicitSend | src/reply_contracts.py:171-194 | the same immutable intent is prepared, rearmed and authorized |
| ReplyStore.ManualReplyStore.ReadyQueuedIntent | src/reply_contracts.py:296-354 | the candidate loop finds the first ready row |
| ReplyStore.ManualReplyStore.NextQueuedIntent | src/reply_contracts.py:374-400 | an intent is handed out exactly when some row is ready, bound to its predecessor |
| ReplyStore.ManualReplyStore.ClaimDispatch | src/reply_contracts.py:595-605 | the dispatch claim succeeds exactly once, from prepared |
| ReplyStore.ManualReplyStore.AcknowledgeSubmission | src/reply_contracts.py:607-628 | submission is acknowledged only by the live dispatching owner on the same branch |
| ReplyStore.ManualReplyStore.Accept | src/reply_contracts.py:630-649 | a new message id is bound, never the parent's |
| ReplyStore.ManualReplyStore.ObserveCapture | src/reply_contracts.py:651-691 | a capture is taken exactly for the owner, branch and lease it belongs to |
| ReplyStore.ManualReplyStore.FinishDispatch | src/reply_contracts.py:731-747 | an unconfirmed dispatch is quarantined, anything later interrupted |
| ReplyStore.ManualReplyStore.RecoverOrphanReplies | src/reply_contracts.py:749-769 | afterwards every reply in flight has a live, unexpired owner |
| ReplyStore.ManualReplyStore.RecoverReplyParent | src/reply_contracts.py:537-593 | only the verified last unqueued turn has its missing message bound |
| Capacity.StepKeepsCap | src/delivery_queue.py:313-340 | a guarded step never passes the cap |
| Capacity.CapHolds | src/delivery_queue.py:605-646 | over every guarded run running deliveries, live captures and live replies together never exceed the cap |
| Capacity.RespondOpensNothing | src/response_store.py:486-507 | response writers open no slot unless they accept late or revive |
| Capacity.ReplyOpensNothing | src/reply_contracts.py:717-769 | reply writers other than the claim open no slot unless they revive |
| Overruns.AcceptanceOverrunsIff | src/response_store.py:173-185 | at the cap, an acceptance passes it exactly when the send holds no slot and the store takes the receipt |
| Overruns.ObservedAcceptanceOverrunsIff | src/response_store.py:187-229 | at the cap, an acceptance proved by an owned page passes it exactly when the send holds no slot, has no receipt or identity yet, and the page shows no finished answer |
| Overruns.RevivalOverrunsIff | src/response_store.py:905-974 | at the cap, historical progress on a response passes it exactly on a capture that holds no slot, when the page read is its own, is not a bare truncation, brings text, tools or blocks not yet saved, and does not complete it |
| Overruns.ReplyRevivalOverrunsIff | src/reply_contracts.py:850-933 | the same for a reply, attached to its verified parent |
| Overruns.LateAcceptanceExample | src/response_store.py:178-184 | a run from an empty start with a cap of one ends with more than one occupied slot |
| Overruns.RevivalExample | src/response_store.py:966-971 | so does a run in which a detached capture expires and a page read then finds its first words |
| Overruns.ReplyRevivalExample | src/reply_contracts.py:926-931 | so does a run in which that happens to a reply |
| Reconciliation.SucceedsOnlyWithReceipt | src/delivery_queue.py:93-156 | in every continuation an ended delivery stays ended and unclaimable, and becomes succeeded only on a durable acceptance receipt |
| Reconciliation.ReconcilesExactly | src/delivery_queue.py:93-156 | one undisturbed reconciliation succeeds exactly the quarantined deliveries whose receipt confirms them |
| Reconciliation.RelabelsOnlyUnaccepted | src/delivery_queue.py:119-126 | a response relabelled as unknown was never accepted |
| StoppedChats.StopIsFinal | src/stop_jobs.py:230-265 | after a stop, in every continuation, waiting replies stay withdrawn, unfinished ones stay stopped, and no reply's answer changes |
| StoppedChats.ResumesIff | src/stop_jobs.py:247-265 | after a stop, some continuation dispatches a reply of the chat exactly when its preflight had failed |
| StoppedChats.CaptureResumesIff | src/stop_jobs.py:230-246 | after a stop, some continuation captures the chat's original answer exactly when its outcome was unknown |
| StoppedChats.StopFreesItsSlot | src/stop_jobs.py:230-265 | a stop gives back this chat's slot and no other chat's |
| StoppedChats.NoWriterAssignsPartial | src/response_store.py:434-438 | status partial, which counts as live, is never assigned |
| Followups.PromptIsConserved | src/reply_contracts.py:239-283 | a delivery's prompt is the original followed by every merged follow-up once, in order, and equals the response's prompt |
| Followups.ReceiptsCarryOriginal | src/reply_contracts.py:254-278 | in every reachable state every merged receipt carries the digest of the prompt its delivery was enqueued with |
| Followups.ClaimFreezesPrompt | src/reply_contracts.py:261-268 | once touched, a delivery's prompt never changes again |
| Followups.RetryRecognisedIff | src/delivery_queue.py:484-493 | a retried request is acknowledged exactly for the original or the current combined prompt |
| Followups.ChatStore.QueueFollowup | src/reply_contracts.py:196-294 | merge or queue, all in one transaction; repeats are acknowledged, reused keys and malformed identifiers refused |
| Followups.ChatStore.AcknowledgeRetry | src/delivery_queue.py:484-499 | a retry is acknowledged exactly for a recognised prompt with the same images and client |
| SseEvents.RunIsLater | src/response_capture.py:227-239 | for every event sequence the first conversation, parent and final message id stay, ambiguity is absorbing, and the answer is then frozen |
| SseEvents.AnswerHasOneAuthor | src/response_capture.py:318-414 | every event that changes the answer writes one final assistant node, neither tool, reasoning, private nor hidden, whose id is the final message id |
| SseStream.SplitChunk | src/response_capture.py:186-198 | splitting a chunk anywhere, also inside CR LF or across the cap, changes nothing |
| SseStream.ChunkIndependence | src/response_capture.py:186-225 | any split of a stream gives the snapshot of one pass |
| SseStream.LineEndings | src/response_capture.py:195-210 | lines mean the same with LF and with CR LF |
| SseStream.PollExample | src/response_capture.py:454-457 | reading the snapshot of an oversized answer loses the next event |
| SseStream.PollingIsTransparentIff | src/response_capture.py:451-484 | over any chunks and readings, readings leave what is parsed unchanged exactly when none finds an answer past its cap while the parser takes input |
| SseStream.AmbiguityHides | src/response_capture.py:451-453 | after ambiguity every later snapshot is empty |
| SseStream.IdentityIsStable | src/response_capture.py:227-239 | identities reported once are reported ever after |
| SseStream.SseFraming.FeedChunk | src/response_capture.py:186-198 | the search for newlines has the effect of reading character by character |
| SseStream.SseFraming.DrainLines | src/response_capture.py:195-198 | every complete line is handled and the rest kept |
| SseStream.SseFraming.FinishStream | src/response_capture.py:200-204 | the last line and event are flushed |
| SseStream.SseFraming.TakeSnapshot | src/response_capture.py:451-484 | the snapshot reports the answer and its status, and marks only oversized ones |
| OwnedStream.EveryByteOnceIff | src/owned_tool_stream.py:117-210 | any interleaving of one arming, one finish and the data before it flushes once, having fed every decoded byte once in arrival order exactly when they fit the cap and no chunk with content was too large to hold |
| OwnedStream.EveryByteOnce | src/owned_tool_stream.py:117-162 | within both limits, the caps included, every byte is fed once in order |
| OwnedStream.ArmingTimeIsIrrelevant | src/owned_tool_stream.py:117-149 | the moment of arming does not matter |
| OwnedStream.FlushedForGood | src/owned_tool_stream.py:205-210 | once a run has flushed a stream, no continuation without a new request changes what the parser was given |
| OwnedStream.FedWithinCap | src/owned_tool_stream.py:151-162 | in every reachable state no stream has been fed more than the decoded cap |
| OwnedStream.OversizedChunkIsSkipped | src/owned_tool_stream.py:147-149 | an oversized chunk is skipped and a later one still fed |
| OwnedStream.OwnedToolStream.ArmStream | src/owned_tool_stream.py:117-136 | arming feeds the buffered and pending chunks of this stream only; a refusal forgets it |
| OwnedStream.OwnedToolStream.OnData | src/owned_tool_stream.py:138-149 | data is fed, held or ignored, for this stream only |
| OwnedStream.OwnedToolStream.OnFinished | src/owned_tool_stream.py:195-203 | finishing flushes an armed stream |
| StreamParsing.AnyInterleavingParsesAlike | src/owned_tool_stream.py:117-210 | any interleaving within the limits, read after every piece, gives the snapshot of one pass over the decoded text of everything that arrived |
| StreamParsing.PiecesAreText | src/owned_tool_stream.py:151-162 | with any incremental text decoder, where the bytes are cut does not matter to the text |
| ToolEvents.ObserveAllIsValid | src/tool_events.py:168-318 | for every node sequence calls are unique and bounded and the pending list holds exactly the running calls, once each |
| ToolEvents.CallsOnlyGrow | src/tool_events.py:239-249 | over every node sequence each call keeps its place, id and first sight, and arguments it has are never blanked |
| ToolEvents.ResultAnswersOneCall | src/tool_events.py:259-318 | a result changes exactly the call it is matched to, or nothing |
| ToolEvents.AmbiguousResultIsIgnored | src/tool_events.py:283-298 | two equally fitting pending calls keep a result open |
| ToolEvents.RecordedResultIsSticky | src/tool_events.py:260-300 | a recorded result id answers the same call for ever |
| ToolEvents.StaysAnsweredIff | src/tool_events.py:236-238 | a finished call stays finished throughout a node sequence exactly when no node relabels it as observed |
| ToolEvents.ReopenExample | src/tool_events.py:230-238 | two replayed invocations, one observed and then one running, make any finished call run again |
| ToolEvents.ToolEventCollector.ObserveInvocation | src/tool_events.py:201-257 | an invocation snapshot updates its entry and the pending list |
| ToolEvents.ToolEventCollector.ObserveResult | src/tool_events.py:259-318 | a result is matched and recorded as specified |
| SlotProjection.ScheduleIsExact | src/queue_eta.py:20-36 | each projected start is the first moment, not before its predecessor's, with a free slot, even when more than the cap are active at first |
| SlotProjection.OccupancyNeverPassesCap | src/queue_eta.py:29-36 | from the first start on occupancy never passes the cap |
| SlotProjection.SlotProjector.EnqueueJob | src/queue_eta.py:29-36 | the pop and push loop computes that start and reports it in whole seconds, rounded up |
| RateLimit.TransitionBounds | src/rate_limit.py:161-192 | a limit leaves at least the capped exponential and the server's wait, and at most that plus the jitter bound, or the older deadline |
| RateLimit.DeadlineShrinksIff | src/rate_limit.py:170-187 | a deadline is pulled in exactly when the reset forgets a longer one |
| RateLimit.ShrinkExample | src/rate_limit.py:170-175 | a wait of two hours is forgotten by the next limit half an hour later |
| RateLimit.DeadlinesGrow | src/rate_limit.py:161-192 | while limits come less than the reset apart no deadline is pulled in |
| RateLimit.RestoreIsAlikeIff | src/rate_limit.py:125-158 | restoring after any downtime gives a state like the one that waited, exactly when neither stored nor restored moment is the zero that stands for never, or nothing is left to remember |
| RateLimit.AlikeTransitions | src/rate_limit.py:161-192 | alike states take the same transition and stay alike |
| RateLimit.RestartsAreInvisible | src/rate_limit.py:121-192 | over every run the process that restarts reports the waits of the one that did not |
| RateLimit.ZeroExample | src/rate_limit.py:170-175 | a run whose restart lands the last limit on zero reports a wait of 600 seconds where the lasting process reports 300 |
| RateLimit.RateLimitBackoff.RecordLimit | src/rate_limit.py:241-252 | recording a limit takes the specified transition and returns its wait |
| RateLimit.RateLimitBackoff.Save | src/rate_limit.py:218-226 | the saved form holds the remaining wait and age in wall time |
| RateLimit.RateLimitBackoff.Load | src/rate_limit.py:228-239 | a saved backoff resumes with what is left of it |
| Scheduler.OccurrencesAreSpaced | src/scheduler_service.py:179-319 | over any run of careful crashes occurrence markers strictly increase and rows are at least an interval apart and after any earlier manual fire |
| Scheduler.CrashIsSafeIff | src/scheduler_service.py:202-223 | a crash between row and metadata keeps every careful continuation spaced exactly when no ended delivery is unreconciled, or it ended or a manual fire came no earlier than now, or it names the new row again |
| Scheduler.UncarefulBreaksSpacing | src/scheduler_policy.py:238-275 | after any other crash one reconciliation and one tick place two rows less than an interval apart |
| Scheduler.CrashAddsNoSecondRow | src/scheduler_service.py:202-223 | after such a crash, in every continuation up to the next write of the schedule, an enqueue adds no second row and records the one that is there |
| Scheduler.TickIsCareful | src/scheduler_service.py:309-319 | a tick that reconciles first only crashes carefully |
| Scheduler.RaceExample | src/scheduler_service.py:283-319 | a run in which two rows are less than an interval apart |
| Scheduler.StepKeepsInv | src/scheduler_policy.py:95-154 | every careful step keeps the next occurrence at or after the newest row's interval |
| Scheduler.SchedulerProducer.ReconcileTerminal | src/scheduler_policy.py:238-292 | a finished delivery moves the schedule on, once |
| Scheduler.SchedulerProducer.EnqueueIfDue | src/scheduler_service.py:179-228 | the due occurrence becomes one row, which is then recorded |
| Scheduler.SchedulerProducer.FireNow | src/manual_fire.py:10-45 | a manual fire restarts the countdown and withdraws a delivery no worker holds |
| Scheduler.SchedulerProducer.Tick | src/scheduler_service.py:309-319 | one tick reconciles, then enqueues |

## Left out

- Browser automation, page scripts, tab ownership and connector approvals: a send is a nondeterministic outcome with a flag saying whether the Send control was reached.
- The connector-approval sender without a send id can report an unavailable backend while its thread still lives; the worker always passes a send id, so that path is not part of this model.
- SQLite, SQLAlchemy, migrations and file modes: transactions are atomic and serialized, and statements that touch both databases without a common transaction are separate steps.
- `DeliveryQueueStore.upsert` overwrites any status and has no place in the step relation.
- Fire-and-forget sending drops captures from the slot count; the cap is stated for the capturing mode.
- HTTP routes, the command line, logging, health beats, image files, configuration, pins, read markers, search and pagination.
- JSON decoding, regular expressions, redaction, base64, SHA-256 and text similarity are uninterpreted functions; the digest is injective and never empty where a lemma says so, and similarity is symmetric on texts of equal length.
- Floating point is exact real arithmetic, so a marker is itself and not its six-decimal text, and two clock readings may be compared exactly.
- Queue order ties are broken by position, as the sequence column does; reply order is insertion order, which assumes creation times agree with it.
- The prefix test of the slot query and of dispatch priority is case-sensitive here; SQL's LIKE is not.
- Digits in the source's patterns are any Unicode digits; here they are ASCII.
- DeliveryQueue.ApplyKeepsRows: covers every operation of the table but `upsert`.
- DeliveryQueue.DeliveryQueueStore.EnqueueIdempotent: the response row written afterwards in the other database is a separate step, the response operation Ensure.
- DeliveryQueue.DeliveryQueueStore.ClaimNext: marking the responses of swept deliveries unavailable is a separate step in the other database.
- DeliveryQueue.DeliveryQueueStore.FailClaim: its projection onto the response row is a separate step, the response operation MarkUnavailable or MarkUncertain.
- DeliveryQueue.DeliveryQueueStore.CancelPending: its projection onto the response row is a separate step, the response operation MarkUnavailable.
- Responses.ResponseStore.PrepareDeploymentRecovery: the reply half of the same step is the reply operation DetachAll.
- RateLimit.RateLimitBackoff.RecordLimit: the jitter is handed in as an amount of seconds.
- RateLimit.RestartsAreInvisible: covers runs whose restarts avoid the zero that RestoreIsAlikeIff characterises.
- Scheduler.SchedulerProducer.FireNow: the manual chat it enqueues is the history entry Fired; its row belongs to the queue model.
- Scheduler.SchedulerProducer.Tick: one job instead of the job list.
- RateLimit.Transition: the random jitter is an amount drawn in seconds and clamped to its bound instead of a fraction multiplied by it.
- SlotProjection.SlotProjector.EnqueueJob: the heap is read as a sorted list, so the order in which equal times are stored is not captured, and remaining times are not negative, as the estimator computes them.
- Scheduler.OccurrencesAreSpaced: covers jobs with a positive interval; daily and one-time jobs, mutex groups, edits of a job and its removal are not modelled, and each scheduler action is atomic towards manual fires.
- ToolEvents.ToolEventCollector.ObserveInvocation: recognising an invocation inside a message and naming its connector are taken as given.
- SseStream.SseFraming.TakeSnapshot: tool summaries are the observed nodes, and block ids are the message ids they are digests of.
- Capacity.CapHolds: holds for runs without late acceptance and without historical progress on expired captures, the two steps its companions characterise.
- Recovery scheduling, pacing and metrics for historical reads.
- Deployment scripts and watchdogs: only the detachment of live captures is a step.
