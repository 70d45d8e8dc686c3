# RangerAI: verified models of its stateful parts

This Dafny 4.11 project models the small stateful machines of RangerAI and proves what
each is relied upon for. `dafny verify dfyconfig.toml` checks all of it.

- **Bounded and expiring stores.** The worker's TTL cache (`TtlMap`, `TtlRefinement`,
  `TtlCleanup`, on the insertion-ordered maps of `OrderedMaps`), the fixed-window rate limiter
  (`RateLimit`), the debug collector's buffers and value sanitizer (`DebugCollector`,
  `SanitizeValue`) and the trimmed log files (`LogFile`).
- **The streaming pipeline.** The line filter (`StreamFilter`), the word buffer with its frame
  loop (`StreamBuffer`, `StreamBufferRuns`), the event reducer with the message store it writes
  (`EventReducer`), the chat store that joins them (`ChatStream`), the way from a question to its
  answer (`Answers`) and what polling does to a stream under way (`Replay`).
- **Connection and recovery.** Socket reconnection (`WebSocketManager`, `WebSocketSafety`), the
  polling cursor (`HttpPolling`), the stall watchdog (`StreamWatchdog`), the offline queue with
  deferred recovery (`OfflineQueue`), what of it reaches a socket (`Delivery`)
  and retry with backoff (`Retry`).

`Lines`, `Text`, `Rounding` and `Wrappers` hold string splitting, JavaScript strings as UTF-16
code units, `Math.round`, and the optional value.

Objects that the source updates in place are classes with the same fields. Each method is
proved equal to a function on the state, and the lemmas are about those functions over whole
runs. Clocks, random numbers, server answers and the success of `new WebSocket` are parameters.
Answers to pending requests come as steps of their own, in any order and interleaving.

## Where the code does not do what it is for

Each of these is proved; where the code meets the property some of the time, with the exact
condition under which it does.

- A TTL map exceeds its size if and only if its oldest entry sits under the empty key when room
  is needed (`SetKeepsBoundIff`, `EmptyKeyOverflows`).
- It evicts by write time, not by use as the file's header says: `ReadDoesNotProtect` is the
  input, and over settled runs no read has any say in it (`CleanupInvisible`).
- The timing of its cleanup shows in one call if and only if the call deletes an expired key, or
  sets one with a live one behind it (`CallShowsCleanupIff`, `SetCommutesIff`,
  `DeleteAnswersIff`; inputs in `OrderShowsCleanup` and `TieShowsCleanup`). In runs without such a
  call it shows nowhere, order and ties included (`CleanupInvisible`); calling `has` first is
  enough (`ReadFirstSettles`).
- A client that waits the advertised `retryAfter` is still refused when the wait ends on the
  millisecond of the reset (`RetryAfterHelpsIff`).
- A stream filtered in two parts comes out as filtered at once if and only if the cut is harmless
  to the line it falls in (`CutLawIff`; `ChunkingLawIff` for cuts behind a line break). A directive
  cut in two passes (`CutDirectivePasses`).
- The frame loop does not idle on an empty buffer, although the header says so (`LoopNeverIdles`).
- `streamEnd` adds no message if and only if the text repeats the last one, which it also takes
  for granted when one of two long texts contains how the other begins. So an answer that is sent
  again and goes on is cut back to what had been committed (`LongerTextIsDropped`,
  `ResentTextIsDropped`, `RestartThenWholeIsDropped`). `SurvivesIff` names every event that loses
  text; behind a message of the user's the duplicate test cannot (`AnswerIsCommitted`).
- `sendMessage` clears the store but not the buffer, so the answer's `stream_start` is refused if and
  only if text was left there and a due frame comes first (`StartIsRefusedIff`); that text is then
  committed as the beginning of the answer (`LeftoverSpoilsAnswer`).
- Status idle commits what was shown if and only if the last message, at that moment, is the user's
  (`IdleCommitsShownIff`); a system note that comes after the question is enough to lose the answer
  (`IdleCommitsAnswerIff`).
- `error` and `task_timeout` commit everything shown if and only if the buffer is empty and the text
  repeats nothing (`FailureCommitsAllIff`). What stays in the buffer reaches the store outside any
  stream and makes later `stream_start` events be refused (`LeftoverRefusesStarts`). A second
  `stream_start` drops text if and only if all of it is still in the buffer (`SecondStartLosesIff`).
- Polling that takes over a stream starts at the beginning of the log, so the text shown comes again
  (`ReplayRepeats`), and the doubled text wins over the server's if and only if any of it had
  reached the store (`ServerTextWinsIff`).
- The watchdog's fallback commits all that was shown if and only if none of it is still in the
  stream buffer and it repeats nothing (`StallIsResolved`): a visible tab has drained it by then
  (`VisibleTabCommitsAll`), a hidden one has not (`HiddenTabLosesText`).
- An event is delivered twice if and only if an answer that is not empty comes to a poll whose cursor
  has gone stale (`DeliveredOnceIff`, `RepeatsIffStale`; input in `OverlapRepeats`). A failed report keeps the reported
  entries in order if and only if nothing newer was reported or buffered before it
  (`RetryInOrderIff`; input in `OverlapReorders`).
- The newest line of a log file survives a trim if and only if it fits the target with its break
  and one more byte; otherwise the file is emptied (`NewestLineKeptIff`).
- The `lastEventTs` of every recover_task is the time of the chat_bound that releases it, so no event
  before it has any effect on what is sent (`RecoveryTellsItsOwnTime`, `StampsAreUnused`); and the
  snapshot of streamed text is never written (`SnapshotsAreInert`).
- Connecting while a socket closed by `disconnect` has yet to report is unsafe
  (`ConnectSafeIff`, `StrayCloseSchedulesReconnect`), and a pending visibility timer reopens a
  connection closed on purpose (`DisconnectFinalIff`).
- A message sent while the connection counts as up is lost if and only if, since the socket opened,
  a pong has been missed or somebody has connected again (`LossyAfterIff`, `AllReach`,
  `BrokenLosesMessages`).
- `withRetry` throws `undefined` if and only if `maxRetries` is negative (`WithRetry`).

## Model

| member | source | states |
|---|---|---|
| `TtlMap.TTLMap.constructor` | agent/worker/lib/ttl-map.ts:22-37 | a new map is empty and its cleanup timer runs |
| `TtlMap.TTLMap.Set` | agent/worker/lib/ttl-map.ts:39-49 | both maps together hold what SetHeld gives: at the limit a new key pushes out the oldest entry, and a present key keeps its place |
| `TtlMap.TTLMap.Get` | agent/worker/lib/ttl-map.ts:51-60 | an expired key is deleted from both maps and reads as absent, any other key reads as its value |
| `TtlMap.TTLMap.Has` | agent/worker/lib/ttl-map.ts:62-71 | the same for presence |
| `TtlMap.TTLMap.Delete` | agent/worker/lib/ttl-map.ts:73-76 | removes the key from both maps and reports whether it was held |
| `TtlMap.TTLMap.Clear` | agent/worker/lib/ttl-map.ts:78-81 | leaves nothing |
| `TtlMap.TTLMap.Size` | agent/worker/lib/ttl-map.ts:83-86 | sweeps, then counts what is held |
| `TtlMap.TTLMap.Entries` | agent/worker/lib/ttl-map.ts:97-107 | sweeps, then yields the held pairs in insertion order |
| `TtlMap.TTLMap.Dispose` | agent/worker/lib/ttl-map.ts:88-95 | stops the timer and leaves nothing |
| `TtlMap.TTLMap.CleanupExpired` | agent/worker/lib/ttl-map.ts:109-117 | deleting while iterating removes exactly the expired entries from both maps and keeps the others in order |
| `TtlMap.TTLMap.CleanupEntry` | agent/worker/lib/ttl-map.ts:111-116 | one turn of the iteration: an expired entry leaves both maps and the next one stands in its place |
| `TtlMap.TTLMap.FindOldest` | agent/worker/lib/ttl-map.ts:119-129 | the key of the first entry of least write time, or none |
| `TtlRefinement.StepRefines` | agent/worker/lib/ttl-map.ts:39-129 | one call of the lazy map is one the eager map may make, the order of the entries included |
| `TtlRefinement.StepTracks` | agent/worker/lib/ttl-map.ts:39-129 | every expired entry still held is of a key that expiry has dropped and that no call has named since |
| `TtlRefinement.LazyRefinesEager` | agent/worker/lib/ttl-map.ts:39-129 | every run of calls and timer firings answers like a bounded map that drops every entry the instant it expires; iteration order, ties and choice of victim are those of the eager map, in which a new key goes to the end, and only a key that expiry has dropped and no call has named since may land elsewhere or be reported by delete |
| `TtlRefinement.LivesExactly` | agent/worker/lib/ttl-map.ts:39-117 | over every run of reads, sweeps and deletions of other keys a value set at t is found until t + ttl, that millisecond included, and not after it |
| `TtlCleanup.SetKeepsBoundIff` | agent/worker/lib/ttl-map.ts:39-49 | one set keeps the size bound if and only if nothing has to go or the oldest key is not empty |
| `TtlCleanup.EmptyKeyOverflows` | agent/worker/lib/ttl-map.ts:41-45 | a map of size one that holds the empty key grows to two |
| `TtlCleanup.HeldNeverExceeds` | agent/worker/lib/ttl-map.ts:39-49 | over every run without the empty key the held size never exceeds maxSize and keys stay unique |
| `TtlCleanup.VictimIsOldest` | agent/worker/lib/ttl-map.ts:39-49 | set drops at most one other key, the first of least write time, and a live one only if nothing held has expired |
| `TtlCleanup.SetCommutesIff` | agent/worker/lib/ttl-map.ts:39-49 | setting and then sweeping is sweeping and then setting if and only if the key is not an expired one with a live one behind it |
| `TtlCleanup.CallShowsCleanupIff` | agent/worker/lib/ttl-map.ts:39-129 | a sweep before a call changes its answer or what the map then lists if and only if the call is not settled |
| `TtlCleanup.ReadFirstSettles` | agent/worker/lib/ttl-map.ts:62-71 | a call of has just before settles any set or delete of the key |
| `TtlCleanup.OrderShowsCleanup` | agent/worker/lib/ttl-map.ts:39-49 | an expired key set again keeps its place, or goes to the end if the timer fired |
| `TtlCleanup.ReadDoesNotProtect` | agent/worker/lib/ttl-map.ts:39-60 | the entry just read is the one evicted |
| `TtlCleanup.CleanupInvisible` | agent/worker/lib/ttl-map.ts:33-129 | two runs of the same calls with the timer firing, or keys read, at different moments give the same answers, order and ties and deletions included, if every call in them is settled |
| `TtlCleanup.TieShowsCleanup` | agent/worker/lib/ttl-map.ts:119-128 | of two entries written in one millisecond the first in order is the victim, so a place that depends on cleanup decides it |
| `TtlCleanup.DeleteAnswersIff` | agent/worker/lib/ttl-map.ts:73-76 | delete answers as on a swept map if and only if its key is not an expired one |
| `RateLimit.Limiter.constructor` | web/server/security.ts:55 | the store starts empty |
| `RateLimit.Limiter.Request` | web/server/security.ts:73-100 | counts the request in its key's window, opening one if there is none or it is over, and answers by the count, with the three headers |
| `RateLimit.Limiter.Cleanup` | web/server/security.ts:58-65 | removes exactly the entries whose window is over |
| `RateLimit.RetryAfterHelpsIff` | web/server/security.ts:91-96 | after the advertised wait the client is let in, except when the wait ends on the millisecond of the reset |
| `RateLimit.CleanupInvisible` | web/server/security.ts:55-101 | same requests and different cleanup times: the same decision on every request |
| `RateLimit.KeysAreIndependent` | web/server/security.ts:72-101 | a key's decisions are those of a run that holds its requests alone |
| `RateLimit.WindowAdmitsExactly` | web/server/security.ts:77-99 | the first maxRequests requests of a window are admitted and all others in it refused |
| `RateLimit.NextWindowOpens` | web/server/security.ts:77-99 | a window lasts exactly its length whenever it starts: behind own requests that began with its first the next is decided by the count up to the last millisecond, and admitted at any time after that |
| `RateLimit.RetryAfterAtMost` | web/server/security.ts:91-96 | over every run of one limiter a client is told to wait for at least nothing and at most the window's length in whole seconds |
| `RateLimit.CleanupLeavesActive` | web/server/security.ts:58-65 | the entries left by a cleanup are exactly those whose window is still running, unchanged |
| `RateLimit.RateBoundOverAnyInterval` | web/server/security.ts:72-101 | over every run any interval of length L admits at most the allowance, and fewer if L > 0, whatever other keys and the cleanup do |
| `RateLimit.AllowanceClosed` | web/server/security.ts:72-101 | the allowance is (ceil(L/W)+1)*maxRequests |
| `RateLimit.TwiceTheLimit` | web/server/security.ts:72-101 | an interval no longer than the window admits at most 2*maxRequests |
| `RateLimit.BoundIsAttained` | web/server/security.ts:72-101 | for every limit, window and start time a run admits 2*maxRequests-1 in an interval of length W |
| `StreamFilter.TestPatterns` | web/client/src/hooks/streamFilter.ts:13-19 | true if and only if one of the five patterns matches |
| `StreamFilter.Filter` | web/client/src/hooks/streamFilter.ts:28-57 | both branches compute the join of the lines that are not system lines |
| `StreamFilter.OutputLines` | web/client/src/hooks/streamFilter.ts:32-47 | the output splits into exactly the input's non-system lines, in order |
| `StreamFilter.FilterIdempotent` | web/client/src/hooks/streamFilter.ts:28-57 | filtering twice is filtering once, on every string |
| `StreamFilter.CutLawIff` | web/client/src/hooks/streamFilter.ts:28-57 | a stream cut anywhere may be filtered in two parts if and only if no part of the cut line is a directive, or the cut stands at the end of one and no line break goes missing, or all three are and nothing is kept on one side |
| `StreamFilter.ChunkingLawIff` | web/client/src/hooks/streamFilter.ts:28-57 | so a newline-terminated chunk may be filtered by itself if and only if the rest has a line to keep or the chunk has none |
| `StreamFilter.ChunkingLaw` | web/client/src/hooks/streamFilter.ts:28-57 | filtering a stream of newline-terminated chunks at once is filtering each |
| `StreamFilter.CutDirectivePasses` | web/client/src/hooks/streamFilter.ts:49-56 | a directive cut in two chunks passes through |
| `StreamFilter.MarkedLineIsDropped` | web/client/src/hooks/streamFilter.ts:13-19 | a line that begins with one of the three marks, behind any white space, filters to nothing whatever follows |
| `StreamFilter.NonTextIsDropped` | web/client/src/hooks/streamFilter.ts:13-19 | so does one that begins with the head of a non-text note in any case of letters and has a closing bracket behind it |
| `StreamFilter.AssistantNonTextIsDropped` | web/client/src/hooks/streamFilter.ts:13-19 | and one that begins with the assistant's name, white space at will, and that head |
| `StreamFilter.OtherLinePasses` | web/client/src/hooks/streamFilter.ts:13-57 | a line whose first ink is neither an opening bracket nor an A passes unchanged, with a mark in its middle too |
| `Text.SpacesByName` | web/client/src/hooks/streamFilter.ts:13-36 | what \s matches and trim removes are the 25 white spaces and line terminators of ECMAScript, named one by one |
| `StreamBuffer.FindFlushPoint` | web/client/src/hooks/useStreamBuffer.ts:27-41 | the backward scan computes FlushPoint |
| `StreamBuffer.FlushPointIsIt` | web/client/src/hooks/useStreamBuffer.ts:27-41 | that is the one split point that takes short text whole, ends behind the last boundary in reach, or else stands at the limit |
| `StreamBuffer.CutBehindBlank` | web/client/src/hooks/useStreamBuffer.ts:27-41 | text of more than 80 characters is cut behind the last blank, comma or full stop of the first 80, and at 80 if there is none or it is one of the first two characters |
| `StreamBuffer.ShortGoesWhole` | web/client/src/hooks/useStreamBuffer.ts:27-29 | text of at most 80 characters goes whole |
| `StreamBuffer.StreamBuffer.constructor` | web/client/src/hooks/useStreamBuffer.ts:58-61 | starts empty with no frame requested |
| `StreamBuffer.StreamBuffer.OnFrame` | web/client/src/hooks/useStreamBuffer.ts:70-91 | hands on a due batch, keeps the rest, and asks for the next frame while running |
| `StreamBuffer.StreamBuffer.EnsureRunning` | web/client/src/hooks/useStreamBuffer.ts:94-99 | requests a frame and starts the interval only if none is pending |
| `StreamBuffer.StreamBuffer.Append` | web/client/src/hooks/useStreamBuffer.ts:102-106 | adds the text behind what waits and sees to it that the loop runs |
| `StreamBuffer.StreamBuffer.Drain` | web/client/src/hooks/useStreamBuffer.ts:108-119 | hands on everything and cancels the frame |
| `StreamBuffer.StreamBuffer.Clear` | web/client/src/hooks/useStreamBuffer.ts:121-128 | drops everything and cancels the frame |
| `StreamBufferRuns.BufferConserves` | web/client/src/hooks/useStreamBuffer.ts:70-128 | over every run flushed text followed by buffered text is the text pushed since the last reset, read off the run; running means a frame is pending, waiting text has one, batches have 1 to 80 characters and are at least 40 ms apart |
| `StreamBufferRuns.StepMoves` | web/client/src/hooks/useStreamBuffer.ts:70-128 | what each call moves: a due frame 1 to 80 characters and all of a short text, a frame that is not due nothing, flushing everything; who asks for another frame |
| `StreamBufferRuns.LoopNeverIdles` | web/client/src/hooks/useStreamBuffer.ts:85-90 | a started loop asks for another frame even on an empty buffer |
| `StreamBufferRuns.DrainBound` | web/client/src/hooks/useStreamBuffer.ts:70-91 | a backlog of n characters takes at most 1 + ceil(max(0, n-80)/3) flushes |
| `StreamBufferRuns.DrainTime` | web/client/src/hooks/useStreamBuffer.ts:70-91 | with frames at most a gap apart a backlog is gone one gap after the first flush is due, be that at once, and one interval and one gap for every further flush |
| `EventReducer.MessageStore.constructor` | web/client/src/stores/useMessageStore.ts:149-173 | the store holds the given state |
| `EventReducer.MessageStore.ApplyMutations` | web/client/src/hooks/useChatStore.tsx:138-180 | the loop over the list is the fold of its mutations on the store |
| `EventReducer.MessageStore.AppendStream` | web/client/src/stores/useMessageStore.ts:187-188 | a batch goes behind the streamed text and changes nothing else |
| `EventReducer.MessageStore.SetStreaming` | web/client/src/stores/useMessageStore.ts:180-185 | turning a stream on clears what the last one left unless told to preserve it; turning it off clears nothing |
| `EventReducer.MessageStore.SendMessage` | web/client/src/stores/useMessageStore.ts:475-516 | the user's message is added, all of the old stream cleared, and the stream is on |
| `EventReducer.AtMostOneEnd` | web/client/src/hooks/wsEventReducer.ts:70-402 | no list commits and clears or does either twice, and exactly the closing events do one of them |
| `EventReducer.ClosingTurnsOff` | web/client/src/hooks/wsEventReducer.ts:221-326 | nothing is streaming after a stream_end, message_done, error, task_timeout or idle, whatever came before |
| `EventReducer.StreamEndCommits` | web/client/src/hooks/wsEventReducer.ts:221-252 | commits the server's text if it is at least as long as the streamed text, the streamed text if that is longer, and the thinking if both are empty, unless it repeats the last message |
| `EventReducer.FailureCommits` | web/client/src/hooks/wsEventReducer.ts:254-286 | error and task_timeout commit streamed text unless it is blank or repeats the last message |
| `EventReducer.IdleCommits` | web/client/src/hooks/wsEventReducer.ts:288-326 | which message idle commits in each of its cases |
| `EventReducer.SurvivesIff` | web/client/src/hooks/wsEventReducer.ts:70-402 | text that is not blank stays, is committed at full length or stands in the last message, for every event but those that Loses names: a commit turned down by a message without the text, and idle in a stream whose last message is neither the user's nor holds it |
| `EventReducer.LongerTextIsDropped` | web/client/src/stores/useMessageStore.ts:246-296 | a text that goes on where a last message of more than 50 characters ended is not added, and is in no message |
| `EventReducer.DuplicatesIff` | web/client/src/stores/useMessageStore.ts:246-296 | a commit is turned down exactly behind an assistant's message of the same text, or when both have more than 50 characters and the first 200 of one stand somewhere in the other |
| `EventReducer.ExecHistoryCollects` | web/client/src/hooks/wsEventReducer.ts:144-165 | an exec tool collects every non-empty partial result in order |
| `EventReducer.ToolStarts` | web/client/src/hooks/wsEventReducer.ts:111-142 | a tool that starts is running and last in the list, under its own or a fresh id, and the stream is on with its text kept |
| `EventReducer.ProgressIsShown` | web/client/src/hooks/wsEventReducer.ts:145-165 | progress is shown as it comes, and only an exec tool, so named by its call or by the event, keeps a history of what was not empty |
| `EventReducer.ToolEndsAs` | web/client/src/hooks/wsEventReducer.ts:168-219 | a tool that ends carries its result, Completed or Failed, and both events that end one agree |
| `EventReducer.ClosingEmpties` | web/client/src/hooks/wsEventReducer.ts:221-326 | the close of a stream leaves no text, thinking, tools, steps or plan |
| `EventReducer.StartClears` | web/client/src/hooks/wsEventReducer.ts:82-93 | an accepted stream_start begins with nothing shown, thought or done and keeps the messages |
| `EventReducer.StartIsRefused` | web/client/src/hooks/wsEventReducer.ts:82-93 | within two seconds of the last end outside a stream, or over shown text, a stream_start changes nothing |
| `EventReducer.FailuresAreTold` | web/client/src/hooks/wsEventReducer.ts:254-286 | an error is told in its own words or as unknown, and a timeout is told |
| `EventReducer.MissingReplyIff` | web/client/src/hooks/wsEventReducer.ts:288-326 | idle tells of an error exactly when there is neither text nor a tool behind the user's message |
| `EventReducer.SuggestionsFollow` | web/client/src/stores/useMessageStore.ts:475-516 | suggestions come with an answer's end and go with the next question |
| `EventReducer.PhasesFollow` | web/client/src/hooks/wsEventReducer.ts:342-396 | the phase follows the plan's events, and a plan without steps is none |
| `EventReducer.NoticesOnly` | web/client/src/hooks/wsEventReducer.ts:289-402 | a long-running notice, a status that is not idle and unknown events leave the stream alone |
| `ChatStream.ChatStore.constructor` | web/client/src/hooks/useChatStore.tsx:110-115 | the chat starts with the given store and an idle buffer |
| `ChatStream.ChatStore.OnFrame` | web/client/src/hooks/useChatStore.tsx:111-115 | the frame's batch moves from the buffer to the store |
| `ChatStream.ChatStore.HandleWsEvent` | web/client/src/hooks/useChatStore.tsx:183-806 | dispatch of every modelled event, heartbeats dropped first; notes and announcements add messages |
| `ChatStream.ChatStore.OnStep` | web/client/src/hooks/useChatStore.tsx:304-322 | a step turns the stream on, text kept, and is added |
| `ChatStream.ChatStore.OnAnnounced` | web/client/src/hooks/useChatStore.tsx:731-803 | an announcement of three characters or more is added outside a stream, and not in one |
| `ChatStream.ChatStore.Send` | web/client/src/stores/useMessageStore.ts:475-516 | a message of the user's ends the stream's text but leaves the buffer |
| `ChatStream.ChatStore.OnStreamStart` | web/client/src/hooks/useChatStore.tsx:246-269 | refused in the cooldown or over existing text, otherwise store and buffer start anew |
| `ChatStream.ChatStore.OnStreamChunk` | web/client/src/hooks/useChatStore.tsx:271-283 | what the filter keeps of a chunk goes to the buffer |
| `ChatStream.ChatStore.OnStreamEnd` | web/client/src/hooks/useChatStore.tsx:500-522 | a synthetic end outside a stream is skipped, any other flushes the buffer and then reduces |
| `ChatStream.ChatStore.OnStatus` | web/client/src/hooks/useChatStore.tsx:598-620 | idle in a stream flushes the buffer and then reduces |
| `ChatStream.ChatStore.OnCancelConfirmed` | web/client/src/hooks/useChatStore.tsx:666-674 | flushes and clears |
| `ChatStream.ChatStore.OnServerRestart` | web/client/src/hooks/useWebSocket.ts:235-256 | delivers the synthetic stream_end and then status idle |
| `ChatStream.EndToEnd` | web/client/src/hooks/useChatStore.tsx:246-522 | after an accepted stream_start, over every interleaving of chunks, frames, notes, refreshes and other events, stream_end commits the server's text if it is at least as long as everything shown, buffered text included, everything shown if that is longer, and the thinking if there is neither, behind the messages that have come meanwhile, if and only if it does not repeat the last of them; and it leaves nothing behind |
| `ChatStream.ThinkingIsCommitted` | web/client/src/hooks/wsEventReducer.ts:221-252 | with no text from either side the thinking of the whole run, in order, is what stream_end commits |
| `ChatStream.ChunkIsBuffered` | web/client/src/hooks/useChatStore.tsx:202-283 | a chunk reaches the buffer, filtered, exactly unless HEARTBEAT_OK or [HEARTBEAT] stands in it |
| `ChatStream.HeartbeatIsDropped` | web/client/src/hooks/useChatStore.tsx:202-212 | an end or a thought with such a mark in its text changes nothing |
| `ChatStream.TurnsOnIff` | web/client/src/hooks/useChatStore.tsx:183-806 | outside a stream exactly these turn one on: a message of the user's, a stream_start two seconds after the last end with no text left over, a tool with a name, a step with id and title, a running task recovered, a cleared error |
| `ChatStream.TurnsOffIff` | web/client/src/hooks/useChatStore.tsx:183-806 | during a stream exactly a cancellation and the closing events that are no heartbeats turn it off |
| `ChatStream.CancelEmpties` | web/client/src/hooks/useChatStore.tsx:666-674 | a cancellation commits nothing and leaves no text in store or buffer, no thinking, tools, steps or plan |
| `ChatStream.AnnouncedIff` | web/client/src/hooks/useChatStore.tsx:731-803 | an announcement becomes a message, as it is, exactly when it has three characters or more between its white space and no stream is on |
| `ChatStream.StepIsListed` | web/client/src/hooks/useChatStore.tsx:304-322 | a step with an id and a title is listed and any other ignored; the text shown and the messages stay |
| `ChatStream.ToolRuns` | web/client/src/hooks/useChatStore.tsx:333-422 | from its start on, over every run in which the stream goes on, a tool's status, result, progress and history are what its own events made of them, whatever else arrives |
| `ChatStream.RestartCommits` | web/client/src/hooks/useWebSocket.ts:235-256 | a server restart during a stream commits everything shown in the same way, and the idle behind it changes no message |
| `ChatStream.ResentTextIsDropped` | web/client/src/stores/useMessageStore.ts:246-296 | a stream that shows the last message again, of more than 50 characters, and goes on ends without a message, and what it showed is nowhere |
| `ChatStream.RestartThenWholeIsDropped` | web/client/src/hooks/useWebSocket.ts:235-256 | a restarted server that sends the whole answer again loses all but what the restart committed |
| `ChatStream.IdleCommitsShownIff` | web/client/src/hooks/useChatStore.tsx:598-620 | idle commits everything shown if and only if it is not blank and the last message is then the user's |
| `ChatStream.FailureCommitsAllIff` | web/client/src/hooks/useChatStore.tsx:524-595 | error and task_timeout commit everything shown if and only if the buffer is empty and the text does not repeat the last message |
| `ChatStream.LeftoverComesLate` | web/client/src/hooks/useChatStore.tsx:254-260 | text left in the buffer outside a stream reaches the store with the next due frame and has every later stream_start refused |
| `ChatStream.LeftoverRefusesStarts` | web/client/src/hooks/useChatStore.tsx:254-260 | what they leave in the buffer makes later stream_start events be refused |
| `ChatStream.SecondStartLosesIff` | web/client/src/hooks/useChatStore.tsx:246-269 | a stream_start during a stream drops text if and only if all of it is still in the buffer |
| `Answers.StartIsRefusedIff` | web/client/src/stores/useMessageStore.ts:504-516 | after the user's message, with whatever comes in the round trip, the stream_start of the answer is refused if and only if text was left in the buffer and a due frame came first |
| `Answers.AnswerIsCommitted` | web/client/src/hooks/useChatStore.tsx:246-522 | from any state, after the user's message, over every run before the stream_start and behind it, stream_end commits the server's text if it is at least as long as everything shown and everything shown if that is longer, behind the question and its notes; earlier text stands in front if and only if the start was refused, and the server's text is the one committed exactly when it was not |
| `Answers.AnswerStandsAlone` | web/client/src/hooks/useChatStore.tsx:246-522 | with an empty buffer and nothing shown before the start the answer, the server's text or what was shown, whichever is longer, is committed in full and by itself |
| `Answers.LeftoverSpoilsAnswer` | web/client/src/stores/useMessageStore.ts:504-516 | text that was left in the buffer and has reached the store is committed as the beginning of the answer |
| `Answers.IdleCommitsAnswerIff` | web/client/src/hooks/useChatStore.tsx:440-484 | idle in the place of stream_end commits everything shown if and only if no note of the system has come since the question |
| `HttpPolling.UseHttpPolling.constructor` | web/client/src/hooks/useHttpPolling.ts:35-37 | no timer and cursor zero |
| `HttpPolling.UseHttpPolling.StopPolling` | web/client/src/hooks/useHttpPolling.ts:39-45 | the timer is off and nothing else changes |
| `HttpPolling.UseHttpPolling.StartPolling` | web/client/src/hooks/useHttpPolling.ts:56-94 | stops, and for a message id starts anew with cursor zero and a poll at once |
| `HttpPolling.UseHttpPolling.ProcessPolledEvents` | web/client/src/hooks/useHttpPolling.ts:47-54 | every event is delivered, in order |
| `HttpPolling.UseHttpPolling.OnAnswer` | web/client/src/hooks/useHttpPolling.ts:65-89 | delivery, cursor, stop and completion for each kind of answer, 404 and failure included |
| `HttpPolling.NeverAGapFromStart` | web/client/src/hooks/useHttpPolling.ts:56-94 | with polls overlapping, failing, late or out of order, every logged event up to the cursor has been delivered |
| `HttpPolling.NeverAGap` | web/client/src/lib/api.ts:569-589 | the same from any state without a gap, every cursor under way included |
| `HttpPolling.PrefixExactlyFromStart` | web/client/src/hooks/useHttpPolling.ts:56-94 | with at most one poll under way, what was delivered is a prefix of the log, each event once and in order, and completion is reported at most once |
| `HttpPolling.RepeatsIffStale` | web/client/src/hooks/useHttpPolling.ts:74-84 | an answer repeats an event if and only if it is not empty and something behind its poll's cursor has been delivered by now |
| `HttpPolling.DeliveredOnceIff` | web/client/src/hooks/useHttpPolling.ts:56-94 | over every run each event is delivered at most once if and only if no answer with events comes to a poll whose cursor has gone stale; and every answer with an end reports it |
| `HttpPolling.DeliveredOnceFromStart` | web/client/src/hooks/useHttpPolling.ts:56-94 | the same from the start |
| `HttpPolling.OverlapRepeats` | web/client/src/hooks/useHttpPolling.ts:74-84 | two polls with one cursor deliver an event twice and report the end twice |
| `HttpPolling.OnUntilStopped` | web/client/src/hooks/useHttpPolling.ts:39-94 | over every run polling is on exactly until it is stopped, the server answers 404, or an answer says that the task has ended; interval and flag agree |
| `HttpPolling.EndIsQuiet` | web/client/src/hooks/useHttpPolling.ts:65-89 | behind a 404, an end or a stop no poll goes out, over every run without a new start |
| `HttpPolling.OffStaysQuiet` | web/client/src/hooks/useHttpPolling.ts:39-94 | the same from any state in which polling is off |
| `HttpPolling.BadAnswersBringNothing` | web/client/src/hooks/useHttpPolling.ts:65-89 | a poll that fails, or is answered with 404, delivers nothing and leaves the cursor; only the 404 stops |
| `HttpPolling.StartsFromTheBeginning` | web/client/src/hooks/useHttpPolling.ts:56-94 | every start polls at once from the beginning of the log |
| `HttpPolling.PollsBalance` | web/client/src/hooks/useHttpPolling.ts:56-94 | over every run polls under way and polls answered are the polls sent |
| `Replay.ReplayRepeats` | web/client/src/hooks/useChatStore.tsx:848-856 | polling that starts in a stream shows the delivered part of the log behind what is shown already, whatever frames come in between |
| `Replay.ServerTextWinsIff` | web/client/src/hooks/useChatStore.tsx:254-260 | the stream_end behind a full replay commits the server's text if and only if no text had reached the store, and otherwise the doubled text |
| `WebSocketManager.DelayBounds` | web/client/src/hooks/useWebSocket.ts:172-182 | the wait before a reconnection lies between min(1000*2^n, 30000) milliseconds and a fifth more for the n-th attempt, and is 30 to 36 seconds once attempts are used up |
| `WebSocketManager.UseWebSocket.constructor` | web/client/src/hooks/useWebSocket.ts:80-97 | no socket and no timer |
| `WebSocketManager.UseWebSocket.ClearTimers` | web/client/src/hooks/useWebSocket.ts:113-126 | all three timers are off and nothing else changes |
| `WebSocketManager.UseWebSocket.ScheduleReconnect` | web/client/src/hooks/useWebSocket.ts:148-192 | gives up, keeps the pending timer or sets one within bounds |
| `WebSocketManager.UseWebSocket.Connect` | web/client/src/hooks/useWebSocket.ts:194-308 | discards the current socket, clears the timers and makes a new socket or schedules the next attempt |
| `WebSocketManager.UseWebSocket.OnOpen` | web/client/src/hooks/useWebSocket.ts:216-227 | resets the attempts, starts the heartbeat and binds the remembered chat again |
| `WebSocketManager.UseWebSocket.BindChat` | web/client/src/hooks/useWebSocket.ts:328-331 | remembers the chat, and sends only over an open socket |
| `WebSocketManager.UseWebSocket.OnClose` | web/client/src/hooks/useWebSocket.ts:229-267 | clears the timers, schedules a reconnection unless closed on purpose, and hands on the synthetic events for the two restart codes |
| `WebSocketManager.UseWebSocket.OnPong` | web/client/src/hooks/useWebSocket.ts:277-294 | clears the pong timer only |
| `WebSocketManager.UseWebSocket.OnReconnectTimer` | web/client/src/hooks/useWebSocket.ts:186-191 | counts the attempt and connects |
| `WebSocketManager.UseWebSocket.OnHeartbeat` | web/client/src/hooks/useWebSocket.ts:128-146 | pings an open socket and sets its pong timer |
| `WebSocketManager.UseWebSocket.OnPongTimeout` | web/client/src/hooks/useWebSocket.ts:138-143 | closes the current socket if it is open |
| `WebSocketManager.UseWebSocket.Disconnect` | web/client/src/hooks/useWebSocket.ts:310-318 | closes the socket, which keeps its handlers, and forgets it |
| `WebSocketManager.UseWebSocket.OnOnline` | web/client/src/hooks/useWebSocket.ts:370-380 | reconnects at once unless closed on purpose or open |
| `WebSocketManager.UseWebSocket.OnVisibilityChange` | web/client/src/hooks/useWebSocket.ts:337-360 | sets or cancels the visibility timer |
| `WebSocketManager.UseWebSocket.OnVisibilityTimer` | web/client/src/hooks/useWebSocket.ts:341-352 | reconnects unless open, whether or not closed on purpose |
| `WebSocketSafety.NeverStalls` | web/client/src/hooks/useWebSocket.ts:113-391 | in every reachable state not closed on purpose a socket is live, a timer is pending, or it has never connected and reached the limit; at most one socket has live handlers; the pong timer is the current socket's; once connected, a live socket and a pending timer exclude each other |
| `WebSocketSafety.AnsweredPingsAreSafe` | web/client/src/hooks/useWebSocket.ts:128-146 | over every run in which each ping is answered before its timer, no pong timer fires |
| `WebSocketSafety.HealthyStaysOpen` | web/client/src/hooks/useWebSocket.ts:113-391 | and over such a run an open connection stays open until its own close event, a connect or a disconnect |
| `WebSocketSafety.PongDisarms` | web/client/src/hooks/useWebSocket.ts:277-294 | after a pong over a socket that is listened to no pong timer fires before the next heartbeat |
| `WebSocketSafety.OpenStaysOpen` | web/client/src/hooks/useWebSocket.ts:113-391 | an open current socket is closed by no step but its own close event, a missed pong, a connect or a disconnect |
| `WebSocketSafety.MissedPongReconnects` | web/client/src/hooks/useWebSocket.ts:138-267 | a ping that is not answered closes the socket, and its close event sets the reconnection timer |
| `WebSocketSafety.ComesBack` | web/client/src/hooks/useWebSocket.ts:333-391 | a network that is back or a tab that is looked at makes a new socket at once unless one is open or, for the network, closed on purpose |
| `WebSocketSafety.TabSetsTimer` | web/client/src/hooks/useWebSocket.ts:337-360 | looking at the tab sets the timer unless closed on purpose, and hiding it calls it off |
| `WebSocketSafety.OthersMindNoTab` | web/client/src/hooks/useWebSocket.ts:113-391 | no step but looking, hiding and the timer itself changes the visibility timer |
| `WebSocketSafety.OpeningConnects` | web/client/src/hooks/useWebSocket.ts:216-227 | an opening that is listened to shows as connected, starts the heartbeat and resets the attempts |
| `WebSocketSafety.DisconnectStops` | web/client/src/hooks/useWebSocket.ts:310-318 | disconnecting closes and forgets the socket and stops every timer but the tab's |
| `WebSocketSafety.SchedulesOnce` | web/client/src/hooks/useWebSocket.ts:148-192 | nothing is scheduled beside a pending timer or after a close on purpose |
| `WebSocketSafety.BackoffDoubles` | web/client/src/hooks/useWebSocket.ts:172-182 | the base wait is one second, doubles with every attempt up to thirty, and is thirty once attempts are used up |
| `WebSocketSafety.FreshWait` | web/client/src/hooks/useWebSocket.ts:216-267 | after an opening, or a close with code 1012 or 1013, the next wait is 1000 to 1200 ms |
| `WebSocketSafety.OtherCloseKeepsCount` | web/client/src/hooks/useWebSocket.ts:229-267 | any other close leaves the number of attempts as it was |
| `WebSocketSafety.ConnectSafeIff` | web/client/src/hooks/useWebSocket.ts:194-205 | connecting leaves one live socket if and only if no socket closed by disconnect is still to report |
| `WebSocketSafety.StrayCloseSchedulesReconnect` | web/client/src/hooks/useWebSocket.ts:229-267 | the late report sets a timer beside the live socket, exactly unless the manager has never been connected and is out of attempts |
| `WebSocketSafety.DisconnectFinalIff` | web/client/src/hooks/useWebSocket.ts:333-391 | disconnect is final under every run without connect if and only if no visibility timer was pending |
| `WebSocketSafety.GivesUpExactly` | web/client/src/hooks/useWebSocket.ts:152-166 | a manager that never connects retries after each of the first maxReconnectAttempts failures and gives up on the next |
| `Delivery.LossyAfterIff` | web/client/src/hooks/useWebSocket.ts:98-391 | a step leaves the manager connected without an open socket if and only if a pong is missed or somebody connects over the connection |
| `Delivery.ShownIsSo` | web/client/src/hooks/useWebSocket.ts:216-267 | in every reachable state an open current socket is pinged, shows as connected and has reset the attempts |
| `Delivery.AllReach` | web/client/src/hooks/useChatStore.tsx:901-920 | over every run of the manager and the queue without such a step every message handed to the raw sender reaches an open socket |
| `Delivery.AllReachFromStart` | web/client/src/hooks/useWebSocket.ts:320-326 | the same from the first connect on, with anything in the queue |
| `Delivery.BrokenLosesMessages` | web/client/src/hooks/useWebSocket.ts:138-143 | after such a step the next message and all that waited are handed over, taken off the queue and lost |
| `StreamWatchdog.UseStreamWatchdog.constructor` | web/client/src/hooks/useStreamWatchdog.ts:88-89 | no timer and no retries |
| `StreamWatchdog.UseStreamWatchdog.Clear` | web/client/src/hooks/useStreamWatchdog.ts:91-97 | no timer and no retries, all else as before |
| `StreamWatchdog.UseStreamWatchdog.Reset` | web/client/src/hooks/useStreamWatchdog.ts:192-196 | sixty seconds from now and no retries |
| `StreamWatchdog.UseStreamWatchdog.HandleTrigger` | web/client/src/hooks/useStreamWatchdog.ts:99-190 | one firing with its answer: recover, wait again, fail or fall back |
| `StreamWatchdog.TriggerFacts` | web/client/src/hooks/useStreamWatchdog.ts:37-190 | a firing during a stream either waits again, having asked, or ends the stream: a completed task with the backend's text, or failing that the text in the store, or failing both a fixed note; a failed one with its error; otherwise with the text or its tools |
| `StreamWatchdog.WaitsIff` | web/client/src/hooks/useStreamWatchdog.ts:99-190 | it waits again exactly when it has asked and the task runs, two minutes from the answer, or the first question brought no help, fifteen seconds from it |
| `StreamWatchdog.AsksTwice` | web/client/src/hooks/useStreamWatchdog.ts:99-190 | a tracked task is asked about twice unless the first answer is final, and one that still runs then is given a last wait |
| `StreamWatchdog.StallIsResolved` | web/client/src/hooks/useStreamWatchdog.ts:99-196 | whatever the backend answers and whatever animation frames come, after the last activity a stall is over after at most 3 firings and 2 queries within 310 s and nothing is remembered; all shown text is committed as the last answer demands or still in the buffer, and in a fallback all of it is committed if and only if the buffer is empty and it does not repeat the last message |
| `StreamWatchdog.VisibleTabCommitsAll` | web/client/src/hooks/useStreamWatchdog.ts:99-196 | with frames at most a gap apart until the backlog has had its time nothing is left in the buffer |
| `StreamWatchdog.HiddenTabLosesText` | web/client/src/hooks/useStreamWatchdog.ts:157-180 | without frames text that is all in the buffer ends in no message unless the task is completed, and comes into the idle store later, where it has starts refused |
| `StreamWatchdog.LongestStall` | web/client/src/hooks/useStreamWatchdog.ts:99-196 | a backend that always says running after the longest wait takes all of the 310 s |
| `OfflineQueue.ChatLink.constructor` | web/client/src/hooks/useChatStore.tsx:93-96 | starts disconnected with nothing queued; what local storage holds is kept |
| `OfflineQueue.ChatLink.WsSend` | web/client/src/hooks/useChatStore.tsx:901-920 | connected: the queue and then the message go out; otherwise it is queued unless it is a heartbeat |
| `OfflineQueue.ChatLink.OnConnectionChange` | web/client/src/hooks/useChatStore.tsx:848-869 | the flag changes and the queue stays; losing the connection in a task's stream starts polling and saves the chat's text if it has any |
| `OfflineQueue.ChatLink.OnReconnected` | web/client/src/hooks/useChatStore.tsx:977-1046 | a task found in memory or storage becomes the pending recovery, its snapshot goes back and the stream is turned on; without one an orphan stream ends with its text, or the messages are refreshed |
| `OfflineQueue.ChatLink.OnChatBound` | web/client/src/hooks/useChatStore.tsx:183-243 | stamps the event, then takes a pending recovery, sends it once with that stamp, and resets the watchdog |
| `OfflineQueue.ChatLink.OnTaskRecovery` | web/client/src/hooks/useChatStore.tsx:652-658 | the stamp is removed again and the named task is tracked |
| `OfflineQueue.ChatLink.OnTaskOver` | web/client/src/hooks/useChatStore.tsx:518-520 | the task is forgotten in memory and storage |
| `OfflineQueue.NothingLostOrReordered` | web/client/src/hooks/useChatStore.tsx:901-920 | over every run what was handed to the raw sender followed by the queue is what was accepted, in order, each once |
| `OfflineQueue.SendsOrQueues` | web/client/src/hooks/useChatStore.tsx:901-920 | connected, the queue and then the message go out; otherwise a message waits at the end of the queue and a ping or pong is dropped |
| `OfflineQueue.ConnectedIsReported` | web/client/src/hooks/useChatStore.tsx:848-869 | over every run the link counts as connected exactly as the last change said |
| `OfflineQueue.TaskIsTracked` | web/client/src/hooks/useChatStore.tsx:518-658 | over every run the task tracked is the last one named, or none when that one is over |
| `OfflineQueue.TaskIsStored` | web/client/src/hooks/useChatStore.tsx:518-658 | naming a task stores it, and its end forgets it and its chat |
| `OfflineQueue.EffectArms` | web/client/src/hooks/useChatStore.tsx:977-1027 | a new connection arms the recovery of the task tracked in the current or stored chat, and none without both |
| `OfflineQueue.SnapshotComesBack` | web/client/src/hooks/useChatStore.tsx:1005-1023 | a snapshot goes back to its own chat if it is longer than what is there, and is used up; one of another chat stays |
| `OfflineQueue.LossSaves` | web/client/src/hooks/useChatStore.tsx:857-869 | losing the connection in a task's stream saves the chat's text if it has any, and nothing else is saved |
| `OfflineQueue.MetaIsOf` | web/client/src/hooks/useChatStore.tsx:99-105 | the hash is of the length and the last 32 characters of both texts with a bar between |
| `OfflineQueue.OneRecoveryPerReconnect` | web/client/src/hooks/useChatStore.tsx:226-1027 | between two reconnections with a task one recover_task is sent if one was pending and chat_bound came, and none otherwise |
| `OfflineQueue.RecoveriesBounded` | web/client/src/hooks/useChatStore.tsx:226-1027 | over every run there are at most as many recover_task messages as reconnections with a task |
| `OfflineQueue.RecoveryTellsItsOwnTime` | web/client/src/hooks/useChatStore.tsx:184-243 | the lastEventTs of every recover_task is the time at which a chat_bound was handled |
| `OfflineQueue.StampsAreUnused` | web/client/src/hooks/useChatStore.tsx:184-243 | a run without its other events sends the same messages, their contents included |
| `OfflineQueue.SnapshotsAreInert` | web/client/src/hooks/useChatStore.tsx:857-1023 | from a page without a snapshot none is ever saved or restored, and every recovery carries sequence 0 and the hash of no text |
| `OfflineQueue.RejoinTurnsOn` | web/client/src/hooks/useChatStore.tsx:977-1046 | a task to recover turns the stream on and changes nothing else in the store |
| `OfflineQueue.RejoinSurvivesIff` | web/client/src/hooks/useChatStore.tsx:1028-1043 | streamed text survives a new connection if and only if its stream is no orphan, or it does not repeat the last message, or is in it |
| `Retry.WithRetry` | web/client/src/lib/api.ts:174-215 | the result is that of the first call that succeeds, fails for good or is number maxRetries+1; the throw behind the loop is reached if and only if maxRetries is negative; the sleep is within a fifth and rounding of the backoff |
| `Retry.BackoffBound` | web/client/src/lib/api.ts:203-206 | the backoff is at most maxDelay per retry |
| `Retry.DelayDoubles` | web/client/src/lib/api.ts:203-206 | the wait starts at the base, doubles with every retry, and stays at the cap from there on |
| `Retry.FinalIff` | web/client/src/lib/api.ts:187-201 | a failure is final exactly when its status is not to be retried or the retries are used up |
| `Retry.ByDefault` | web/client/src/lib/api.ts:178-184 | by default three retries of network failures and of the statuses that may pass, after one, two and four seconds |
| `Rounding.JitterBounds` | web/client/src/lib/api.ts:203-206 | a jittered delay is the delay and at most a fifth more, up to half a millisecond |
| `Rounding.JitterOfSeconds` | web/client/src/hooks/useWebSocket.ts:172-182 | of whole seconds the bounds are exact |
| `DebugCollector.PruneBuffer` | web/client/public/__manus__/debug-collector.js:116-118 | keeps the newest entries within the cap and drops the rest from the front |
| `DebugCollector.Collector.constructor` | web/client/public/__manus__/debug-collector.js:52-58 | all buffers and lanes are empty |
| `DebugCollector.Collector.LogUiEvent` | web/client/public/__manus__/debug-collector.js:240-250 | one Log step of its lane, and nothing else changes |
| `DebugCollector.Collector.LogNetwork` | web/client/public/__manus__/debug-collector.js:671-672 | one Log step of its lane, and nothing else changes |
| `DebugCollector.Collector.LogConsole` | web/client/public/__manus__/debug-collector.js:394-395 | one Log step of its lane, and nothing else changes |
| `DebugCollector.Collector.ReportLogs` | web/client/public/__manus__/debug-collector.js:716-738 | takes everything out, one Report step of every lane; with nothing to send neither a request nor a step |
| `DebugCollector.Collector.Arrived` | web/client/public/__manus__/debug-collector.js:740-744 | a report that arrives is one Succeed step of every lane |
| `DebugCollector.Collector.PutBack` | web/client/public/__manus__/debug-collector.js:744-753 | a failed report's data goes back in front of newer data, within the caps: one Fail step of every lane |
| `DebugCollector.EachEntryOnce` | web/client/public/__manus__/debug-collector.js:716-754 | with any reports overlapping every entry is, as often as it was produced, in exactly one of reported, under way, buffered and pruned, and the cap holds |
| `DebugCollector.LoggedIsProduced` | web/client/public/__manus__/debug-collector.js:240-395 | the entries produced are exactly those logged in the run, in order |
| `DebugCollector.PrunesOnlyOverflow` | web/client/public/__manus__/debug-collector.js:116-118 | what is pruned is the oldest of what does not fit, and leaves a full buffer |
| `DebugCollector.OrderIsKept` | web/client/public/__manus__/debug-collector.js:716-754 | with at most one report under way, reported, under way and buffered entries follow in order of production |
| `DebugCollector.RetryInOrderIff` | web/client/public/__manus__/debug-collector.js:744-753 | after a failed report is sent again the reported entries ascend if and only if what is left of it precedes the buffer and nothing newer than both has been reported |
| `DebugCollector.OverlapReorders` | web/client/public/__manus__/debug-collector.js:744-753 | two reports under way can leave a later entry reported before an earlier one |
| `SanitizeValue.SanitizeIsClean` | web/client/public/__manus__/debug-collector.js:64-96 | the result is clean at its level, for every graph |
| `SanitizeValue.UnchangedIffClean` | web/client/public/__manus__/debug-collector.js:64-96 | a tree-shaped value is left as it is if and only if it is clean |
| `SanitizeValue.SanitizeIdempotent` | web/client/public/__manus__/debug-collector.js:64-96 | sanitizing a sanitized value changes nothing, strings already truncated included |
| `SanitizeValue.SanitizeIsFaithful` | web/client/public/__manus__/debug-collector.js:64-96 | the result is the value with nothing changed but the cuts |
| `SanitizeValue.SanitizeIsSafe` | web/client/public/__manus__/debug-collector.js:64-96 | at most six levels, arrays of at most 100, and the redaction mark under every sensitive key kept |
| `SanitizeValue.SecretsDoNotLeak` | web/client/public/__manus__/debug-collector.js:82-94 | the result does not depend on what sensitive keys hold |
| `SanitizeValue.SensitiveIff` | web/client/public/__manus__/debug-collector.js:82-94 | a key is sensitive exactly when password, token, secret, key, authorization, cookie or session stands in it, in any case of letters |
| `SanitizeValue.PasswordIsRedacted` | web/client/public/__manus__/debug-collector.js:82-94 | the field of an object whose key has password in it, in any case, comes out as [REDACTED] whatever it holds |
| `SanitizeValue.CycleIsCut` | web/client/public/__manus__/debug-collector.js:64-80 | an array that holds itself is cut off after six levels |
| `LogFile.Log.constructor` | web/vite.config.ts:57 | the file may exist before |
| `LogFile.Log.WriteToLogFile` | web/vite.config.ts:53-70 | one line per entry is appended and then trimmed; no entries, no write |
| `LogFile.Log.TrimLogFile` | web/vite.config.ts:28-51 | a file within maxSize stays, any other is cut to its newest lines |
| `LogFile.KeepNewest` | web/vite.config.ts:34-45 | the backward walk keeps the run of lines that Newest gives |
| `LogFile.NewestIsLongest` | web/vite.config.ts:38-45 | that is the longest run at the end that fits the 60% target |
| `LogFile.FileIsNewestHistory` | web/vite.config.ts:28-70 | after every write the file is at most 1 MB and is the end, from a line start on, of everything ever appended |
| `LogFile.NewestLineKeptIff` | web/vite.config.ts:28-70 | after a write the newest line ends the file if and only if the total is at most 1 MB or the line and two more bytes fit the 60% target; otherwise the file is empty |
| `LogFile.HugeEntryEmptiesFile` | web/vite.config.ts:40-47 | so a single entry of 629144 bytes or more empties a file that passes 1 MB |

## Left out

- useMessageStore beyond the stream and the messages: model, role and metadata of a message, selecting a chat, and the request behind sendMessage with its failures. What refreshMessages leaves in the list is an input. The connection, chat list and workspace stores are not part of this model.
- The patterns that appendThinking strips from thinking: its content is given as what is left.
- message_done with a heartbeat as its content: dropped like stream_end here, though the code's heartbeat test does not name it.
- The hooks' timers as browser objects: a pending timer or frame is a flag, and firing is a step that needs it.
- Steps between a watchdog query and its answer: the code does not look at the state again, so query and answer are one step.
- Polling of two different tasks at once, and events without `_ts`, for which the cursor jumps to the local clock.
- Tool titles, skills, screenshots and durations, the merging of browser tools, step updates, plan step details, routing, recovery banners and events of other chats: they touch neither the text nor the messages.
- JSON encoding: a chunk's content is its normalised string, and tool arguments and results are given as text.
- Regular expressions: the five patterns and the boundary class are written out as tests on code units; `toLowerCase` is modelled where it can reach an ASCII letter.
- Own properties named `__proto__`, getters and inherited properties in sanitizeValue; the console, fetch and XHR interception and the unload beacon of the collector.
- A TTL map changed by its own forEach callback or between two steps of its iterator.
- I/O errors and invalid UTF-8 in the log files, and UTF-8 encoding itself: a file is its bytes.
- Security headers, input sanitizing, OAuth and cookies: easy or without state.
- React rendering, pages, internationalisation, the database, scrapers and language-model calls: thin wrappers without a deep property.
- TtlRefinement.LazyRefinesEager: assumes keys that are not empty and a maximum of at least one, because the code does not keep its bound otherwise; `SetKeepsBoundIff` is the exact condition.
- WebSocketSafety.NeverStalls: runs start with the first connect and create no socket while one closed by disconnect has yet to report, because the code keeps no invariant there; `ConnectSafeIff` is the exact condition.
- ChatStream.EndToEnd: no second stream_start may come while all of the text is in the buffer, because the code drops it; `SecondStartLosesIff` is the exact condition. A message sent by the user during the stream ends the run.
- Answers.AnswerIsCommitted: no closing event of an earlier task may come between the question and the answer's end, because it ends the stream that the question turned on; and what refreshMessages puts behind the question is excluded, because an assistant's message there brings the duplicate test back.
- ChatStream.ToolRuns: the sub-actions of a browser tool that are merged into the last one are not part of this model.
- HttpPolling.NeverAGapFromStart: the server's log has positive, strictly increasing timestamps; the cursor starts at zero and moves to the last timestamp of an answer, so events without that order have no cursor to be behind.
- TtlCleanup.CleanupInvisible: every call must be settled and the lifetime not negative, because cleanup shows otherwise; `CallShowsCleanupIff` is the exact condition for a call.
- OfflineQueue.SnapshotsAreInert: starts without a snapshot in local storage; one that is there, from elsewhere, is restored once as `OnReconnected` says.
- StreamWatchdog.StallIsResolved: a completed task's text is what the backend gave, so text of the stream that is longer is replaced by it; the contract says so case by case.
