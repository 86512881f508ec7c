# RepoPilot, verified

RepoPilot imports repositories, indexes their source, prepares search over it and answers
questions with a paid language model. Its guarantees rest on a handful of small protocols and
text algorithms. This project models them in Dafny 4.11 and proves what they promise.

`dafny verify dfyconfig.toml` checks everything.

## How the model is built

**Protocols are state machines over one shared database.** Each committed transaction of the
program is one atomic step; workers, duplicated queue deliveries, the dispatcher, the API and
deletions take steps in any order. What a worker process remembers is kept apart from the
database, so it can be stale, and a crash is a worker that takes no further step. Every step
carries its own clock reading and readings need not agree or even grow, so no safety result
depends on synchronised clocks. A reachable state is `After(steps)` for an arbitrary list of
steps, and the main results hold for all of them.

**Methods follow the program, functions say what they mean.** Where the program updates rows,
counters, buffers or stacks in place, a class or a method does the same, and its postcondition
equates the new state (or the result) with a function on values. The properties are then lemmas
about that function. A member's contract in the table below is what the member proves, not how
it is written.

**Outside systems are parameters.** JSON parsers, tokenisers, hashes, Python's own parser, the model and
embedding providers and the clock appear as arbitrary functions, arbitrary inputs or arbitrary
step arguments. Token counts are never assumed to be monotone.

| files | what they model |
|---|---|
| `Sequences`, `Options` | joining texts, optional values |
| `Transcripts` | saved question/answer pairs and their paging |
| `AnswerRuns`, `AnswerRunInvariant`, `AnswerRunWorkerSteps`, `AnswerRunRowSteps`, `AnswerRunSteps`, `AnswerRunResults`, `AnswerProvenance`, `AnswerRunEffects`, `AnswerRunProgress`, `AnswerRunStore` | the durable answer-run protocol: the steps, the invariant, its preservation by every step, the results, where published answers come from, what each transaction leaves column by column, progress, and the transactions as methods on tables |
| `EventServer`, `EventSessions`, `PreviewSessions`, `RunTimeline`, `TimelineView`, `RunReplay`, `StoredReplay`, `PreviewReplay` | replaying the event log and the preview over server-sent events: the polling loop, what a session sends, the interleaving of polls, disconnects and reconnects, what the user is shown, and all of it end to end, from the protocol's transactions on |
| `EventFraming`, `EventWire`, `FrameEnds`, `FrameLimits`, `TightFrames`, `EventClient`, `EventPayloads`, `SessionLimits` | cutting a stream into frames while it arrives, the text of a frame and its JSON, the size limits, the browser's client, and why no session exceeds its limits |
| `Leases`, `JobTable`, `JobStore` | leased import and index jobs with takeover |
| `Embedding`, `SearchPreparation`, `SearchPreparationProofs`, `SearchPreparationResults`, `SearchPreparationProgress`, `SearchPreparationEffects`, `SearchPreparationStore` | search preparation: reservations, batches, checkpoints, resumption, restarts, progress, and what each transaction leaves column by column |
| `Symbols`, `SymbolScopes`, `SymbolPlaces` | the explicit-stack symbol walker and what its list means |
| `SourceLines`, `Chunker`, `ChunkerResults`, `ChunkerLines`, `ChunkerLabels`, `ChunkerTrees` | line numbers, chunk boundaries, torn lines, and chunk labels from the symbols and from the syntax tree |
| `ProviderStream`, `ProviderDecoding`, `ProviderStreamResults`, `ProviderUsage`, `ProviderAcceptance`, `TwoDecoders` | decoding the model provider's stream within its budgets, accepting it and exactly when, accounting for its usage, and how its decoder differs from the browser's |
| `AnswerContext` | history snapshots, bounded history, the payload, citations |
| `Fusion`, `RateLimits` | rank fusion and the multi-counter rate limiter |

## Findings

- *Fragmentation.* Both stream decoders normalise the leftover buffer again on every block. They
  decode a text the same way under every division into blocks if and only if it contains no
  CR CR LF (`EventFraming.FragmentationIndependence`).
- *Size limits.* Both decoders check a frame when it is cut off and the leftover after every block,
  and the leftover may hold the frame with all of its blank line but the last character. Within
  their total budgets they therefore give the same result under every division into blocks if and
  only if, while they are still listening, they reach no frame of exactly the permitted size, nor
  one that is a UTF-16 unit (in Python, a byte) smaller when a CR precedes the last LF of its blank
  line; a frame of that size makes no difference only if nothing is passed on between it and a frame
  that is too large anyway (`FrameLimits.LimitIsExact`, `EventClient.FrameLimitIsExact`,
  `ProviderDecoding.BudgetIsExact`). Both sizes occur: whole they are accepted, cut inside the blank
  line they are refused (`EventClient.LimitDependsOnTheCut`, `EventClient.LimitDependsOnTheCutAtCr`,
  `ProviderDecoding.BudgetDependsOnTheCut`, `ProviderDecoding.BudgetDependsOnTheCutAtCr`).
- *Two decoders.* The Python decoder ignores a line that is the bare word `data`, the browser reads
  it as an empty payload line. They read the same payload from a frame if and only if it has no such
  line, or exactly one and no `data:` line (`TwoDecoders.TwoDecodersAgree`,
  `TwoDecoders.TwoDecodersDiffer`).
- *Lost usage.* A stream that ends with an event carrying credible usage reports that usage if and
  only if the event is among the first 12000 and is a completion in sequence, or an error event whose
  attached response is not itself a valid answer (`ProviderUsage.UsageIsReported`). A completion out
  of order loses it, and so does an error event with a fully valid response, whose validation result
  is dropped (`ProviderUsage.OutOfOrderLosesUsage`, `ProviderUsage.ErrorWithValidResponseLosesUsage`).
- *Two texts.* The text streamed is compared with the output it was streamed for, and the answer is read
  from the only message. Nothing makes the two the same item: a response can be accepted whose answer
  is not the text that was streamed (`ProviderAcceptance.StreamedTextMayNotBeTheAnswer`; the exact
  condition for acceptance is `ProviderAcceptance.AcceptanceIsExact`).
- *CR LF.* The chunker preserves CR LF inside chunks but its byte limit can put the two characters
  into different chunks. That happens to a line if and only if filling the limit over and over from
  the start of the line stops between the two; it never happens to a line that fits the limit with
  its line break (`ChunkerLines.CrLfIsTornExactly`, `ChunkerLines.FittingLinesAreWhole`,
  `ChunkerResults.CrLfCanBeTorn`).
- *Rate limits.* Fixed windows admit up to twice the count minus one in an interval of the limit's
  length, and every limit reaches that bound (`RateLimits.IntervalIsBounded`,
  `RateLimits.BoundIsReached`).
- *Embedding budget.* The check made before the first batch is enough: as long as a worker holds
  the lease, `reserve` never refuses it for want of budget, so its error always means a lost lease
  (`SearchPreparationResults.ReservationsNeverRunOut`).
- *Preview revisions.* The throttle allows at most 241 preview writes within the 60-second deadline,
  so the limit of 256 never stops a live run (`AnswerRunResults.PreviewLimitNeverHit`).
- *Two ends, one set of limits.* Everything the server sends over a stored run is accepted by the
  client's schemas (`StoredReplay.StoredSessionIsAccepted`), and no session reaches the client's limits
  of 64 KiB for a frame and 2 MiB for a stream, even if every character of every preview has to be
  escaped (`SessionLimits.SessionStaysWithinLimits`). So the dependence on the division found above never
  shows on this server's own streams (`SessionLimits.SessionIsRead`).

## Model

| member | source | states |
|---|---|---|
| AnswerRunResults.PublishedExactlyOnce | backend/app/jobs/answer_run.py:56-144 | in every reachable state, a completed run's question and answer stand in its own conversation exactly once, adjacent, from the source pinned at submission and with the tokens the run reports; the turn of any other stored run is in no transcript |
| AnswerRunResults.HolderPublishes | backend/app/jobs/answer_run.py:113-144 | while the lease holds and the conversation has room, publication makes status, usage, event and both messages visible in one step, the pair behind everything saved so far |
| AnswerProvenance.PublishedAnswerIsTheGivenOne | backend/app/services/answers.py:181-235 | the answer saved with a completed run has exactly the claims, limitation and status that an accepted generation call, or the search that found no evidence, handed to the run's worker, with the usage of that call; no other answer was ever handed to that worker |
| AnswerProvenance.GivenAnswerIsPublished | backend/app/jobs/answer_run.py:105-144 | an answer handed to a worker is published as it is, behind all earlier messages, whatever the others do in between, if the worker then publishes under its lease in an unlocked conversation with room |
| AnswerRunProgress.QueuedRunCanComplete | backend/app/jobs/answer_run.py:50-144 | from any reachable state, a queued run younger than an hour in an unlocked conversation with room can be brought to completion by its own worker, with any answer and any usage, and that answer is what is saved |
| AnswerRunResults.LateResultsAreFenced | backend/app/jobs/answer_run.py:118-141 | once a worker has lost its lease, because its run was finished, cancelled, failed or deleted, it publishes nothing, shows no preview, opens no receipt and fails no run, whatever steps follow and whatever clocks it reads |
| AnswerRunResults.LateWritesAreRefused | backend/app/jobs/answer_run.py:118-125 | a lease that has run out by the worker's own clock refuses its publication, preview and receipt |
| AnswerRunResults.UsageTellsTheTruth | backend/app/jobs/answer_run.py:65-77 | `usage_state` is `recorded` exactly for completed runs and `not_started` exactly for runs that no worker ever claimed |
| AnswerRunResults.EventLogIsPath | backend/app/repositories/run_event.py:10-19 | a stored run's log has the sequences 1 to n with n at most 3, starts with `queued`, ends with the stored status, and has a terminal entry only at the end |
| AnswerRunResults.LogOnlyGrows | backend/app/repositories/run_event.py:10-19 | over any continuation during which the run stays stored, its log is only extended at the end, and a finished run never changes again |
| AnswerRunResults.RowMoves | backend/app/repositories/run_event.py:10-19 | one step of any actor either leaves a stored run's status and log alone or extends the log by exactly the new status; identity fields never change |
| AnswerRunResults.PaidAtMostOnce | backend/app/services/usage_receipts.py:20-46 | no run is ever sent twice to the same kind of provider, each run has at most one receipt per kind, and every sent call is covered by its own receipt while the run is stored |
| AnswerRunResults.ReceiptPrecedesCall | backend/app/services/answers.py:161-175 | a worker about to call a provider has a committed receipt of its own for that call, still unfilled |
| AnswerRunResults.KnownReceiptsStay | backend/app/services/usage_receipts.py:48-72 | over any continuation during which a receipt stays stored, it is never overwritten once filled and never moves to another run or kind |
| AnswerRunResults.ReceiptsNeverCollide | backend/app/services/usage_receipts.py:20-46 | the unique (run, kind) index never rejects a receipt that a worker asks for |
| AnswerRunResults.CompletedUsageIsAccounted | backend/app/services/answers.py:181-203 | a completed run's token counts equal those of its generation receipt, or are zero when it has none |
| AnswerRunResults.UnknownCallsAreInFlight | backend/app/services/answer_runs.py:41-57 | a completed run has no call of unknown usage; while its worker is on its way the only such call is the one it waits for |
| AnswerRunStore.Database.CountUnknown | backend/app/services/answer_runs.py:41-57 | the usage report counts exactly the receipts of the run that were never filled in |
| AnswerRunResults.SubmissionIsIdempotent | backend/app/services/answer_runs.py:67-72 | a repeated request key is answered from the run it created, or as a conflict if the payload differs, and changes nothing |
| AnswerRunResults.SubmissionsRespectConstraints | backend/app/services/answer_runs.py:70-144 | one request key never yields two runs, at most one run of a conversation is active, at most 1000 exist, and the rollback for violated constraints is never taken |
| AnswerRunResults.PreviewLimitNeverHit | backend/app/jobs/answer_preview.py:22-50 | previews are visible only while a run is running and have at most 8000 characters, and no run reaches more than 241 revisions |
| AnswerRunResults.ClaimableOrExpired | backend/app/jobs/answer_dispatcher.py:42-59 | with one clock reading a queued run is either claimable or expired by the dispatcher, never both and never neither |
| AnswerRunResults.EveryRunSettles | backend/app/jobs/answer_dispatcher.py:18-61 | a dispatcher pass an hour and three minutes after submission leaves the run terminal, whatever happened to it |
| AnswerRunResults.OneWorkerPerRun | backend/app/jobs/answer_run.py:56-77 | a run has at most one worker for ever, and a running run is leased to it |
| AnswerRunResults.TranscriptsKeepShape | backend/app/repositories/conversation.py:55-97 | in every reachable state all transcripts have the positions 1 to an even count of at most 200, with alternating roles and shared turn ids, and no two pairs anywhere share a turn |
| AnswerRunSteps.StepKeeps | backend/app/jobs/answer_run.py:24-157 | every step of every actor keeps the whole protocol invariant |
| AnswerRunEffects.SubmissionIsDecided | backend/app/services/answer_runs.py:62-116 | a submission of the owner under a new key is accepted exactly when all seven checks pass, and otherwise refused with the code of the first that fails |
| AnswerRunEffects.AcceptedSubmissionIsStored | backend/app/services/answer_runs.py:64-136 | an accepted submission takes the conversation's lock, nothing that happens meanwhile spoils it, and committing it adds exactly one queued run with the request's columns and the source active at the check |
| AnswerRunEffects.ClaimStartsRun | backend/app/jobs/answer_run.py:56-77 | a delivery starts a queued run younger than an hour, leased to a new worker for three minutes, and changes nothing otherwise |
| AnswerRunEffects.LeaseIsExact | backend/app/jobs/answer_run.py:56-77 | the lease holds for those three minutes and for that worker alone |
| AnswerRunEffects.CancelEndsRun | backend/app/services/answer_runs.py:156-176 | a queued or running run ends as cancelled, without lease and preview and with one more log entry, and nothing else changes |
| AnswerRunEffects.FailureIsRecorded | backend/app/jobs/answer_run.py:24-47 | a failing worker ends its run with the code of its error exactly while the run is leased to it |
| AnswerRunEffects.ErrorsFailTheRun | backend/app/jobs/answer_run.py:145-157 | any error of a worker that holds the lease becomes the error of its run |
| AnswerRunEffects.DispatchEndsRuns | backend/app/jobs/answer_dispatcher.py:18-61 | a dispatcher pass fails exactly the runs whose lease has run out or that waited an hour, each with its own code |
| AnswerRunEffects.LoadPins | backend/app/jobs/answer_run.py:79-100 | a worker under its lease pins the run's own columns, or will fail the run if the configuration has changed |
| AnswerRunEffects.ReceiptIsOpened | backend/app/services/usage_receipts.py:20-46 | under the lease a receipt for the run and the kind of call is committed before the call |
| AnswerRunEffects.ReturnIsAccounted | backend/app/services/usage_receipts.py:48-72 | whatever a call returns, accepted or rejected, cancelled run or not, its receipt is filled in with the usage reported while the run is stored, and nothing else stored changes |
| AnswerRunEffects.LateWorkersStop | backend/app/jobs/answer_run.py:118-141 | without a live lease a preview or a receipt makes the worker fail and publication ends it silently, and nothing is stored |
| AnswerRunEffects.PreviewIsShown | backend/app/jobs/answer_preview.py:22-50 | under the lease a changed preview is stored one revision up, at most four times a second, and the revision limit is not in the way |
| AnswerRunEffects.ShownIsExact | backend/app/generation/preview.py:24-29 | the preview is the first 8000 characters in order, without NUL |
| AnswerRunEffects.FullConversationFailsRun | backend/app/repositories/conversation.py:59-71 | a full conversation leaves every transcript as it is and fails the run for that reason |
| AnswerRunEffects.DirectAnswerIsSaved | backend/app/repositories/conversation.py:55-97 | a question asked directly saves its pair with the given answer behind all earlier messages, unless the conversation is full, locked or gone |
| AnswerRunEffects.DeletionIsComplete | backend/app/services/conversations.py:76-83 | deleting conversations removes exactly them, their runs and those runs' receipts |
| AnswerRunStore.Database.CheckSubmission | backend/app/services/answer_runs.py:62-116 | the checks of `submit`, in their order, computed from the tables by searching and counting |
| AnswerRunStore.Database.InsertRun | backend/app/services/answer_runs.py:118-136 | inserting the run and its first event leaves the state of the submission step |
| AnswerRunStore.Database.Claim | backend/app/jobs/answer_run.py:56-77 | the conditional update and its event; a duplicate delivery changes nothing and gets no token |
| AnswerRunStore.Database.Load | backend/app/jobs/answer_run.py:79-100 | reading the run back under the token and pinning conversation, question and source |
| AnswerRunStore.Database.AppendState | backend/app/repositories/run_event.py:10-19 | clears a finished run's preview and logs its status behind the greatest sequence, leaving every other run alone |
| AnswerRunStore.Database.BeginReceipt | backend/app/services/usage_receipts.py:20-46 | a receipt under the lease, or the inactive error |
| AnswerRunStore.Database.FinishReceipt | backend/app/services/usage_receipts.py:48-72 | usage is filled in once and never recreated after deletion |
| AnswerRunStore.Database.Delta | backend/app/jobs/answer_preview.py:22-50 | throttled, fenced preview writes, capped and without NUL, that count revisions |
| AnswerRunStore.Database.Publish | backend/app/jobs/answer_run.py:113-144 | the fenced update, the pair and the event, with the roll-back when the pair cannot be appended |
| AnswerRunStore.Database.FailRun | backend/app/jobs/answer_run.py:24-47 | a failure is recorded only on the run leased to this worker |
| AnswerRunStore.Database.Cancel | backend/app/services/answer_runs.py:156-176 | cancels exactly the active runs |
| AnswerRunStore.Database.Dispatch | backend/app/jobs/answer_dispatcher.py:18-61 | the two bulk expiries with their events leave the state in which each run has expired by itself |
| Transcripts.AppendKeepsShape | backend/app/repositories/conversation.py:55-97 | appending keeps the transcript's shape, puts the pair behind everything saved, moves no message, and is refused exactly when the transcript is full |
| Transcripts.RenderedReads | backend/app/repositories/conversation.py:88-91 | the saved text is the claims in order and then the limitation, with an empty line between each two |
| Transcripts.ReadBackVisitsAllOnce | backend/app/repositories/conversation.py:43-53 | following `next_before` visits every message below the starting point exactly once, in order, for transcripts of any length |
| Transcripts.PageIsFull | backend/app/repositories/conversation.py:43-53 | a page has twenty messages unless fewer are left, and names its oldest as the next start exactly if there are older ones |
| RunTimeline.TimelineIsFaithful | backend/app/services/run_stream.py:43-107 | over any polls, disconnects and reconnects while the log grows, the accepted events are a gap-free prefix of the log, the cursor is never ahead, no gap is reported, and completion implies the whole log |
| RunTimeline.ConnectionIsSession | backend/app/services/run_stream.py:43-116 | in every reachable state, what was sent on a connection is a prefix of the server's session over the pages it read, at the cursor it carries from page to page, and the whole session once the server has closed it |
| EventSessions.TerminalPageIsLast | backend/app/services/run_stream.py:58-60 | a page marked terminal contains everything the client was missing, even when the run finished between the page's reads |
| RunTimeline.OnePollCompletes | frontend/src/features/runs/RunTimeline.tsx:23-98 | once the run has finished, one undisturbed poll completes any client from wherever it stopped |
| RunTimeline.StoredLogIsReplayable | backend/app/repositories/run_event.py:10-29 | the logs that the answer-run protocol keeps are among those replayed here, and its previews within the server's own bounds |
| EventServer.ReadPage | backend/app/services/run_stream.py:43-76 | the events past the cursor, at most three, the terminal flag over separate reads of status and events, or the cursor-ahead error |
| EventServer.Frames | backend/app/services/run_stream.py:78-116 | the polling loop computes the session; what it is, poll by poll, is PreviewSessions.PollIsAnswered |
| EventSessions.SessionLeads | backend/app/services/run_stream.py:78-116 | a session sends the log's entries behind the client's cursor, each once and in order, a control frame at most at the end, and the end of the stream only behind the whole of a finished log |
| EventSessions.CursorIsNeverAhead | backend/app/services/run_stream.py:49-57 | on no poll does the server find its cursor ahead of the greatest sequence |
| EventSessions.ControlComesLast | backend/app/services/run_stream.py:101-116 | a control frame is always the last thing sent on a connection, whatever its polls meet |
| PreviewSessions.PollIsAnswered | backend/app/services/run_stream.py:83-116 | each poll of a session sends the new events, the page's preview if it is asked for and not the one sent last, and the end of the stream or every fifth time a keep-alive; or breaks the stream off, telling an expired session from other errors; or comes after the end |
| PreviewSessions.PreviewsAreSent | backend/app/services/run_stream.py:97-100 | the previews of a session are those of the pages served, each time one differs from the one before, if previews were asked for, and otherwise none |
| PreviewSessions.ChangesAreExact | backend/app/services/run_stream.py:97-100 | the last preview sent is the last one read, and no two sent in a row are the same |
| PreviewSessions.SessionSaysGoodbye | backend/app/services/run_stream.py:101-116 | a session of 25 polls ends with the end of the stream, an error, or else the request to come back, unless the client left |
| EventFraming.FragmentationIndependence | frontend/src/features/runs/events.ts:65-71 | a text is decoded into the same frames and leftover under every division into blocks if and only if it contains no CR CR LF |
| EventFraming.CrCrLfIsFragile | backend/app/generation/openai_stream.py:37-40 | with a CR before a CR LF, cutting right behind it changes the outcome |
| EventWire.FrameRoundTrip | backend/app/services/run_stream.py:94-111 | reading a frame that the server wrote gives exactly the id, name and payload it was written from |
| EventWire.StreamSurvivesTransport | backend/app/services/run_stream.py:94-111 | whatever the blocks, the client decodes exactly the frames sent, or a prefix of them if the connection breaks anywhere |
| EventClient.Consume | frontend/src/features/runs/events.ts:53-120 | the nested loops over blocks and frames compute the specified client state |
| EventClient.FrameIsJudged | frontend/src/features/runs/events.ts:85-117 | of all frames there are, only the run's next event and a preview of the run that is not older are passed on; one that says nothing new changes nothing; any other ends the connection, each control frame and an expired session in its own way |
| FrameLimits.LimitIsExact | frontend/src/features/runs/events.ts:65-119 | for any reader that limits frames and leftovers, a text without CR CR LF is read the same way under every division into blocks if and only if it is steady |
| EventClient.FrameLimitIsExact | frontend/src/features/runs/events.ts:58-120 | within the byte limit the client's callbacks and outcome are the same under every division if and only if it reaches no frame of the permitted size, nor one a UTF-16 unit smaller with a CR before the last LF of its blank line (or makes no callback between it and a frame that is too large anyway) |
| EventClient.SilentFrameIsHarmless | frontend/src/features/runs/events.ts:68-85 | a text on which such a frame makes no difference: a comment in front of a frame that is too large |
| EventClient.ConsumeIgnoresFragmentation | frontend/src/features/runs/events.ts:58-120 | on a text whose frames leave one unit of room, two if it has CRs, every division gives the result of handling all its frames in order |
| EventClient.LimitDependsOnTheCut | frontend/src/features/runs/events.ts:68-70 | a frame of exactly the permitted size is accepted whole and refused when cut inside its blank line |
| EventClient.LimitDependsOnTheCutAtCr | frontend/src/features/runs/events.ts:68-119 | with CR LF line ends the same happens to a frame one unit smaller |
| EventClient.ReactionIsFaithful | frontend/src/features/runs/events.ts:85-117 | for every signal that the schemas accept, encoding it, decoding it and handling it is the same as reacting to the signal |
| EventClient.ConnectionDeliversPrefix | frontend/src/features/runs/events.ts:53-120 | over a connection cut anywhere and fragmented in any way, with frames below the permitted size and values within the schemas, the client behaves as if handed a prefix of the signals sent, all of them if all text arrived |
| RunReplay.TimelineUsesTheseReactions | frontend/src/features/runs/RunTimeline.tsx:26-67 | over a whole connection, the timeline's state machine ends where the decoding client does: cursor, accepted statuses, completion, gaps |
| RunReplay.StreamTells | frontend/src/features/runs/events.ts:53-120 | on any part of a session's text, in any blocks and under all limits, the client passes on the log's entries from its cursor on, without gap or repetition, reports no gap, and is done only at the end of a finished log |
| RunReplay.ReplayIsFaithful | frontend/src/features/runs/RunTimeline.tsx:18-98 | over any list of attempts to connect, from the server's polls through text, blocks, limits and reconnects to what is shown: every event handed over is the next after the cursor, the events shown are exactly the log up to it, and the loop finishes only with the whole of a finished log |
| RunReplay.ReplayShowsTheLog | frontend/src/features/runs/RunTimeline.tsx:29-60 | over the same attempts, the terminal flag is set exactly when the whole of a finished log is shown, and then no preview is |
| RunReplay.SessionIsPresentable | frontend/src/features/runs/events.ts:4-16 | every signal of a session, whatever its polls meet, is accepted by the client's schemas |
| EventPayloads.JsonIsFaithful | backend/app/services/run_stream.py:92-100 | the JSON written for events and previews stands on one line and determines the value, whatever characters are in it, so a codec as the replay results assume exists |
| SessionLimits.SessionStaysWithinLimits | frontend/src/features/runs/events.ts:62-70 | the text of a session has at most 2 MiB and each of its frames fewer than 65536 units |
| SessionLimits.SessionIsRead | frontend/src/features/runs/events.ts:53-120 | however a session's text is divided and wherever it breaks off, the client handles a prefix of its signals one by one, no limit in the way; if all of it arrives, the client has every event up to the server's cursor and ends as the session does |
| StoredReplay.PollsAreTimely | backend/app/services/run_stream.py:43-76 | whatever transactions are committed between the three reads of a page and between pages, the pages of a stored run read a growing log and previews within the server's bounds |
| StoredReplay.StoredSessionIsAccepted | backend/app/services/run_stream.py:78-116 | every frame that a session sends over a stored run is accepted by the client's schemas and handled as the signal it stands for |
| StoredReplay.StoredRunIsReplayed | frontend/src/features/runs/RunTimeline.tsx:18-98 | while any actors go on with a stored run and its event stream is opened, cut and resumed in any way, the user is shown exactly the stored log up to the cursor, and the loop finishes only when the run has, with its whole log |
| PreviewReplay.ShownIsBehind | frontend/src/features/runs/RunTimeline.tsx:51-60 | over any connections to a stored run, what is shown is never newer than what was written when the last one ended |
| PreviewReplay.RunningRunIsShown | frontend/src/features/runs/RunTimeline.tsx:26-67 | after any earlier connections, as soon as the text of a running run's pages has arrived in any blocks, the user is shown the whole log that the last page read and the preview as it was stored then, or none if the lease had run out |
| TimelineView.Timeline.Event | frontend/src/features/runs/RunTimeline.tsx:29-45 | cursor, terminal flag, back-off, preview and sorted event list after an event |
| TimelineView.Timeline.Preview | frontend/src/features/runs/RunTimeline.tsx:51-60 | a preview is shown unless it is older or the run has ended |
| TimelineView.Timeline.End | frontend/src/features/runs/RunTimeline.tsx:62-93 | what every way of losing a connection does to preview, back-off and loop |
| TimelineView.ViewIsFaithful | frontend/src/features/runs/RunTimeline.tsx:17-98 | over any number of connections the view shows every accepted event once, in order, and no preview once a terminal event has been seen |
| TimelineView.PreviewsNeverGoBack | frontend/src/features/runs/RunTimeline.tsx:51-60 | shown preview revisions never go back, over reconnects too, and the back-off stays within its bounds |
| TimelineView.BackOffDoubles | frontend/src/features/runs/RunTimeline.tsx:84-93 | the n-th interruption in a row is waited out for two, four, eight and then always fifteen seconds, and any event or orderly reconnect starts the count again |
| TimelineView.EndingsAreTold | frontend/src/features/runs/RunTimeline.tsx:62-93 | completion, an expired session and an unavailable run end the loop for good, an orderly reconnect keeps the preview and comes after a second, a limit is waited out for a minute |
| Leases.ManagementKeeps | backend/app/jobs/dispatcher.py:26-42 | recovery, cancellation, supersession and restart keep what every job row satisfies |
| Leases.NeverStuck | backend/app/jobs/dispatcher.py:26-63 | an unfinished job is claimable, waits for a deadline still ahead, or is failed by the dispatcher, and only one of the three |
| Leases.OnlyLastClaimantWrites | backend/app/jobs/state.py:70-79 | the lease condition admits only the most recent claimant, under the row's attempt number |
| Leases.TakeoverFences | backend/app/jobs/state.py:28-44 | after a takeover no earlier claimant passes the lease condition any more |
| Leases.LeaseIsExact | backend/app/jobs/state.py:44-79 | a lease holds for three minutes from its claim, for its claimant alone, and not beyond the end, restart or replacement of the job |
| JobTable.OnlyLatestClaimWrites | backend/app/jobs/state.py:23-79 | in every reachable table only the latest claim of a job can write to it |
| JobTable.TableIsConsistent | backend/app/jobs/import_repository.py:18-92 | results exist exactly for completed jobs, queued jobs are current with an attempt to spare, superseded jobs are terminal, no job is claimed more than three times, and a repository has one current job |
| JobTable.ResultsAreFinal | backend/app/jobs/index_repository.py:19-52 | a published result survives any continuation during which the repository is kept |
| JobTable.FailureIsRecorded | backend/app/jobs/import_repository.py:72-92 | under the lease a retryable failure of the first or second attempt queues the job again, half a minute later for each attempt made, any other ends it; without the lease nothing is recorded |
| JobTable.PublishedTogether | backend/app/jobs/import_repository.py:18-69 | under the lease the job is completed and its result published in one step, and otherwise nothing changes |
| JobTable.ClaimTakesLease | backend/app/jobs/state.py:31-67 | a delivery takes a current job that waits or whose worker has lost its lease, at most three times, and otherwise changes nothing |
| JobTable.CancelFreesJob | backend/app/services/repository.py:114-130 | a waiting or running job ends as cancelled and any other stays as it is |
| JobTable.DispatchFreesJobs | backend/app/jobs/dispatcher.py:26-42 | exactly the running jobs that have lost their third lease are failed |
| JobTable.ReplacementWaits | backend/app/services/repository.py:89-112 | a finished current job keeps its result but is no longer current, and a new job waits in its place; a completed one is replaced only by a rebuild, an active one never |
| JobStore.Store.ClaimJob | backend/app/jobs/state.py:23-67 | the conditional claim, with takeover of an expired lease and a token exactly when the job was claimable |
| JobStore.Store.Publish | backend/app/jobs/import_repository.py:18-69 | status and results in one fenced transaction, or the lease-lost error |
| JobStore.Store.RecordFailure | backend/app/jobs/import_repository.py:72-92 | a retryable failure before the third attempt queues the job again with a growing delay, any other fails it |
| JobStore.Store.Replace | backend/app/services/repository.py:89-112 | a finished job is superseded by a new queued one |
| JobStore.Store.Cancel | backend/app/services/repository.py:114-130 | cancels exactly the unfinished jobs |
| JobStore.Store.Dispatch | backend/app/jobs/dispatcher.py:24-42 | every job whose last attempt was lost is failed, and no other row changes |
| Embedding.BuildDocuments | backend/app/jobs/prepare_search.py:153-173 | dealing the response out with a moving offset builds exactly the specified documents |
| Embedding.FlattenParts | backend/app/jobs/prepare_search.py:134-136 | flattens the batch's parts in order |
| Embedding.DocumentsAreOwn | backend/app/jobs/prepare_search.py:153-173 | every document carries the token count and the vectors of exactly its own chunk's parts |
| Embedding.CountOfBatch | backend/app/jobs/prepare_search.py:144-152 | the token counts of a batch's documents add up to the tokens of its chunks |
| Embedding.FlattenKeepsTokens | backend/app/jobs/prepare_search.py:144-148 | the tokens sent to the provider are the tokens of the batch's chunks |
| SearchPreparationResults.PreparationIsSound | backend/app/jobs/prepare_search.py:23-190 | over all crashes, takeovers, failures and restarts: no chunk is stored twice, `documents_stored` is their number, hybrid `input_tokens` is the sum of their counts, and a completed preparation has a document for every source chunk made from that chunk's own parts |
| SearchPreparationResults.SpendingStaysInBudget | backend/app/jobs/prepare_search.py:23-41 | recorded tokens, tokens ever sent to the provider, reserved tokens and the budget are in that order, always |
| SearchPreparationResults.RequestsAreReserved | backend/app/jobs/prepare_search.py:144-145 | each request about to be sent, by a stale worker too, has a reservation of exactly its size that no other worker uses |
| SearchPreparationResults.ReservationsNeverRunOut | backend/app/jobs/prepare_search.py:110-128 | after the check of the whole plan, no reservation of a lease holder is refused for want of budget |
| SearchPreparationResults.CompletedCountsChunks | backend/app/jobs/prepare_search.py:175-190 | a completed preparation has stored as many documents as its source has chunks |
| SearchPreparationResults.ConstraintsNeverFire | backend/app/models/search.py:34-53 | the table's document constraints never reject a lease holder's checkpoint |
| SearchPreparationResults.CheckpointsSurvive | backend/app/services/search_preparation.py:69-84 | checkpointed documents, reservations and recorded usage survive any continuation during which the job stays stored, restarts included |
| SearchPreparationResults.StaleWorkersAreFenced | backend/app/jobs/prepare_search.py:50-61 | once its job is leased to another worker, or finished, cancelled, restarted or removed, none of a worker's conditional writes ever changes anything stored again, whatever steps follow and whatever clock it reads |
| SearchPreparationResults.NothingRemainsWhenDone | backend/app/jobs/prepare_search.py:106-132 | a lease holder has nothing left in its plan exactly when every chunk of the source has a document |
| SearchPreparationProgress.HolderCanComplete | backend/app/jobs/prepare_search.py:132-190 | from any reachable state in which a worker holds the lease with a plan, its own steps lead to the completed job |
| SearchPreparationProgress.ClaimableJobCanComplete | backend/app/jobs/prepare_search.py:66-190 | a claimable job, however often it was interrupted, can be resumed and completed if the remaining source fits the budget |
| SearchPreparationResults.StepKeeps | backend/app/jobs/prepare_search.py:66-229 | every step of preparation and of its management keeps the invariant |
| SearchPreparationEffects.StartPrepares | backend/app/services/search_preparation.py:43-105 | a start is refused without a trace exactly for an unknown source, an active job, an existing preparation or a denied admission; otherwise it leaves exactly one current job of the repository, waiting unclaimed for this source and mode with at least the budget asked for: the finished job of that source and mode with all it has and the greater budget, or a new empty one in place of the old |
| SearchPreparationEffects.StartedJobCanComplete | backend/app/services/search_preparation.py:43-105 | from any reachable state in which it is not refused, a start leads on to the completed preparation with a document for every chunk, whenever what remains of the source fits the budget |
| SearchPreparationEffects.AnySourceCanBePrepared | backend/app/jobs/prepare_search.py:66-190 | from the empty state, any source that fits its budget can be prepared |
| SearchPreparationEffects.JobIsRead | backend/app/jobs/prepare_search.py:78-95 | a new worker reads its job as it is, and will fail it if pipeline or profile have changed |
| SearchPreparationEffects.PlanIsDrawnUp | backend/app/jobs/prepare_search.py:96-128 | the plan is the chunks without a document in order, refused if hybrid and greater than what the budget had left |
| SearchPreparationEffects.ReservationIsExact | backend/app/jobs/prepare_search.py:23-41 | the holder reserves exactly the tokens of the next request, or nothing |
| SearchPreparationEffects.RequestIsCounted | backend/app/jobs/prepare_search.py:144-145 | a request uses up its own reservation and sends exactly its tokens |
| SearchPreparationEffects.ResponseIsDealt | backend/app/jobs/prepare_search.py:145-173 | a matching response becomes one document per chunk, of that chunk's own parts, with all values in the order received, and any other is refused |
| SearchPreparationEffects.CheckpointIsStored | backend/app/jobs/prepare_search.py:44-63 | the holder's documents are stored behind those stored before, with their number and tokens counted |
| SearchPreparationEffects.EndingFreesJob | backend/app/jobs/prepare_search.py:175-229 | under the lease the job is completed or failed, and without it nothing is recorded |
| SearchPreparationStore.Store.Start | backend/app/services/search_preparation.py:43-105 | refused while active, answered by an existing preparation, resumed in place with its reservations, or begun anew |
| SearchPreparationStore.Store.LoadDone | backend/app/jobs/prepare_search.py:96-128 | the plan is the chunks without a document, refused when it exceeds what the budget has left |
| SearchPreparationStore.Store.Reserve | backend/app/jobs/prepare_search.py:23-41 | a reservation within the budget and under the lease, or the budget error |
| SearchPreparationStore.Store.Receive | backend/app/jobs/prepare_search.py:145-173 | a response that does not match its request is refused, any other becomes the batch's documents |
| SearchPreparationStore.Store.Checkpoint | backend/app/jobs/prepare_search.py:44-63 | documents and counters in one fenced transaction, undone by a violated constraint |
| SearchPreparationStore.Store.Finish | backend/app/jobs/prepare_search.py:175-229 | completion or failure is recorded only under the lease |
| Symbols.ParsePython | backend/app/indexing/parser.py:55-118 | the explicit-stack walk gives the same symbols, or the same fallback, as the recursive preorder walk |
| SymbolScopes.FallsBackExactly | backend/app/indexing/parser.py:59-98 | symbols are listed only for a whole tree within all limits, and while no name exceeds 512 characters, nor a qualified one 2048, the walk falls back exactly when there are more than 40000 nodes |
| SymbolScopes.SymbolsAreScopes | backend/app/indexing/parser.py:64-117 | the k-th symbol has the kind and the dotted path of the k-th name's lexical scope, with scopes defined on the tree alone |
| SymbolScopes.QualifiedIsDotted | backend/app/indexing/parser.py:93-104 | a qualified name is the dotted join of the names on the way up |
| SymbolScopes.ListingOk | backend/app/indexing/parser.py:65-116 | parents come before their children and are definitions, a function directly in a class is a method, and variables are listed only for modules and classes |
| SymbolPlaces.ListingKeepsPlaces | backend/app/indexing/parser.py:89-116 | the line nesting of the tree's definitions carries over to the symbol list |
| SourceLines.LineStarts | backend/app/indexing/chunks.py:32-33 | scanning for line breaks collects exactly the line starts |
| SourceLines.BisectRight | backend/app/indexing/chunks.py:89-90 | bisection counts the entries that are at most x |
| SourceLines.BisectFindsLine | backend/app/indexing/chunks.py:84-92 | bisecting the line starts gives the true 1-based line of a position |
| Chunker.ChunkSource | backend/app/indexing/chunks.py:27-98 | the algorithm as written computes the specified chunks, or the error for a limit below four bytes |
| Chunker.FindRegions | backend/app/indexing/chunks.py:34-55 | the ancestor walk and the two exclusions compute the regions; which definitions those are is ChunkerLabels.LabelledAreEligible |
| Chunker.NextCut | backend/app/indexing/chunks.py:69-82 | the byte-counting inner loop finds the specified cut |
| Chunker.SpansCover | backend/app/indexing/chunks.py:56-66 | whatever the symbols, the spans cover the source exactly once, in order |
| ChunkerResults.ChunksJoinToSource | backend/app/indexing/chunks.py:67-98 | the chunks' texts joined together are exactly the source |
| ChunkerResults.ChunksAreContiguous | backend/app/indexing/chunks.py:67-98 | chunks are numbered, nonempty and contiguous from the first character to the last |
| ChunkerResults.ChunksFollowRule | backend/app/indexing/chunks.py:69-97 | every chunk stays within the limit, is cut from one span by the cut rule, and carries the true lines of its first and last character |
| ChunkerResults.CutRuleIsExact | backend/app/indexing/chunks.py:69-82 | the rule determines the cut: everything if it fits, else the last line break that fits, else the last character that fits |
| ChunkerLines.LinesAreCutWhenFull | backend/app/indexing/chunks.py:69-82 | for any symbols, a chunk ends inside a line exactly where filling the limit over and over from the start of the line stops |
| ChunkerLines.CrLfIsTornExactly | backend/app/indexing/chunks.py:77-82 | the CR LF of a line is torn between two chunks if and only if the position between the two is one of those stops |
| ChunkerLines.FittingLinesAreWhole | backend/app/indexing/chunks.py:77-82 | a line that fits the limit, its line break included, is never torn |
| ChunkerResults.CrLfIsTornOnlyWhenFull | backend/app/indexing/chunks.py:77-82 | the chunk that tears a CR LF is full to the byte and has no line break inside |
| ChunkerResults.CrLfCanBeTorn | backend/app/indexing/chunks.py:77-82 | an input on which it happens |
| ChunkerLabels.RegionsAreAntichain | backend/app/indexing/chunks.py:35-48 | no definition with a region lies inside another one, thanks to the parser's kinds |
| ChunkerLabels.LabelledAreEligible | backend/app/indexing/chunks.py:34-48 | regions are made for exactly the functions and methods that lie in no function, and the classes that lie in no function and directly hold no class and no method |
| ChunkerLabels.NoRegionIsDropped | backend/app/indexing/chunks.py:56-66 | on properly nested symbols each of these definitions keeps its region |
| ChunkerLabels.LabelsAreTrue | backend/app/indexing/chunks.py:67-97 | for any symbols, a label names one of these definitions, and the chunk lies within its lines |
| ChunkerLabels.DefinitionsAreLabelled | backend/app/indexing/chunks.py:27-98 | on properly nested symbols, every character on the lines of one of these definitions is in a chunk labelled with it |
| ChunkerTrees.SymbolsAreMarked | backend/app/indexing/parser.py:64-117 | the k-th symbol has the lines of the k-th name of the tree, decorators included, and is to be labelled exactly if it is an outermost function, or a class outside functions with no definition directly in it |
| ChunkerTrees.ParsedDefinitionsAreLabelled | backend/app/indexing/parser.py:48-118 | when each scope holds its definitions on separate lines of its own, every character on the lines of an outermost function, or of a class outside functions that holds no definition, is in a chunk labelled with it |
| ChunkerTrees.ParsedLabelsAreTrue | backend/app/indexing/chunks.py:67-97 | for any tree, a labelled chunk lies on the lines of such a definition |
| ChunkerTrees.FirstLineIsFirst | backend/app/indexing/parser.py:90-92 | a definition begins at the first of its own line and its decorators' |
| ProviderStream.Frames | backend/app/generation/openai_stream.py:29-54 | the decoder yields exactly the specified events and stops for the specified reason |
| ProviderStream.ConsumeStream | backend/app/generation/openai_stream.py:57-114 | result and streamed deltas are those of the acceptance state machine |
| ProviderStream.UsageSurvives | backend/app/generation/openai_payload.py:64-87 | whatever else is wrong with a response, its tokens are reported, on acceptance and on rejection alike, exactly when its usage is credible |
| ProviderStreamResults.AcceptedIsWhole | backend/app/generation/openai_stream.py:60-112 | an accepted answer ends an orderly stream of one output with strictly increasing sequence numbers, the deltas given to the sink join to the completed text, and its usage is credible |
| ProviderStreamResults.TruncationIsRefused | backend/app/generation/openai_stream.py:53-54 | an accepted stream cut anywhere before its completion event is refused |
| ProviderAcceptance.AcceptanceIsExact | backend/app/generation/openai_stream.py:91-112 | behind an acceptable beginning of fewer than 12000 events, a completion in sequence returns the draft with these tokens if and only if status, model and usage are right, the only message is the assistant's, completed, with a single text that reads as the draft, and the deltas, all of one output, join to the completed text of that output |
| ProviderAcceptance.RefusalIsExact | backend/app/generation/openai_payload.py:48-60 | and a refusal if and only if status, model and usage are right and the only message has a single refusal |
| ProviderAcceptance.RejectionIsExact | backend/app/generation/openai_payload.py:64-87 | a completion that is not accepted is incomplete if the response says so and otherwise invalid, with its tokens charged exactly when they can be trusted |
| ProviderAcceptance.UnfinishedIsRefused | backend/app/generation/openai_stream.py:53-54 | a stream that only begins acceptably has handed on all its deltas and is incomplete, or invalid at a broken budget or payload |
| ProviderAcceptance.CredibleIsExact | backend/app/generation/openai_payload.py:67-74 | usage is trusted exactly if it is that of the model asked for, adds up and keeps to the cap |
| ProviderAcceptance.StreamedTextMayNotBeTheAnswer | backend/app/generation/openai_stream.py:93-106 | an accepted stream whose streamed text is not the answer |
| ProviderUsage.UsageIsReported | backend/app/generation/openai_stream.py:64-112 | over whole streams: the usage carried by the event that ends a stream is reported if and only if the event is among the first 12000 and is a completion in sequence, or an error event whose attached response is not itself valid |
| ProviderUsage.AcceptableIsExact | backend/app/generation/openai_stream.py:64-90 | the events read without stopping are exactly the orderly beginnings of at most 12000 events and 64 KiB of text |
| ProviderUsage.OutOfOrderLosesUsage | backend/app/generation/openai_stream.py:78-79 | a stream on which a completion out of order loses its usage |
| ProviderUsage.ErrorWithValidResponseLosesUsage | backend/app/generation/openai_stream.py:68-76 | a stream on which an error event loses the usage of a valid response |
| ProviderDecoding.BudgetIsExact | backend/app/generation/openai_stream.py:29-54 | within the total budget, a text without CR CR LF gives the same events and the same stop under every division if and only if the decoder reaches no event of exactly the permitted size, nor one a byte smaller with a CR before the last LF of its blank line (or yields nothing between it and one that is too large) |
| ProviderDecoding.DecodingIgnoresFragmentation | backend/app/generation/openai_stream.py:29-54 | two deliveries of such a text give the same events, deltas and result |
| ProviderDecoding.RoomyTextIsParsed | backend/app/generation/openai_stream.py:39-52 | a text whose events leave room for their blank lines is never over budget, however delivered: the payloads of its frames come out in order, up to the first that is no JSON object |
| ProviderDecoding.BudgetDependsOnTheCut | backend/app/generation/openai_stream.py:39-52 | an event of exactly the permitted size is accepted whole and over budget when cut inside its blank line |
| ProviderDecoding.BudgetDependsOnTheCutAtCr | backend/app/generation/openai_stream.py:38-52 | with CR LF line ends the same happens to an event one byte smaller |
| TwoDecoders.TwoDecodersAgree | backend/app/generation/openai_stream.py:43-45 | the provider decoder and the browser decoder read the same payload from a frame if and only if it has no bare `data` line, or exactly one and no `data:` line |
| TwoDecoders.TwoDecodersDiffer | frontend/src/features/runs/events.ts:74-84 | a frame that they read differently |
| AnswerContext.BoundedHistory | backend/app/generation/history.py:31-39 | the loop computes the specified bounded history |
| AnswerContext.BoundedIsLongest | backend/app/generation/history.py:31-39 | the bounded history is the longest list of at most three newest turns within 1000 tokens and 8192 bytes |
| AnswerContext.BoundedIsStable | backend/app/generation/history.py:31-39 | bounding twice is bounding once, so a history stored at submission reaches the worker unchanged |
| AnswerContext.BuildContext | backend/app/generation/context.py:16-37 | the loop computes the specified selection or the context-limit error |
| AnswerContext.ContextIsLongest | backend/app/generation/context.py:16-37 | the payload takes the longest suffix of the stored history that lets it fit, and fails only if none does, the empty one included |
| AnswerContext.SnapshotHistory | backend/app/repositories/conversation_history.py:12-46 | the loop over row pairs with its early break computes the specified snapshot |
| AnswerContext.SnapshotIsConsecutive | backend/app/repositories/conversation_history.py:12-46 | on a well-shaped transcript the snapshot is the newest m consecutive answered pairs of one source, oldest first, where m is the greatest number up to three for which all these pairs may be quoted and together fit |
| AnswerContext.RetrievalQuestionFits | backend/app/generation/history.py:42-47 | the query is the question, with the previous one behind it on its own line as far as 512 characters reach, or alone if it leaves no room |
| AnswerContext.ValidateCitations | backend/app/generation/context.py:44-56 | citations pass exactly when evidence ids are distinct and every claim cites distinct existing ones |
| Fusion.Fuse | backend/app/retrieval/ranking.py:12-24 | the dictionary loops and the stable sort compute the specified ranking |
| Fusion.RankingIsComplete | backend/app/retrieval/ranking.py:15-18 | the ranking holds exactly the chunks that some channel returned, each once |
| Fusion.DominantComesFirst | backend/app/retrieval/ranking.py:15-23 | a chunk ranked no worse in every channel and better in one comes first |
| Fusion.LimitIsPrefix | backend/app/retrieval/ranking.py:19-24 | a smaller limit gives a prefix |
| Fusion.RankingIsExact | backend/app/retrieval/ranking.py:12-24 | each chunk returned has as its score the sum of 1 / (60 + place) over the channels that found it, and its place in each of them, a list counting every chunk once; greater scores come first, and of equal ones the smaller tie key |
| RateLimits.Redis.Eval | backend/app/core/rate_limits.py:22-33 | the script admits exactly when every counter is below its limit and leaves the specified store |
| RateLimits.CheckIsAllOrNothing | backend/app/core/rate_limits.py:22-33 | a denied check changes no counter, an admitted one raises exactly the named counters by one |
| RateLimits.EveryCounterExpires | backend/app/core/rate_limits.py:28-31 | no reachable store holds a counter without an expiry |
| RateLimits.IntervalIsBounded | backend/app/core/rate_limits.py:22-33 | any interval of a limit's length admits fewer than twice its count |
| RateLimits.BoundIsReached | backend/app/core/rate_limits.py:22-33 | for every limit, a run of checks that reaches the bound |

## Left out

- HTTP routes, authentication, sessions, CSRF, logging, settings, migrations and the React components other than the reconnect loop: thin wrappers; a caller is an already authorised user.
- GitHub, OpenAI, PostgreSQL, Redis and Celery themselves: a provider's answer is a step argument, a committed transaction is one step, the rate-limit script is one step of a store with fixed-window counters that are gone at their expiry.
- JSON parsers, SHA-256, tokenisers and `ast.parse`: arbitrary functions (of the client's parser the replay asks that it reads back what the server writes, for values within the schemas), or a given syntax tree; signatures, docstrings and content hashes are not modelled.
- UTF-8 decoding of blocks: the decoders are given text blocks with their byte counts.
- AnswerRunStore.Database.CheckSubmission: enabled settings, the active index, prepared modes and the limiter's verdict are inputs; the history stored with a run is modelled apart, in AnswerContext.
- AnswerRunStore.Database.InsertRun: the stored history, the configuration hash and the model columns are not part of the row; history is modelled in AnswerContext.
- AnswerRunStore.Database.Load: whether history and configuration still agree is an input.
- AnswerRunStore.Database.CountUnknown: the known cost and the list of receipts in the usage report are not modelled.
- AnswerRunStore.Database.Dispatch: the selection of runs to deliver again (30 seconds, 50 at a time) is not modelled; deliveries may come at any time instead.
- AnswerRunStore.Database.Delta: the process clock is an argument, and the 60-second deadline appears as the last tick at which a delta can arrive; the extraction of preview text from partial JSON, up to the removal of NUL and the cap of 8000 characters, is an argument too, and the limit on the raw text is not modelled.
- AnswerRunResults.EveryRunSettles: assumes the dispatcher runs; its schedule is not modelled.
- JobStore.Store.RecordFailure: the redelivery bookkeeping and the error columns are not modelled because no modelled step reads them.
- JobStore.Store.Replace: quotas, limits and the check that the import is complete are taken as passed; for an index, the repository stands for the pair of repository and import.
- Search sources: `source` stands for a source index together with the pipeline version and provider profile that a job must match; weighted averaging of vectors is not modelled, only which vectors of which parts go into a document.
- SearchPreparationStore.Store.Start: index availability, enabled embeddings and the limiter's verdict are inputs.
- Symbols.ParsePython: syntax errors and parser depth are decided before the walk and are not part of this model.
- ChunkerLabels.DefinitionsAreLabelled: asks for properly nested symbols, which Python's grammar gives for real files; on arbitrary symbol lists a region that begins inside a kept one is dropped, and only the partition, the cut rule and LabelsAreTrue hold.
- ProviderDecoding.BudgetIsExact: is stated within the total byte budget of a stream; beyond it, how much is decoded before the budget is noticed depends on the blocks. The same holds for EventClient.FrameLimitIsExact.
- RateLimits.CheckIsAllOrNothing: asks for distinct keys and positive window lengths, as all callers have; the in-memory test double is not modelled.
- TimelineView.Timeline.Event: callbacks after the component is gone are ignored by the program and are not modelled; timers are the `delay` they would be set to.
- Costs and prices: simple products of modelled token counts.
- Reading archives, the file and symbol listings, and the evaluation scripts: input and output or counting.
