# Conversation stream, ingestion, analytics and approval: a Dafny model

This project models the parts of the repository whose correctness is a matter of
interleavings and arithmetic, and proves what they promise.

**The conversation stream hub** (`internal/convstream`). A session publishes events into a
bounded replay log that is compacted by supersession keys and trimmed from the front; a
reconnecting client folds the replay over the state it has. Beside the log there are the
prompt overlay, the in-flight content reducer with its UTF-16 offsets, the turn and status
machine with its settle reader, the subscribers, and the ledger that lays unconfirmed
streamed content over stored history.

- `Utf16`, `Events`, `StreamContent`, `Client`, `DeltaConvergence`, `OverlappingReplay`: texts, the
  content reducer, the client reducer, convergence of deltas and idempotence of overlapping
  replays. `Arithmetic` holds what several modules compute with.
- `ReplayLog`, `CompactedReplay`: the log in place, and the theorem that a compacted replay is exact.
- `SessionModel`, `SessionRuns`, `SessionEffects`, `ClientContent`: the session as a state machine
  with the ledger of its content, its safety in every run, what each event and connection makes of
  it, and what a client greeted by it goes on showing.
- `Subscribers`, `Session`: what a subscriber is given, and the locked operations in place, each
  proved to do what the state machine does.
- `LedgerModel`, `LedgerEffects`, `ComposedRows`, `LedgerRuns`: the ledger's operations as functions,
  what each makes of every row, what a composed read shows of it, and the ticket protocol.
- `BuiltContent`, `LostText`: what the stream built against what a read shows, and a run that
  loses text.
- `RemovedRows`, `RemovedRuns`: when removed rows stay removed, and the runs in which they do not.
- `Ledger`, `LedgerCompose`: the ledger and the composition in place.

**Auto-approve** (`internal/autoapprove`): `Tee` is the incremental event stream parser (a looser
form of section 9.2.6 of the WHATWG HTML Living Standard), `Judges` the claim table.

**Analytics** (`internal/db`, `internal/analyticsdata`): `Sorting`, `Concurrency`, `Runtime` and
`History` are the interval sweeps, the bucketed peaks, the run hours and the hour rollups with
their cache, each against a definition by instants or by single facts.

**Ingestion** (`internal/conversationingest`): `Feed` is the change feed's coalescing, `Refresh` the
read tickets and their waiters, `Backfill` the duty limiter.

Where the source works on fields in place, the model is a class whose methods are tied to
functions of the old state; the theorems are about those functions and about runs of them.

What the code does differently from what one could expect, and what the model follows:

- A cold hello leaves out the judge of a prompt the source judged and did not ask
  (`SessionRuns.HelloLeavesJudgeOut`).
- A delta for a part whose confirmation was purged is dropped and does not unsettle its message:
  its text is missing from reads until history stores it (`BuiltContent.NothingLost` is the exact
  condition, `LostText.TextLost` a run).
- A newest page that merely does not reach a removed row clears its tombstone although history
  still stores the row, and so does a read that queried before history stored it; a tombstone too
  old is dropped all the same, and history may take a row in after its tombstone went. Each brings
  the row back (`RemovedRows.NothingResurrected` is the exact condition, `RemovedRuns` the runs).
- A refused delta still takes a removed part's tombstone away (`RemovedRows.RefusedDeltaUnburies`).
- A deletion reported before a request, and applied after it, answers that request as not found
  (`Refresh.NotFoundFollows` is the exact condition, `Refresh.DeletionReportedEarlier` a run).
- A named read whose checkpoint is current validates requests made inside it without storing what
  it read (`Refresh.StoredUnlessRaced`, `Refresh.ApprovalAnswers`, `Refresh.ApprovedUnstored`).
- A verdict recorded between a resumption and the release of the running judge keeps the
  permission from starting over (`Judges.ResumedClaims`).
- The probe of the dashboard cache counts requests of every directory and filter, so a window that
  would still be exact can be loaded again (`History.DashboardCache.Find`).
- An overflow of the event parser drops the rest of its buffer, so its effect depends on the
  writes (`Tee.OverflowDependsOnWrites`).
- A replay over its own result changes the state when it reaches a delta that had been refused
  (`OverlappingReplay.OverlapIsIdempotent` is the exact condition, `GapBreaksIdempotence` a run).

## Model

| member | source | states |
|---|---|---|
| Utf16.UTF16Len | internal/convevents/content.go:66-72 | The loop over runes returns the number of UTF-16 code units of the encoded string (RFC 2781, section 2.1). |
| Utf16.DecodeEncode | internal/convstream/overlay.go:162-183 | Encoding a string to UTF-16 and decoding it gives the string back. |
| Utf16.UnitsDecode | internal/convstream/overlay.go:173-180 | Decoding keeps the length in code units even of a unit sequence cut inside a surrogate pair, which is why the counter stays exact. |
| Utf16.CutTail | internal/convstream/overlay.go:173-180 | Cutting an encoded text at any unit: on a scalar boundary the tail is the rest of the text, inside a pair exactly one replacement character stands for the half that is left. |
| StreamContent.StripRender | internal/convstream/overlay.go:250-329 | Stripping the streamed values of a part and writing them back gives the original data. |
| StreamContent.RenderKeeps | internal/convstream/overlay.go:289-329 | Rendering never shows a streamed field shorter than it was built nor shorter than the stored data holds it. |
| StreamContent.ApplyUnits | internal/convstream/overlay.go:92-101 | No event, well formed or not, makes the unit counter of a field differ from its UTF-16 length. |
| StreamContent.ApplyKeyed | internal/convstream/overlay.go:122-198 | Every message and part stays stored under its own id. |
| StreamContent.UpsertApplied | internal/convstream/overlay.go:132-158 | What a part upsert leaves, field by field: the row is the one sent with its streamed values taken out; a value it states stands unless it is not final and the one in place is longer; a value it does not state stays unless it is final. |
| StreamContent.DeltaApplied | internal/convstream/overlay.go:162-183 | A delta changes one field of a held part: it is appended at the end, and changes nothing past a gap or within what is built. |
| StreamContent.RemovalApplied | internal/convstream/overlay.go:122-198 | A removed message goes with exactly its parts, a removed part alone; a message row replaces its own and no other. |
| StreamContent.Inflight.Message | internal/convstream/overlay.go:122-130 | A message is inserted or replaced in place; a new one is listed last. |
| StreamContent.Inflight.Upsert | internal/convstream/overlay.go:132-158 | A part upsert keeps a longer streamed value unless it is final, and the order of first insertion. |
| StreamContent.Inflight.Delta | internal/convstream/overlay.go:162-183 | A delta is refused past a gap and for an unknown part, and otherwise appends only what reaches past the built length. |
| StreamContent.Inflight.RemoveMessage | internal/convstream/overlay.go:185-193 | Removing a message removes its parts with it, and nothing else; what stays is listed in the order it was. |
| StreamContent.Inflight.RemovePart | internal/convstream/overlay.go:195-198 | Removing a part removes that part only, and the others stay in order. |
| StreamContent.Without | internal/convstream/overlay.go:200-207 | Removing an id from an order list keeps the other ids in their order. |
| StreamContent.Inflight.Snapshot | internal/convstream/overlay.go:209-221 | The snapshot lists the held messages and rendered parts in insertion order. |
| DeltaConvergence.OverlapAligned | internal/convstream/overlay.go:173-180 | Between scalar-aligned pieces of one text, the overlap cut never splits a surrogate pair. |
| DeltaConvergence.SliceStep | internal/convstream/overlay.go:162-183 | A scalar-aligned slice of a text extends a prefix of it to the end of the slice, or is refused when there is a gap. |
| DeltaConvergence.RunKeepsPrefix | internal/convstream/overlay.go:132-183 | In any order and with any repeats of deltas and upserts that restate one text, the field stays a prefix of that text; without a final upsert or a removal it never shrinks. |
| DeltaConvergence.GaplessRun | internal/convstream/overlay.go:132-183 | Pieces that arrive without a gap build the text exactly up to the farthest of them. |
| DeltaConvergence.DeliveriesConverge | internal/convstream/overlay.go:160-183 | Two gapless deliveries of the same pieces, in any order and with any repeats, end in the same field. |
| ReplayLog.SessionLog.Next | internal/convstream/log.go:51-54 | Sequence numbers are reserved one by one. |
| ReplayLog.SessionLog.Append | internal/convstream/log.go:58-75 | Entries under a superseded key are emptied, the new entry is registered, the log is trimmed and repacked; the byte difference is returned, the index, byte, live and dropped counters match the entries again, and the log is within its bounds, its length at most max(live + 63, 2 * live). |
| ReplayLog.SessionLog.Index | internal/convstream/log.go:77-83 | Binary search finds the entry of a number exactly when there is one. |
| ReplayLog.SessionLog.Drop | internal/convstream/log.go:85-95 | The entry of a number is emptied in place and its counters adjusted; every other entry is untouched. |
| ReplayLog.SessionLog.Trim | internal/convstream/log.go:99-110 | Past a bound the oldest entries are evicted to 90 percent of it, the floor moves with them, and the bounds hold afterwards. |
| ReplayLog.SessionLog.Evict | internal/convstream/log.go:112-134 | Evicting the oldest entry removes its number from the index and moves the floor only for a live entry. |
| ReplayLog.EvictCountMinimal | internal/convstream/log.go:99-110 | Trimming evicts no entry more than its targets require. |
| ReplayLog.TrimmedIs | internal/convstream/log.go:99-110 | Within both bounds nothing is evicted; past one, just so many of the oldest entries that the rest is within 90 percent of both. |
| ReplayLog.FloorIs | internal/convstream/log.go:112-134 | The floor after an eviction is the number of the newest live entry evicted. |
| ReplayLog.RepackedIs | internal/convstream/log.go:137-148 | Dropped entries leave the slice only once they are 64 and at least half of it, and then all of them do. |
| ReplayLog.SessionLog.Repack | internal/convstream/log.go:137-148 | Dropped entries leave the slice only once they are many; the bytes, the live count and every live entry stay. |
| ReplayLog.LiveOnlyCounts | internal/convstream/log.go:137-148 | Repacking changes no counter but the dropped one and no key's numbers. |
| ReplayLog.SessionLog.Replay | internal/convstream/log.go:156-165 | A replay is exactly the live entries after the cursor, in order. |
| CompactedReplay.KeyedStep | internal/convstream/session.go:206-231 | An event registered under a compaction key changes only the slice of client state that key names. |
| CompactedReplay.Supersession | internal/convstream/session.go:206-231 | A superseding event gives the same client whatever its slice held before, for every pair of states that agree elsewhere. |
| CompactedReplay.SupersedesExactly | internal/convstream/session.go:206-231 | A registered event supersedes the events of its key exactly when its effect does not depend on theirs: two clients that differ in that slice alone tell every other one apart. |
| CompactedReplay.Registered | internal/convstream/session.go:206-231 | Which events are registered under which key; of the others only a resolution supersedes, namely what was said of its prompt. |
| CompactedReplay.EraseSuperseded | internal/convstream/session.go:206-231 | Folding a run, or the run without the events its last event supersedes, gives the same client. |
| CompactedReplay.RunValid | internal/convstream/log.go:27-148 | In every run of publishes and trims the entries stay in increasing order above the floor, and each live entry carries the key of its own event. |
| CompactedReplay.TrimKeepsReplay | internal/convstream/log.go:99-134 | Trimming changes no replay from a cursor that is still resumable afterwards. |
| CompactedReplay.RepackKeepsReplay | internal/convstream/log.go:137-148 | Repacking changes no replay. |
| CompactedReplay.DropErases | internal/convstream/log.go:58-75 | Emptying the entries of superseded keys erases from each replay exactly the events registered under them. |
| CompactedReplay.CompactedReplayIsExact | internal/convstream/log.go:58-165 | For every run, every resumable cursor and every client there, folding the compacted replay gives the client that folding every event published after the cursor gives. |
| CompactedReplay.UnkeyedEventsReplay | internal/convstream/log.go:58-165 | Compaction loses no unkeyed event: each resumable replay holds each of them once and in order. |
| OverlappingReplay.PartIdempotent | internal/convstream/overlay.go:132-198 | Folding a run over the part it ended with leaves the part as it is if and only if the run resets the part, or each of its deltas ends within its field or starts past it; with or without refused deltas. |
| OverlappingReplay.OverlapIsIdempotent | internal/convstream/hub.go:333-357 | Folding a run again over its own result changes nothing, so that a read may take its cursor before it captures content, if and only if for each part the run resets it or each delta of it ends within its field of the result or starts past it. |
| OverlappingReplay.AcceptedSettles | internal/convstream/overlay.go:162-183 | Every run in which no delta was refused is such a run. |
| OverlappingReplay.GapBreaksIdempotence | internal/convstream/overlay.go:162-183 | A concrete run with a refused delta that a later upsert closes the gap of: replaying it does change the state. |
| OverlappingReplay.ReplayedDelta | internal/convstream/overlay.go:162-183 | Folding a delta changes nothing exactly where the client lacks the part, or its field already reaches the end of the delta or still does not reach its offset. |
| OverlappingReplay.ResolvedStays | internal/convstream/overlay.go:30-58 | Once resolved, a prompt is neither open nor judged in the client after any further events. |
| OverlappingReplay.LastTwice | internal/convstream/hub.go:333-357 | Setting the same sequence of values again ends in the same value, from any start. |
| SessionRuns.SessionIsSafe | internal/convstream/status.go:59-213 | In every run of source, hub and settle-reader steps: a turn is never open and pending its end at once, turn edges alternate and start with an end only for a session seeded busy, a resolved prompt is never asked, judged or resolved again in its epoch, the last emitted status is the effective one and what a client folds, an open prompt means waiting, and at most one settle reader runs. |
| SessionRuns.RunKeeps | internal/convstream/status.go:59-213 | The session invariant (trace, levels, settle requests) survives every run. |
| SessionRuns.EdgesAlternate | internal/convstream/status.go:146-165 | Neighbouring turn edges are of different kinds, and the first is an end exactly if a turn was open. |
| SessionRuns.ResolvedForGood | internal/convstream/overlay.go:30-58 | After a resolution is published, no later event of the epoch asks, judges or resolves that prompt. |
| SessionRuns.ConnectKeeps | internal/convstream/session.go:65-106 | A connection opens an epoch that satisfies the invariant, whatever it seeds. |
| SessionEffects.ConnectionOpens | internal/convstream/session.go:65-106 | In every run a connection opens an epoch on its seed: open are exactly the seeded prompts, each as seeded last, in the order of their ids, and nothing is judged or resolved; the session waits if one was seeded; the background is the seed's or the one kept and the queue is kept; the level is the seeded status, every field stated, or a provisional done; a turn is open exactly for a seeded busy; a greeting shows it. |
| SessionRuns.HandleKeeps | internal/convstream/status.go:168-213 | Handling any source event keeps the invariant. |
| SessionRuns.FinishKeeps | internal/convstream/settle.go:61-74 | Finishing a settle read, of any result and at any time, keeps the invariant. |
| SessionRuns.OvertakenReadIsSilent | internal/convstream/settle.go:61-74 | A settle read overtaken by a newer edge, or asked for another connection, publishes nothing and changes no level. |
| SessionRuns.SettleOnlyLifts | internal/convstream/status.go:105-125 | A settle result changes the base status only where an idle edge left it provisional. |
| SessionEffects.LevelObserved | internal/convstream/status.go:75-88 | A status that is no idle edge becomes the level, every field stated; while a prompt is open the session waits. Busy opens a turn and ends one pending its end; done, error and interrupted end the turn with that outcome and settle the content; what is published, and in which order, follows from that. |
| SessionEffects.LevelShownToClients | internal/convstream/status.go:59-88 | That level, or waiting, is what a client that folds the epoch shows. |
| SessionEffects.IdleObserved | internal/convstream/status.go:92-101 | An idle edge leaves a provisional done and a turn pending its end, and asks for a settle read of its generation; where none can be read the turn ends as done at once. |
| SessionEffects.SettleObserved | internal/convstream/status.go:105-144 | The reader of the newest edge ends a pending turn with the kind it read, done when it knows none or waits, and a provisional level becomes that kind. |
| SessionEffects.PromptObserved | internal/convstream/status.go:183-194 | A prompt asked opens in the place of the one it repeats, or last, and one resolved closes with its judge for good; each is published before the level, which is waiting while one is open and the one beneath after the last. |
| SessionEffects.EventObserved | internal/convstream/status.go:195-213 | Any other event is published once and changes only its own part of the state; a judge of a resolved prompt, a background already shown and a control event are not published. |
| SessionEffects.LateEventsIgnored | internal/convstream/source.go:126-162 | A closed sink, one that is not the newest, and a detached session change nothing. |
| SessionEffects.WatchEndCloses | internal/convstream/source.go:69-131 | The end of a watch closes its sink and the next starts a new generation; the session shows that it is not live. |
| SessionEffects.StopVoids | internal/convstream/settle.go:21-74 | Stopped workers start no settle read, and what one still returns is void. |
| SessionRuns.NewestEdgeEndsTurn | internal/convstream/settle.go:42-74 | While connected with a turn pending its end, the reader that asked for the newest edge ends the turn with its outcome, and any other reader goes on with that request. |
| SessionRuns.HelloShows | internal/convstream/overlay.go:60-70 | A cold hello shows a client the overlay of the session, except for judges of prompts that are not open. |
| SessionRuns.HelloIsWhole | internal/convstream/overlay.go:60-70 | A hello restates every judge exactly when each prompt the epoch judged was also asked in it, or is resolved. |
| SessionRuns.HelloLeavesJudgeOut | internal/convstream/status.go:195-199 | A contracted run in which a source judges a prompt it has not asked: the client attached before shows the judge, and a hello sent afterwards leaves it out. |
| ClientContent.GreetedFollows | internal/convstream/session.go:108-122 | A greeting gives a client the content of the ledger, every message and every field text for text. |
| ClientContent.FollowsApply | internal/convstream/overlay.go:122-198 | A client that holds all the ledger holds, no field shorter, still does after both fold any one event. |
| ClientContent.StepExtends | internal/convstream/status.go:75-213 | Every step of an epoch leaves the ledger with what the published events make of it, less what reads, the budget or a rewrite took out. |
| ClientContent.RunFollows | internal/convstream/session.go:137-146 | Over any steps of an epoch, folding what is published keeps a client holding the messages the ledger holds, its parts with no field shorter, and the same texts but for parts the ledger gave up on the way. |
| ClientContent.ClientFollows | internal/convstream/session.go:137-146 | A client that shows the session, overlay and content, and folds everything its epoch publishes from then on shows it at every later moment. |
| ClientContent.GreetedClientFollows | internal/convstream/session.go:108-146 | The same from a new session over any ledger: greeted at any moment of any contracted run, a client that folds the rest of the epoch shows the session. |
| Subscribers.PublishedSent | internal/convstream/session.go:137-156 | Publishing keeps a subscriber with room continuous: its frames stay everything logged since it attached. |
| Subscribers.PublishContinuous | internal/convstream/session.go:137-156 | A publish and the trim it may cause leave every remaining subscriber continuous. |
| Subscribers.ControlFanned | internal/convstream/session.go:160-164 | A control frame moves no cursor and adds nothing to what was logged to anyone. |
| Subscribers.AttachContinuous | internal/convstream/session.go:108-122 | A subscriber greeted at the newest number, or resumed at a retained cursor with its replay, starts without a gap. |
| Subscribers.NoSilentGap | internal/convstream/session.go:108-156 | From attach on, folding the replay and the frames sent gives exactly what folding every event published after the cursor gives. |
| Subscribers.FramesInOrder | internal/convstream/session.go:137-156 | The logged frames of a subscriber have increasing numbers above its cursor. |
| Subscribers.FannedNumbered | internal/convstream/session.go:124-156 | Fan-out keeps every subscription number accounted for as live, reset or closed, and resets as slow only one whose buffer is full. |
| Subscribers.SessionStatusesAbsolute | internal/convstream/status.go:32-39 | What the status machine publishes meets the replay theorem's hypothesis: every status is absolute. |
| Subscribers.SubscriberShows | internal/convstream/session.go:108-156 | A subscriber greeted with the overlay and the content of the ledger, and folding its frames, shows what the session shows after any steps of its epoch: the overlay but for the judges its hello left out, and all the content its ledger holds. |
| Session.Session.FanoutLocked | internal/convstream/session.go:148-156 | Every subscriber with room gets the frame, and every full one is reset instead of skipping it. |
| Session.FannedRoom | internal/convstream/session.go:148-156 | A subscriber has room below 256 frames it has not taken, and then gets the frame at the end of them; any other is reset as slow. |
| Session.Session.Account | internal/convstream/hub.go:412-419 | The hub total moves by the size change; exactly past the cap the log is trimmed, to half the bytes it held; the share of other sessions is untouched. |
| Session.Session.LogLocked | internal/convstream/session.go:137-146 | An event is logged under the next number unless it cannot be encoded; the log stays the run of its operations. |
| Session.Session.PublishLocked | internal/convstream/session.go:137-156 | Publishing logs and fans out one frame: either nothing can be encoded and no subscriber changes, or each gets the frame or is reset; all stay continuous and the hub total stays exact. |
| Session.Session.EmitStatusLocked | internal/convstream/status.go:66-73 | Only a changed effective status is published. |
| Session.Session.StartTurnLocked | internal/convstream/status.go:146-156 | A pending end is published before a new turn starts, and a running turn starts no other. |
| Session.Session.EndTurnLocked | internal/convstream/status.go:158-165 | An open or pending turn ends once with the outcome. |
| Session.Session.SettledLocked | internal/convstream/status.go:105-125 | A settled read of the current generation ends the pending turn, settles the content unless the session waits, and lifts a provisional level; any other is ignored. |
| Session.Session.IdleLocked | internal/convstream/status.go:92-101 | An idle edge leaves a turn pending its end under a provisional level, settles the content and asks for a settle read. |
| Session.Session.OnStatusLocked | internal/convstream/status.go:75-88 | A source status becomes turn edges and an absolute level, and an ended turn settles the content. |
| Session.Session.HandleLocked | internal/convstream/status.go:168-213 | The in-place handler agrees with the session model on every event. |
| Session.Session.ScheduleSettleLocked | internal/convstream/settle.go:21-40 | A request replaces the pending one and starts a reader only when none runs. |
| Session.Session.FinishSettlementLocked | internal/convstream/settle.go:42-74 | The reader's loop turn agrees with the model: go on with a newer request, or apply a current result and stop. |
| Session.Session.Greeting | internal/convstream/overlay.go:60-70 | The greeting restates status, prompts in order, judges of open prompts, background, queue and the content of the ledger. |
| Session.Session.AttachLocked | internal/convstream/session.go:108-122 | A subscriber resumes exactly when its cursor is of this epoch and retained, and otherwise is greeted at the newest number. |
| Session.Session.ControlLocked | internal/convstream/session.go:160-164 | A control frame reaches every subscriber with room and is not logged. |
| Session.Session.Take | internal/convstream/hub.go:429-446 | A consumer takes its frames in order. |
| Session.Session.Close | internal/convstream/hub.go:455-462 | A consumer that leaves is no longer served. |
| Session.Session.Subscribe | internal/convstream/hub.go:91-183 | Before the first connection a subscriber waits; afterwards it is attached at once. |
| Session.Session.ResetLocked | internal/convstream/session.go:65-79 | A reconnect resets every subscriber, empties the log under a new epoch, returns its bytes and keeps background and queue. |
| Session.Session.ArriveLocked | internal/convstream/session.go:65-106 | The seed decides status, turn, prompts and background of the new epoch. |
| Session.Session.ConnectLocked | internal/convstream/session.go:65-106 | A connection agrees with the model, and exactly the waiters of the first connection are attached, before any frame of the epoch. |
| Session.Session.NewSink | internal/convstream/source.go:126-131 | Each connection gets a generation of its own. |
| Session.Session.Connected | internal/convstream/source.go:135-150 | A late or repeated connect of an ended connection changes nothing. |
| Session.Session.Emit | internal/convstream/source.go:152-162 | Events of a stale sink change nothing; others are handled. |
| Session.Session.Publish | internal/convstream/hub.go:367-379 | A synthetic event reaches only a stream that has connected. |
| Session.Session.WatchEnded | internal/convstream/source.go:69-107 | The end of a connection closes its sink and tells a failure as a control frame at the current cursor. |
| Session.Session.Detach | internal/convstream/hub.go:212-232 | Detaching returns exactly the bytes of the log to the hub total, settles the content and ends all handling; each subscriber keeps exactly what was logged for it. |
| Session.Session.EndAll | internal/convstream/hub.go:390-409 | Closing the hub ends every subscriber left, with all it was sent. |
| Session.Session.LedgerMoves | internal/convstream/ledger.go:167-231 | Reads and the budget move the ledger of a session as the model says, and touch nothing else of it. |
| Session.HubTotal | internal/convstream/hub.go:412-419 | A change of one log that leaves the share of the others alone keeps the total the sum over all logs. |
| Session.PublishTo | internal/convstream/hub.go:367-379 | Publishing to one session of many keeps the total of the hub the bytes of all their logs. |
| Session.ConnectOf | internal/convstream/session.go:65-79 | So does a connection that starts a log anew. |
| Session.DetachFrom | internal/convstream/hub.go:212-232 | A detached session leaves the total the bytes of the remaining logs. |
| LedgerRuns.StoredLater | internal/convstream/ledger_compose.go:74-136 | What one version of history stores of a streamed entry, every later version stores. |
| LedgerRuns.EventMarks | internal/convstream/ledger.go:63-117 | An event gives every row it names a new revision and takes its confirmation back; open reads and tickets stay. |
| LedgerEffects.EventLedger | internal/convstream/ledger.go:81-117 | What a content event makes of each row: a new revision, no confirmation and no tombstone but the one a removal sets, and a message with new content runs again. |
| LedgerEffects.OtherEvents | internal/convstream/ledger.go:109-117 | A rewrite takes exactly the ended content away; events without content change nothing. |
| LedgerEffects.EndLedger | internal/convstream/ledger.go:178-231 | The end of a read gives up exactly the rows confirmed before every read still open, and the tombstones cleared before them or more than ten minutes old, with the revisions of what is gone. |
| LedgerEffects.CapturedRows | internal/convstream/ledger.go:307-336 | A read captures every row but those confirmed before it was issued, and filters each removed row unless its tombstone was cleared before. |
| LedgerEffects.CommitLedger | internal/convstream/ledger.go:338-368 | What a read's decisions make of each row that did not change since it was captured: confirmed, cleared, dropped, or left. |
| LedgerEffects.CommitParts | internal/convstream/ledger.go:338-368 | A part leaves with its dropped message, or ended and without a message on either side, and not otherwise. |
| LedgerEffects.EndedLeaves | internal/convstream/ledger.go:167-368 | Nothing ended is kept for ever: a read of a page that stores all ended content, with no other open, leaves none of it in the ledger. |
| LedgerRuns.StreamKeeps | internal/convstream/ledger.go:81-117 | Streaming an event keeps the ledger invariant for every open read. |
| LedgerRuns.EvictKeeps | internal/convstream/ledger.go:257-302 | Evicting any groups keeps the invariant for what is not evicted. |
| LedgerRuns.CommitKeeps | internal/convstream/ledger.go:338-368 | Committing a read, however late, keeps the invariant. |
| LedgerRuns.EndKeeps | internal/convstream/ledger.go:178-231 | Ending a read and purging keeps the invariant of the reads still open. |
| LedgerRuns.ConfirmedStored | internal/convstream/ledger_compose.go:74-136 | What a read confirms, the history version it queried stores at least as fully. |
| LedgerRuns.StreamedIsOwed | internal/convstream/ledger.go:81-117 | What the ledger takes of an upsert or a delta is owed as it was taken, and every owed row stays as it is until an event names it, unless it is removed, evicted or dropped with an ended turn. |
| LedgerRuns.RunKeeps | internal/convstream/ledger.go:167-231 | The ledger invariant survives every interleaving of stream events, ingestion, and the steps of any number of reads. |
| LedgerRuns.OwedShown | internal/convstream/ledger_compose.go:43-189 | In every such run, each newest-page read holds what the ledger took and did not drop: every message unless it lies outside the page or history stores newer ones without its ended turn, and every field at least as long, unless the stored message is completed. |
| BuiltContent.BuiltIsFold | internal/convstream/overlay.go:122-198 | What a run built is the fold of its streamed events, whatever the ledger did. |
| BuiltContent.GivenUpKept | internal/convstream/ledger.go:196-231 | A part the end of a read gives up stays kept: each of its fields is stored as long as it was built by the newest history and by every page a read has still to compose. |
| BuiltContent.NothingLost | internal/convstream/ledger_compose.go:43-189 | In every interleaving: at each moment every newest-page read still to compose, and the next read of all history, shows every part at least as long as the streamed events built it (unless it is gone, its message lies outside the page, or the stored message is completed), if and only if each delta that lengthens what was built is taken by the ledger, or found by each of those reads in the history it queried. |
| BuiltContent.ShownIffCovered | internal/convstream/ledger_compose.go:43-189 | The same equivalence over the rest of a run from any state that keeps what was built. |
| BuiltContent.MessagesShown | internal/convstream/ledger_compose.go:43-189 | In every interleaving, whatever becomes of deltas: each newest-page read holds every message the streamed events built and nothing took away, with its endings, unless it lies outside the page or history stores newer ones without its ended turn. |
| BuiltContent.LostDelta | internal/convstream/ledger.go:84-87 | Where the ledger does not take such a delta, because it gave the part up or holds less of it, every read shows the part as built if and only if each finds the field stored that long already, or the completed message, in the history it queried. |
| LostText.TextLost | internal/convstream/ledger.go:81-231 | A run that loses text: the turn settles, a read confirms its part and ends, a delta follows; the events build "ab" and the next read shows "a". |
| RemovedRows.TombStep | internal/convstream/ledger.go:54-117 | Exactly which steps change the tombstone of a removed row: a commit that clears it, and the end of a read that spends it or finds it expired. |
| RemovedRows.DeadKeeps | internal/convstream/ledger.go:167-231 | A timely step keeps every removed row under a tombstone, or hidden from the newest history and from each page a read has still to compose. |
| RemovedRows.BuriedHidden | internal/convstream/ledger_compose.go:58-72 | A read under the invariant shows neither such a row nor a part of it. |
| RemovedRows.UntimelyShows | internal/convstream/ledger.go:338-368 | An untimely step, history taking a removed row in after its tombstone went included, brings a removed row back at once: the next read of all history, or one that had queried, shows it. |
| RemovedRows.NothingResurrected | internal/convstream/ledger_compose.go:43-72 | In every run no read shows a removed message or part at any moment if and only if each tombstone is cleared, or dropped as too old, only when the newest history, and for a dropped one the pages still to compose, hide its row, and history takes a removed row in only while its tombstone is active. |
| RemovedRows.RefusedDeltaUnburies | internal/convstream/ledger.go:81-96 | A delta for a removed part adds no content and yet takes its tombstone away: the part comes back exactly where the newest history or a page already queried exposes it. |
| RemovedRuns.ShortPageReturns | internal/convstream/ledger_compose.go:86-97 | A run of a new ledger: a full page of newer messages clears the tombstones of a message and a part it does not reach, and the next read shows both. |
| RemovedRuns.OldReadReturns | internal/convstream/ledger.go:338-368 | A read that queried before history stored the rows clears their tombstones, and the next read shows both. |
| RemovedRuns.ExpiredReturns | internal/convstream/ledger.go:212-216 | Tombstones dropped as too old while history still stores the rows: the next read shows both. |
| RemovedRuns.LateRowsReturn | internal/convstream/ledger.go:338-368 | A run timely up to its last step, in which history takes the rows in once their tombstones are cleared: the next read shows both. |
| RemovedRuns.LaggingStays | internal/convstream/ledger_compose.go:58-72 | History takes the rows in late while their tombstones are active: it stores them and no read shows them. |
| Ledger.Ledger.ApplyEvent | internal/convstream/ledger.go:81-117 | Applying an event in place agrees with the model, and an added row is followed by eviction to the counts. |
| Ledger.Ledger.Settle | internal/convstream/ledger.go:127-139 | The content of the ended turn is marked settled and kept. |
| Ledger.Ledger.Begin | internal/convstream/ledger.go:167-176 | A read gets the next ticket and is open under it. |
| Ledger.Ledger.OldestOpen | internal/convstream/ledger.go:186-192 | The earliest open ticket, or the next one when none is open. |
| Ledger.Ledger.End | internal/convstream/ledger.go:178-183 | Ending a read closes its ticket and purges. |
| Ledger.Ledger.Purge | internal/convstream/ledger.go:196-231 | Exactly the confirmed entries and cleared or expired tombstones no open read predates are dropped, and the revisions of entries that are gone. |
| Ledger.Ledger.EvictCounts | internal/convstream/ledger.go:284-302 | Eviction to the counts agrees with the model. |
| Ledger.EvictPartsBound | internal/convstream/ledger.go:284-302 | Only parts of settled messages are evicted, no more than the bound asks, and the bound is missed only when none is left to evict. |
| Ledger.EvictPartsOldest | internal/convstream/ledger.go:284-293 | The settled parts evicted are the oldest, up to the first place at which 2048 are left. |
| Ledger.EvictMsgsOldest | internal/convstream/ledger.go:294-303 | So with messages and 512; each goes with its parts (`Ledger.EvictedForgets`). |
| Ledger.EvictedForgets | internal/convstream/ledger.go:284-302 | Eviction forgets whole settled messages and settled parts, and nothing else. |
| Ledger.Ledger.TakeView | internal/convstream/ledger.go:307-335 | A view holds what composing needs and leaves out what history confirmed before the ticket. |
| Ledger.Ledger.Commit | internal/convstream/ledger.go:338-368 | A plan takes effect only on entries whose revision is the one captured. |
| LedgerCompose.Newest | internal/convstream/ledger_compose.go:74-84 | The newest stored time that is not the ledger's own decides whether history has moved past a message. |
| LedgerCompose.DecideDropped | internal/convstream/ledger_compose.go:98-105 | Exactly the settled messages missing from a read that stores later ones are dropped. |
| LedgerCompose.JudgePart | internal/convstream/ledger_compose.go:106-129 | A part is orphaned, awaited or confirmed by its own message's state in the read. |
| LedgerCompose.Decide | internal/convstream/ledger_compose.go:74-136 | The plan confirms, drops, clears and orphans exactly the rows the rules name, each with the revision captured. |
| LedgerCompose.OverlayMessages | internal/convstream/ledger_compose.go:138-165 | Exactly the captured messages in the page's range that history lacks or stores less ended are laid over, and the result is in time order. |
| LedgerCompose.OverlayStreamed | internal/convstream/ledger_compose.go:166-187 | Parts of shown messages are added, and stored ones take each streamed value that is longer. |
| LedgerCompose.CoversPart | internal/convstream/ledger_compose.go:193-201 | Stored data covers a part exactly when every streamed field is at least as long there and a final part has the same tool status. |
| ComposedRows.FieldsWritten | internal/convstream/overlay.go:287-329 | Writing values back leaves each field the longer of the two, and the status and the rest of the data alone. |
| ComposedRows.MessagesComposed | internal/convstream/ledger_compose.go:58-166 | Which messages a composed read holds and whose row stands: stored ones no tombstone hides, captured ones in the page's range that history did not move past, and the captured row where it carries an ending the stored one lacks. |
| ComposedRows.PartsComposed | internal/convstream/ledger_compose.go:166-201 | Which parts it holds, and each row: a final part has the status it was streamed with and replaces a stored row of another status or with a shorter field; any other keeps the stored status and rest; each field is the longer of the streamed value and the base row's, and no other text. |
| LedgerEffects.ConfirmedRows | internal/convstream/ledger_compose.go:103-136 | Exactly what a read confirms: an ended part that history has, and an ended message stored with its endings once all its captured parts are confirmed. |
| LedgerCompose.DropRemoved | internal/convstream/ledger_compose.go:58-72 | Rows under an active tombstone, and parts of such messages, are left out. |
| LedgerCompose.ComposeRead | internal/convstream/ledger_compose.go:43-56 | The whole in-place composition agrees with the model, reports the ids it added and counts them in the total. |
| Tee.Tee.TakeLine | internal/autoapprove/tee.go:89-111 | A line updates the pending event and a blank line dispatches it. |
| Tee.Tee.Consume | internal/autoapprove/tee.go:72-113 | One write scans the buffered and new bytes line by line and keeps the unfinished rest. |
| Tee.ChunkIndependence | internal/autoapprove/tee.go:63-113 | While lines and events fit the cap, any sequence of writes gives the events and state of parsing the whole stream at once. |
| Tee.WritesAgree | internal/autoapprove/tee.go:63-113 | Two ways of cutting one stream into writes agree, CR LF split across writes included. |
| Tee.RoundTrip | internal/autoapprove/tee.go:72-113 | A stream of events, its lines ended by LF or CR LF, is parsed back to exactly those that carry data, each under its type and with its lines as the lines of its data, and nothing is left over. |
| Tee.SpaceIs | internal/autoapprove/tee.go:100-103 | A text starts with white space exactly when it starts with the UTF-8 form of a white code point of Unicode (section 3 of RFC 3629). |
| Tee.TrimIs | internal/autoapprove/tee.go:100-103 | Trimming takes white space, and all of it, off both ends. |
| Tee.AnyWritesRoundTrip | internal/autoapprove/tee.go:63-113 | However the stream is cut, that is what is emitted. |
| Tee.Resyncs | internal/autoapprove/tee.go:115-122 | After an overflow parsing goes on from the next blank line as if the stream began there. |
| Tee.DataOverflow | internal/autoapprove/tee.go:102-122 | Data past the cap drops the rest of its write, and what later writes bring up to the next blank line. |
| Tee.OverflowDependsOnWrites | internal/autoapprove/tee.go:86-122 | Past the cap the result depends on the writes: after any prefix that leaves an event pending, an overlong line the parser ignores costs that event when a write ends inside it and costs nothing when it is written whole. |
| Tee.OverflowHappens | internal/autoapprove/tee.go:86-122 | There are such streams for every length past the cap. |
| Sorting.SortKeeps | internal/analyticsdata/timing.go:22-22 | Sorting by a key gives the same elements in order. |
| Sorting.SortStable | internal/convstream/ledger_compose.go:163 | Rows of one time keep their order and their number. |
| Concurrency.MergeRuns | internal/db/concurrency.go:41-66 | The merged edges count, at every instant, the distinct sessions that run, overlapping rows of a session once. |
| Concurrency.SortActive | internal/db/concurrency.go:86-87 | What is active does not depend on the order the edges are swept in. |
| Concurrency.BucketPeak | internal/db/concurrency.go:90-107 | The sweep of one bucket returns the most that is active at any instant of it, half open. |
| Concurrency.Buckets | internal/db/concurrency.go:86-110 | Each point is the peak of its bucket, and the buckets tile the range. |
| Concurrency.SessionConcurrency | internal/db/concurrency.go:27-110 | The series reports true peaks of distinct running sessions, tiles the range in at most 1000 buckets of whole hours, hourly unless the range needs more and then the narrowest that do, and starts an unbounded range at the first run. |
| Runtime.ModelDuration | internal/analyticsdata/timing.go:18-33 | For any tool order the result is the measure of the window outside the union of the tools, or zero for an invalid window or tool; the tools are sorted in place. |
| Runtime.Waiting | internal/analyticsdata/timing.go:23-31 | The sweep measures the union of the sorted tools within the window and rejects invalid ones. |
| Runtime.FreeOrder | internal/analyticsdata/timing.go:18-33 | What is left of the window depends on which tools there are, not on their order. |
| Runtime.Union | internal/db/agent_runtime.go:103-117 | The union covers the same instants with intervals in order that neither overlap nor touch. |
| Runtime.Add | internal/db/agent_runtime.go:122-129 | A span adds to each hour exactly its part in that hour. |
| Runtime.AddRun | internal/db/agent_runtime.go:139-147 | One run adds to each hour its time outside the waits. |
| Runtime.AddSession | internal/db/agent_runtime.go:130-149 | One session adds to each hour the measure of the union of its runs less the union of its waits. |
| Runtime.RunBuckets | internal/db/agent_runtime.go:119-158 | Each hour holds, summed over the sessions, exactly the working time in it, and the hours add up to the whole; they run from the hour of the cutoff, or of the earliest run of an unbounded range, to the last that begins before the end. |
| Runtime.BoundWaits | internal/db/agent_runtime.go:84-101 | Each wait is bound to the latest started run it began in, in order, and dropped exactly when it began in none. |
| Runtime.BoundInside | internal/db/agent_runtime.go:84-101 | A bound wait blocks only time of the run it began in. |
| History.SplitByLabel | internal/db/history_dashboard.go:113-133 | The bisection ends with ranges that follow on from one another over [start, end), each under one label and next to a different one. |
| History.ReadRows | internal/db/history_dashboard.go:167-186 | Whole-hour rows count exactly the facts of hours wholly in range under one label, and the other hours in range are collected. |
| History.BoundaryRanges | internal/db/history_dashboard.go:188-203 | The ranges to read exactly cover the boundary hours from the cutoff on, each under its own label. |
| History.ReadRanges | internal/db/history_dashboard.go:207-228 | Facts of the boundary ranges are summed under their ranges' labels. |
| History.EitherHour | internal/db/history_dashboard.go:138-229 | A fact of the range lies in a whole hour or in a boundary hour, never in both. |
| History.LoadWindow | internal/db/history_dashboard.go:138-229 | The loaded groups are the direct fold: every fact at or after the cutoff once under its own label, and none before. |
| History.HistoryBuckets | internal/db/history_buckets.go:21-148 | Whole-hour rows and exact boundary facts in one map equal the direct fold of every group, with no other group. |
| History.FoldSplit | internal/db/history_buckets.go:21-148 | Facts counted under one of two exclusive conditions add up. |
| History.FoldMeans | internal/db/history_buckets.go:21-148 | What a group adds up to: the number of its facts, the sum of each kind of their tokens, and their first and last time. |
| History.CleanIs | internal/db/history_dashboard.go:167-186 | A row is read as it is exactly when every instant of its hour is in range and under one label. |
| History.ReuseExact | internal/db/history_dashboard_cache.go:51-67 | A window loaded for one cutoff is the window of another exactly when no request lies between them. |
| History.DashboardCache.Find | internal/db/history_dashboard_cache.go:51-113 | A hit returns the cached window and is exact for the asked cutoff; a miss happens exactly when there is no entry, or the cutoffs differ and some request of the snapshot, of any directory or filter, lies between them. |
| History.DashboardCache.Store | internal/db/history_dashboard_cache.go:71-96 | The window is kept; only older snapshots and least recently used entries make room. |
| History.DashboardCache.MakeRoom | internal/db/history_dashboard_cache.go:82-92 | What is dropped was used no later than what stays, and the cache stays below its size. |
| Feed.MergeCovers | internal/conversationingest/feed.go:150-175 | A merged change covers both changes: newest sequence, all ids, both flags. |
| Feed.MergeAsks | internal/conversationingest/feed.go:150-175 | A merged change asks for no more than its two changes: it is deleted or read whole only if one of them is, and its sequence and its ids are theirs. |
| Feed.MergedAsked | internal/conversationingest/feed.go:142-182 | Whatever is pending of a session some change of it asked for. |
| Feed.FeedState.Enqueue | internal/conversationingest/feed.go:142-182 | A change is merged into its session's entry within 4096 sessions and 16384 ids, and past either bound everything becomes one catch-up; nothing undelivered is forgotten, and every flag, id and sequence of an entry comes from a change of its session. |
| Feed.FeedState.Connected | internal/conversationingest/feed.go:117-123 | A connection asks for a catch-up. |
| Feed.FeedState.Tick | internal/conversationingest/feed.go:69-73 | While the feed is down the comparison repeats. |
| Feed.FeedState.BeginDrain | internal/conversationingest/feed.go:191-201 | A drain takes everything pending and leaves the feed empty for new changes. |
| Feed.FeedState.Delivered | internal/conversationingest/feed_changes.go:16-48 | Only the delivered session leaves the batch. |
| Feed.FeedState.DrainDone | internal/conversationingest/feed.go:239-244 | A drain without a catch-up ends only with nothing left undelivered. |
| Feed.FeedState.DrainFailed | internal/conversationingest/feed.go:222-238 | A failed drain gives every undelivered entry back into coverage, with flags, sequence and ids, beside what arrived meanwhile and with nothing neither asked for, and asks for a catch-up. |
| Feed.MergedOwed | internal/conversationingest/feed.go:142-182 | Merging keeps everything owed and owes the new change too. |
| Refresh.AnswersGrow | internal/conversationingest/refresh.go:19-47 | What answers a ticket goes on answering it whatever else is asked or published. |
| Refresh.CapturedAfter | internal/conversationingest/execute.go:53-94 | A ticket captured before a source read was issued no later than the read began. |
| Refresh.RunKeeps | internal/conversationingest/refresh.go:10-58 | Receipts stay backed by reads and checks, and waiters by channels, in every run. |
| Refresh.NeverStale | internal/conversationingest/refresh.go:19-47 | In every interleaving a request that returns validated follows a source read that began after it asked, stored whole unless it was asked inside a named read; one that returns missing follows a check that began after it asked; and one still blocked on an open channel is not satisfied. |
| Refresh.WholeReadAnswers | internal/conversationingest/execute.go:53-94 | A source read of the whole session, stored, validates every request waiting when it began. |
| Refresh.InventoryAnswers | internal/conversationingest/disappearance.go:64-108 | A complete inventory that lacks the session answers every request waiting when it began as not found. |
| Refresh.StoredUnlessRaced | internal/conversationingest/feed_changes.go:54-107 | A request asked inside no named read of its session is validated by a whole read that began after it asked and was stored. |
| Refresh.ApprovalAnswers | internal/conversationingest/feed_changes.go:95-99 | Approving and publishing any named read whose ticket covers a waiting request returns that request as validated, unless a not-found receipt covers it, and stores nothing. |
| Refresh.ApprovedUnstored | internal/conversationingest/feed_changes.go:95-99 | A run in which a request asked inside a named read is validated by it although it stored nothing. |
| Refresh.NotFoundFollows | internal/conversationingest/feed_changes.go:54-107 | A request can be answered as not found by nothing seen since it asked, in some continuation, if and only if a deletion of its session is reported and not yet applied when it asks. |
| Refresh.DeletionAnswers | internal/conversationingest/feed_changes.go:54-107 | Applying a reported deletion answers each request waiting then as not found, whenever it was reported. |
| Refresh.DeletionReportedEarlier | internal/conversationingest/feed_changes.go:54-107 | A run in which a request is answered as not found by a deletion reported before it asked. |
| Refresh.PendingExactly | internal/conversationingest/feed_refresh.go:48-54 | An explicit read is pending exactly while some issued ticket is unsatisfied. |
| Refresh.LookValid | internal/conversationingest/refresh.go:26-47 | A request that looks under the channel it took returns only what is backed and otherwise blocks unsatisfied. |
| Refresh.ReadPublishedKeeps | internal/conversationingest/await.go:19-37 | Publishing a read's receipt wakes every blocked request and claims no more than the read's own ticket. |
| Refresh.AbsentPublishedKeeps | internal/conversationingest/disappearance.go:64-108 | Publishing an absence answers only tickets captured before the check began. |
| Refresh.TicketFresh | internal/conversationingest/refresh.go:49-58 | A new ticket is later than every other of its session, is unsatisfied, and makes the session pending. |
| Refresh.ReceiptSatisfies | internal/conversationingest/await.go:19-37 | A receipt satisfies exactly the tickets of its session up to its own, on top of those already satisfied, and closes every channel handed out. |
| Refresh.AbsenceSatisfies | internal/conversationingest/disappearance.go:64-84 | So does a not-found receipt. |
| Refresh.ChannelShared | internal/conversationingest/await.go:10-17 | The channel a waiter takes is open, waiters share it until a receipt closes it, and a closed one is not handed out again. |
| Refresh.NoLostWake | internal/conversationingest/refresh.go:26-47 | A blocked request that has been answered is woken, looks again and returns. |
| Backfill.DutyBound | internal/conversationingest/backfill.go:37-73 | Any consecutive holdings leave the work within the percentage of the elapsed time, up to one rounding per holding. |
| Backfill.RestIs | internal/conversationingest/backfill.go:65-71 | No rest at all at 100 percent; below it the share of the work rounded down, and never less than ten milliseconds. |
| Backfill.StartsWhenDue | internal/conversationingest/backfill.go:37-63 | A worker that finds the slot free may start as soon as the rest after the last work is over, and no sooner. |
| Backfill.FinishedRests | internal/conversationingest/backfill.go:65-73 | The end of work frees the slot and fixes when the next may start, no later than the share of the work done requires. |
| Backfill.CancelLeaves | internal/conversationingest/backfill.go:25-63 | A context that ends takes its waiting worker out and frees the slot if it rested with it; one that ended before asks for nothing. |
| Backfill.OneHolder | internal/conversationingest/backfill.go:21-73 | In every run of any number of workers, with every way an attempt can end: at most one holds the slot, the slot is free exactly when none does, and each taking but the present holder's was given back once. |
| Backfill.ExitFrees | internal/conversationingest/backfill.go:37-73 | However a holder leaves, cancelled while it rests, cancelled as the rest ends, or done, the slot is free again and the next worker that asks takes it. |
| Backfill.DutyOverRun | internal/conversationingest/backfill.go:37-73 | Any consecutive work of any run starts only after the rest due and stays within its share of the time. |
| Backfill.RunKeeps | internal/conversationingest/backfill.go:21-73 | Every step of a worker keeps the slot, the takings and the rests consistent. |
| Backfill.BackfillLimiter.Select | internal/conversationingest/backfill.go:25-34 | One turn of the wait takes the slot exactly when no worker holds it. |
| Backfill.BackfillLimiter.Cooldown | internal/conversationingest/backfill.go:44-63 | The end of the rest starts the worker no earlier than the rest due, or gives the slot back. |
| Judges.OneJudge | internal/autoapprove/statemachine.go:87-189 | In every run of claims, releases, verdicts, replies, captures and resumptions, whatever a full table forgets: no key has two judges, a key with one keeps its record, and a claim is granted only to a key without one. |
| Judges.Table.Claim | internal/autoapprove/statemachine.go:87-113 | A claim is granted exactly when there is no record, and then no judge runs for the key. |
| Judges.Table.Prune | internal/autoapprove/statemachine.go:115-129 | Pruning removes records only past the limit, never the kept one nor one a judge runs for, and stops above the limit only when nothing else is idle. |
| Judges.Table.Release | internal/autoapprove/statemachine.go:158-189 | Letting go of a key is the step of the model, and hands on a deferred recheck. |
| Judges.Table.Record | internal/autoapprove/statemachine.go:227-245 | A verdict is recorded without touching the judge. |
| Judges.Table.BeginResponse | internal/autoapprove/inherit_capture.go:281-299 | A reply of ours is under way, on a record that may be new and carries no judge. |
| Judges.Table.FinishResponse | internal/autoapprove/inherit_capture.go:301-331 | The reply counts as ours unless a different one was observed meanwhile. |
| Judges.Table.FinishCapture | internal/autoapprove/inherit_capture.go:333-346 | The record is forgotten exactly when nothing but the capture used it. |
| Judges.ResumedClaims | internal/autoapprove/manual_rules_resume.go:11-29 | A resumption that finds a judge running waits for it: when that judge lets go, the next claim is granted if and only if no verdict stands for the key, and none does unless one was recorded after the resumption. |
| Judges.Table.Resume | internal/autoapprove/manual_rules_resume.go:11-29 | A permission a removed rule answered starts over at once exactly when no judge runs for it, and then has no record. |

## Left out

- Invalid UTF-8, unknown delta field names and the position of a part: strings are sequences of Unicode scalars, and a part has its three streamed fields, a status and an opaque rest.
- JSON encoding and SSE framing: the size of a frame and whether an event can be encoded are arbitrary.
- The replay theorem takes a status without a notice as out of scope; `Subscribers.SessionStatusesAbsolute` shows the session publishes none. `HistoryRewritten` is a marker without effect on the client.
- Epoch names are numbers the caller chooses, and sequence numbers, tickets and revisions do not wrap at 64 bits.
- Subscriptions are values in a map of the session; their channels, contexts and goroutines are the methods that take, close and reset them.
- Which prompts a stream takes (`routes`, `Hub.descendant`): the prompts of an event or a seed are those already routed to the session.
- Panics in settle readers, `Stop` of a hub as a method, and the queue reader of a source: a changed queue reaches the model as a published event.
- Session.Session.HandleLocked: the session holds the state of its ledger as a value; the ledger object with its own lock is the class `Ledger.Ledger`, and the eviction that follows an added row is a ledger step of its own.
- Session.Session.Subscribe: a subscription still waiting when its session is detached is not part of this model.
- ClientContent.ClientFollows: the field texts are the same but for parts the ledger gave up since the greeting, whose fields are only no shorter; a client that was shown other content before its greeting is not part of this model.
- Session.Session.Account: after the trim it causes, the slice may hold more dropped entries than the bound an append gives, because the trim is not followed by a repack.
- Which groups `Hub.budgetLocked` and `ledger.evict` choose, and the sweep of expired ledgers: the ledger theorems allow the eviction of any groups at any time.
- BuiltContent.NothingLost: is about histories that only move forward, rows that stay with their message, and ids that are not named again once they are gone; rewritten histories are not in its runs, and pages other than the newest are only left unchanged by the source.
- RemovedRows.NothingResurrected: like all runs of the ledger, is about ids that are not named again once they are removed; `RemovedRows.RefusedDeltaUnburies` says what naming one does.
- Judge pipeline beyond the claim table: rules, prompts, replies, provenance and the order of a judge's and a rule's replies, which the code does not serialise.
- Judges.Table.Record: whether the reasoning is a session rule's is a flag beside the text instead of its prefix.
- Feed.FeedState.DrainDone: takes a successful catch-up to deliver everything it was owed; the comparison of inventories with the store is not part of this model. A shutdown in the middle of a drain discards the batch and is left out.
- Refresh.NeverStale: models one adapter; a source worker's errors are reads that fail, and the store's transaction is the step that stores a read.
- Database queries, prices, percentiles, log pages, agent and model names: a stored hour row is assumed to be the fold of its own facts, and the calendar label of an instant to be the same over a contiguous stretch of time.
- Adjacent ranges merged by `dashboardWindow.addRange`, and minutes as floating-point numbers: hours hold milliseconds.
- Real clocks and timers: time is an argument.
