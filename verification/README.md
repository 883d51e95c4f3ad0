# Slurm-web: verified model of its live protocol, parsers and caches

This project models the parts of Slurm-web where a small mistake is hard to see, and proves what they
are for.

* **The job live session.** The agent streams growing output files and growing sets of check events to
  a browser over one WebSocket, with one cursor per channel. `LiveSession` says what one message and one
  service round do, `JobLiveSession` is the session object updated in place, and `LiveRun` and `ChecksRun`
  put it into one transition system with the files, the event store, the gateway hop, connections that
  drop frames, and the page. The main results hold in every run: the page holds exactly the file up to its
  cursor, and its checks are the latest event of every check among those it has been told of, in whatever
  order the events were recorded. `ReplacedFiles` adds files that are replaced, cut or removed at any
  moment, and says when exactly the page is in step with the new file again; `ReplacedUnseen` is a history
  in which it never is. `LogPause` says how long a pause of the log lasts. `LogDelivery` covers draining,
  `Utf8` the cuts inside characters, `Wire` the size of frames.
* **The log parser.** `LogParser` and the class in `LogModel` are the parser, `LineFeed` its line buffer,
  `LogInvariant` what every operation keeps, `Markers` its marker scanners, `LogSections` what printed start
  and end lines, alone and together on one line, open and close. `LogLines`, `FileRows` and `EndToEnd` are
  the agreement of page rows, file lines and the agent's error excerpt (`ErrorExcerpt`).
* **Node sets.** `Nodeset`, `NodesetFold` (the object and the loops) and `NodesetRoundTrip`, which says for
  every list of names whether expanding its folded text gives the list back.
* **The polling loop and the reconnecting socket.** `Poller` and `LiveSocket` are state machines over every
  interleaving of their events; `PollerObject` and `LiveSocketObject` are the objects, whose `Valid()` is
  the invariant of those state machines.
* **The Redis cache.** `Cache`, `CacheObject`, `CacheRun` and `CacheReset`: key strings, counters under
  interleaved workers, what a cached call can return, and a reset of the statistics command by command.
* **Resource lists and the job list's URL.** `Gres`, `Resources`, `JobsQuery` and `JobsStore`.

Functions are the specification; each class method is proved equal to the function of the state before
it, keeps the object's invariant where it has one, and says what that means for the caller. Errors raised
by the program are `None`, `HttpError` or `Rejected` values.

## Results that differ from the documentation

Each is proved with the exact condition under which the promise holds; where an input is named, a lemma
shows that it fails.

* Text is not lossless at every cut: a chunk that begins inside a character leaves replacement characters
  (`LiveRun.TextExact`, `Utf8.StraddledEuro`).
* The stream is not lossless when a file is replaced and has grown past every cursor before it is read
  again, for instance while the connection is down: no rotated frame is sent and the page goes on with the
  new file's bytes behind the old ones (`ReplacedFiles.InStepAgain`, `ReplacedFiles.UnseenReplacement`,
  `ReplacedUnseen.NeverNoticed`, `LiveRun.RegrownFileJoins`).
* Check events are lost to an open connection when they become readable under a number that its cursor has
  passed, as events of several nodes numbered by their own clocks can: they are never pushed until the page
  subscribes again, and the list is right exactly while each of them is out of date
  (`ChecksRun.LostExactly`, `ChecksRun.RightExactly`, `ChecksRun.LateEventNotShown`,
  `ChecksRun.SubscriptionRights`).
* A page flushes the parser after every chunk once the job has ended, so a later chunk that does not start
  after a newline of the file splits a row and shifts all later row numbers (`EndToEnd.EndedPageRows`,
  `EndToEnd.FinishedPageRows`, `LogLines.FlushedApart`). For a file that is read when it no longer changes
  this happens exactly unless a newline stands before every multiple of the limit of one read
  (`EndToEnd.StillFileRows`, `EndToEnd.LongLineSplits`).
* A section's end line closes the outermost open section of its name, so of two nested sections with one name
  the inner one stays open and takes up all later rows (`LogSections.SectionBracket`). Of the markers on one
  line the ninth and later ones are shown as text (`LogSections.EightMarkersAct`).
* A pause of the log ends with the connection: the page subscribes again without saying that it is paused,
  and is fed (`LogPause.PausedUntilResumed`, `LogPause.PausedPageIsFed`).
* A job record whose output path has changed keeps the page in step exactly if the new file reads like the
  old one wherever it was read; a path that gets lost does so only while nothing was counted, and otherwise
  the same bytes are shown again (`LiveRun.PathChangeExactly`, `LiveRun.LostPathExactly`,
  `LiveRun.LostPathRepeats`).
* The window of 10000 check events keeps the snapshot right exactly when every check is still named in it
  (`CheckEvents.WindowCovers`, `ChecksRun.OutsideWindow`).
* Folding merges names that expanding cannot read back: digits followed by text, digits alone, and repeated
  names without digits (`NodesetRoundTrip.ExpandFold`, `NodesetRoundTrip.NotReadBack`).
* A denied permission on an old poll stops the newer polling loop as well; no other response does
  (`Poller.ResponseKillsExactly`, `Poller.PollsExactly`).
* Data that arrives for an earlier cluster, callback or parameter is shown as the current one's
  (`Poller.LoadedDataIsCurrent`, `Poller.StaleSuccessShows`).
* An error frame with another code revives a socket that a fatal one had stopped, and nothing else does
  before restart() (`LiveSocket.StoppedUntilRevived`, `LiveSocket.LaterErrorRevives`).
* A job list's URL leaves out what is at its default, so on a store where that differs it does not restore it
  (`JobsQuery.UrlRoundTripAnywhere`); on a fresh page it does (`JobsQuery.UrlRoundTrip`).
* The expiration of cached data counts from its store, so a slowly fetched answer is served older than that;
  nothing is exactly if every answer is stored at the instant it was asked for
  (`CacheRun.NeverServedOldExactly`, `CacheRun.SlowAnswerServedOld`).
* A reset of the cache statistics is many commands, and calls counted among them leave a total without
  counters, or a counter that neither the metrics nor later resets find until its name is recorded again,
  also when no call is at an increment as the reset begins or ends (`CacheReset.ResetBalance`,
  `CacheReset.ResetLosesExactly`, `CacheReset.CounterLostByReset`, `CacheReset.TotalLeftByReset`,
  `CacheReset.OrphanStays`).
* GPUs named after a comma inside an annotation are counted by the job view and stop the agent
  (`Gres.ListCounts`, `Gres.NamedInAnnotation`).
* Core counts by state add up only when every mixed node's own counts do (`Resources.CoresAddUp`).

## Model

| member | source | states |
|---|---|---|
| Utf8.DecodeConcat | slurmweb/views/agent.py:302-313 | decoding two chunks apart equals decoding them together exactly when no character is cut in two, and otherwise gives more characters |
| Utf8.Reassembly | slurmweb/views/agent.py:302-313 | chunk texts put together are the decoded whole exactly when every cut is between characters |
| Utf8.EveryByteShows | slurmweb/views/agent.py:945-951 | bytes never decode to empty text, so a push never skips bytes it has read |
| Utf8.SplitDecode | slurmweb/views/agent.py:413-416 | replacement decoding swallows no newline: splitting lines and decoding commute |
| Utf8.NewlineCount | slurmweb/views/agent.py:397-416 | counting newline bytes counts the newlines of the decoded text |
| Utf8.RoundTrip | slurmweb/views/agent.py:307 | replacement decoding is the identity on well-formed UTF-8 |
| Utf8.UnreplacedIsExact | slurmweb/views/agent.py:307 | text without a replacement character encodes to exactly the bytes it was decoded from |
| LiveSession.PushStreamSlices | slurmweb/views/agent.py:905-952 | every unmerged log frame is an exact slice of the file of at most LOG_LIMIT bytes from the cursor, rotated exactly when the cursor was past the end |
| LiveSession.ReadReports | slurmweb/views/agent.py:275-318 | a read is refused exactly for a known path outside the managed roots; otherwise it tells path and size of the file, and waits exactly while there is no file or the job runs |
| LiveSession.StreamsApart | slurmweb/views/agent.py:333-337 | a job with two output files: every frame of a stream is cut from the stream's own file |
| LiveSession.StreamsTogether | slurmweb/views/agent.py:905-930 | a job with one output file: stderr is announced once as merged, moves no cursor and sends no bytes, and stdout is read as ever |
| LiveSession.ErrorPauses | slurmweb/views/agent.py:905-952 | a round over the log pauses it exactly if one of its streams may not be read, and then ends with that error |
| LiveSession.ChannelsExactly | slurmweb/views/agent.py:798-831 | a list of channels is accepted exactly if every name is a channel's, and then exactly those are subscribed, or all of them if it names none |
| LiveSession.SubscribeExactly | slurmweb/views/agent.py:798-831 | a subscription is refused, with 4400, exactly if channels, cursor or streams are malformed; otherwise it holds what was asked for and is answered with the snapshot, if checks are subscribed, and the accepted cursors |
| LiveSession.RequestExactly | slurmweb/views/agent.py:776-796 | a request for the log subscribes it with the cursors asked for and ends a pause, and leaves checks, channels and job record alone |
| LiveSession.RoundOrder | slurmweb/views/agent.py:833-870 | a round takes over a refreshed job record and no other, and sends the error of a failed refresh, then the events above the cursor, then the log, each exactly if it is due |
| LogDelivery.GrowingRounds | slurmweb/views/agent.py:905-952 | over rounds on a growing file the frames are one contiguous chain from the first cursor to the last |
| LogDelivery.Drains | slurmweb/views/agent.py:905-952 | n rounds on a still file move the cursor by n times LOG_LIMIT, up to the end |
| LogDelivery.DrainedWithin | slurmweb/views/agent.py:905-952 | a still file is drained within its rest divided by LOG_LIMIT rounds, rounded up |
| LogDelivery.TruncationShowsOnce | slurmweb/views/agent.py:298-313 | after a truncation exactly the first frame is rotated and starts at 0, and the bytes since then are a prefix of the new file |
| LiveRun.PageAfterTruncation | frontend/src/components/job/JobPipelineConsole.vue:250-267 | after a truncation the page holds exactly the new file up to the session's offset, whatever it held before |
| LiveRun.ReplacedBetweenRounds | slurmweb/views/agent.py:298-313 | after a file is replaced between two rounds the page is in step with the new one exactly if that is shorter than the cursor or reads like what the page already shows |
| LiveRun.RegrownFileJoins | slurmweb/views/agent.py:298-301 | a file of one byte replaced by one of two: the page continues with the second byte and does not hold the new file |
| ReplacedFiles.RoundSteps | slurmweb/views/agent.py:298-313 | over any files a round sends at most one chunk of a stream, from the session cursor, and a rotated one exactly when it reads a file shorter than the cursor |
| ReplacedFiles.HistoryOrderly | slurmweb/views/gateway.py:358-383 | in every history of drops, reconnections and files replaced, cut and removed, the frames in flight lead from the page cursor to the session cursor |
| ReplacedFiles.InStepAgain | frontend/src/composables/useJobLiveSocket.ts:47-53 | in every such history, since the last change to a file the page holds exactly the file up to its cursor if and only if a rotated frame read since has arrived, or what it had got of older frames reads the same in the new file |
| ReplacedFiles.UnseenReplacement | slurmweb/views/agent.py:298-301 | a file that has grown past every cursor before it is read again is never noticed in any later history: the page is in step exactly if what it had got before reads the same in the new file |
| ReplacedUnseen.NeverNoticed | slurmweb/views/agent.py:298-301 | the failing history: one byte is shown, the connection is lost, the file is replaced by two others; in every later history the page does not hold the file |
| LogPause.SilentExactly | slurmweb/views/agent.py:776-796 | over any connections and messages a silent log stays silent exactly as long as no resume, request for the log or subscription to it is heard, and until then no log frame is sent |
| LogPause.PausedUntilResumed | slurmweb/views/agent.py:784-789 | so it is from the moment a pause is heard, whatever the session's state |
| LogPause.LoudStep | slurmweb/views/agent.py:776-807 | a log that is sent falls silent exactly if it is paused by its client, by a stream that may not be read, or by the end of its session |
| LogPause.PausedPageIsFed | frontend/src/components/job/JobPipelineConsole.vue:384-387 | the failing history: a page pauses, loses its connection and subscribes again, says nothing else, and is sent the file |
| JobLiveSessionObject.JobLiveSession.constructor | slurmweb/views/agent.py:741-755 | a new session has no channel, cursor 0 and one stream at 0 |
| JobLiveSessionObject.JobLiveSession.HandleMessage | slurmweb/views/agent.py:776-796 | one client message moves cursors and pause flag as specified, or is rejected with its close code |
| JobLiveSessionObject.JobLiveSession.SubscribeChannels | slurmweb/views/agent.py:798-831 | a subscription replaces the cursors, moves the checks cursor to the snapshot's, and sends snapshot then confirmation |
| JobLiveSessionObject.JobLiveSession.ServiceRound | slurmweb/views/agent.py:833-870 | one round: job record, then checks, then log frames, in that order, nothing before a subscription |
| JobLiveSessionObject.JobLiveSession.ChecksSnapshot | slurmweb/views/agent.py:606-633 | the snapshot loops compute the latest event per check in sequence order; each is shown stalled exactly if it runs, has a readable time and was silent for more than 15 seconds, and then for that long |
| JobLiveSessionObject.JobLiveSession.PushChecksChannel | slurmweb/views/agent.py:878-883 | the push loop sends the events above the moving cursor in order |
| JobLiveSessionObject.JobLiveSession.PushLogChannel | slurmweb/views/agent.py:905-952 | the stream loop serves streams in order; an error ends the round and pauses the channel |
| LiveRun.LosslessResume | slurmweb/views/agent.py:905-952 | in every run of growth, rounds, pauses, drops and reconnections the page's chunks stand for exactly the file up to its cursor and the frames in flight continue from there to the session's offset |
| LiveRun.StreamsHoldOwnFiles | slurmweb/views/agent.py:333-337 | in every run of a job with two output files each stream of the page holds its own file up to its cursor |
| LiveRun.TextExact | slurmweb/views/agent.py:302-313 | in every run the page's text is the decoded file up to its cursor exactly when no chunk begins inside a character |
| LiveRun.CaughtUp | frontend/src/components/job/JobPipelineConsole.vue:250-267 | once all frames have arrived and the session is at the end, the page has the whole file |
| LiveRun.StepKeeps | slurmweb/views/gateway.py:358-383 | every action of agent, gateway hop, page and environment keeps the chain of chunks intact |
| LiveRun.AppendKeeps | frontend/src/components/job/JobPipelineConsole.vue:250-267 | applying the next chunk of a chain keeps the page's chunks and cursor in step with the file |
| LiveRun.PathChangeExactly | slurmweb/views/agent.py:281-288 | in every state of a run a new job record keeps a stream in step exactly if the new path's file reads like the old one in every range the page or a frame in flight has read |
| LiveRun.LostPathExactly | slurmweb/views/agent.py:281-288 | in every state of a run a record that has lost the path keeps a stream in step exactly if nothing of it has been counted |
| LiveRun.LostPathRepeats | slurmweb/views/agent.py:281-288 | a round that does not know the path resets the cursor to 0 without clearing the page, which then shows the first bytes twice |
| CheckEvents.Sort | slurmweb/views/agent.py:602 | events come back in sequence order, none lost or added |
| CheckEvents.SnapshotIsLatest | slurmweb/views/agent.py:606-633 | behind its stalled labels the snapshot is the newest event of every check in the window, in order, and its cursor the newest number |
| CheckEvents.SnapshotShows | slurmweb/views/agent.py:606-633 | every check shown is the newest event of its check, none is missing, and it is labelled stalled exactly by that event's own state and time |
| CheckEvents.WindowCovers | slurmweb/views/agent.py:603 | dropping old events keeps the latest view exactly when every check they name is still named |
| CheckEvents.PushIncreases | slurmweb/views/agent.py:878-883 | pushed numbers strictly increase from the cursor on, whatever the store holds |
| CheckEvents.PushIsAfter | slurmweb/views/agent.py:878-883 | a push sends every event above the cursor exactly when the numbers above it do not repeat |
| CheckEvents.WindowPush | slurmweb/views/agent.py:578-603 | a read through the window brings every event above the cursor exactly when there are at most 10000 |
| CheckEvents.SseEmitsTheSame | slurmweb/views/agent.py:653-670 | from the same cursor and reads the SSE stream and the live push emit the same events |
| CheckEvents.RepeatedNumberDiffers | slurmweb/views/agent.py:653-670 | a repeated number is emitted twice by SSE and once by the push |
| ChecksRun.PageShowsTold | frontend/src/components/job/JobPipelineConsole.vue:240-276 | in every run, whatever the order events are recorded in, the page's list is the latest event of every check among those it was told of, and the frames in flight tell it the rest of what the session has told, none twice |
| ChecksRun.RightExactly | frontend/src/components/job/JobPipelineConsole.vue:240-276 | in every run that list is the latest view of all events up to the page's cursor exactly if each event it was not told of has a newer one of its check among those it was |
| ChecksRun.LateRecordExactly | slurmweb/views/agent.py:606-633 | one event recorded under any number leaves a latest view right exactly if its check already has a newer event |
| ChecksRun.LostExactly | slurmweb/views/agent.py:878-883 | in every run the events up to the session's cursor that it has not told are exactly those recorded since its subscription under a number already passed and those a read left outside its window |
| ChecksRun.PassedNeverPushed | slurmweb/views/agent.py:878-883 | an event under a number the session's cursor has passed is pushed by no later round of that connection |
| ChecksRun.SubscriptionRights | slurmweb/views/agent.py:798-831 | once the snapshot of a new subscription has arrived the page has been told all events it was taken from, whatever earlier sessions missed |
| ChecksRun.LateEventNotShown | slurmweb/views/agent.py:878-883 | the failing run: an event of another check with a lower number becomes readable after the higher one was shown; no frame carries it and the list stays wrong |
| ChecksRun.ChecksNeverMissed | frontend/src/components/job/JobPipelineConsole.vue:240-276 | in every run whose reads fit the window and whose events are recorded above every cursor, the page's list is the latest event of every check up to its cursor, and the frames in flight go on from there without gap or repeat |
| ChecksRun.CaughtUpWithSnapshot | slurmweb/views/agent.py:798-813 | once everything has arrived the page shows what a fresh snapshot would show exactly if every event the session missed, by its number or by the window, is out of date |
| ChecksRun.EventsArriveInOrder | frontend/src/components/job/JobPipelineConsole.vue:240-248 | in every run an event that arrives is above the page's cursor and the next one the session has told |
| ChecksRun.RoundReachesTop | slurmweb/views/agent.py:878-883 | in every run a round brings the session's checks cursor to the highest number recorded |
| ChecksRun.SmallRunsSuffice | slurmweb/views/agent.py:603 | a job with at most 10000 events is read in full by every round |
| ChecksRun.OutsideWindow | slurmweb/views/agent.py:603 | the failing run: a check named only outside the last 10000 events is missing from the snapshot |
| ChecksRun.UpsertKeepsLatest | frontend/src/components/job/JobPipelineConsole.vue:240-248 | upserting a newer event into the latest view gives the latest view |
| Wire.JsonStringReads | slurmweb/live.py:107-108 | a string written as JSON reads back as itself, whatever follows |
| Wire.EscapedBytes | slurmweb/live.py:107-108 | decoding with replacement and escaping gives at most six bytes per byte read |
| Wire.ControlBytesTakeSix | slurmweb/live.py:107-108 | the factor six is reached by control characters |
| Wire.LogFramesFit | slurmweb/views/agent.py:931-952 | every log frame with a path of at most 4096 bytes fits the message limit of the gateway hop |
| Wire.LogFrameReads | slurmweb/live.py:107-108 | every log frame, written as JSON, reads back field by field as what was sent |
| Wire.PushedFramesRead | slurmweb/views/agent.py:931-952 | so does every frame that a push sends |
| LineFeed.AppendConcat | frontend/src/composables/logParser.ts:214-222 | two appends leave what one append of both leaves |
| LineFeed.ChunkingIndependence | frontend/src/composables/logParser.ts:214-222 | any chunking of a text leaves the same state, partial line included |
| LineFeed.RowsAreLines | frontend/src/composables/logParser.ts:214-230 | when each line makes one row, the flushed rows are the text's lines for every chunking |
| LineFeed.FlushedRowsExact | frontend/src/components/job/JobPipelineConsole.vue:263-265 | flushed after every chunk, the rows are the text's lines exactly when every chunk starts on a new line |
| LineFeed.EndedRowsExact | frontend/src/components/job/JobPipelineConsole.vue:263-292 | chunks fed, one flush, then a flush after each later chunk: the rows are the text's lines exactly when every later chunk starts on a new line |
| FileRows.ShownExactly | frontend/src/components/job/JobPipelineConsole.vue:263-292 | for every page that holds a whole file: flushed after a chunk and each later one, it shows as many rows as the file has lines exactly if those later chunks start after newlines of the file, and the lines themselves exactly if no character was cut either |
| FileRows.RoundsCuts | slurmweb/views/agent.py:905-952 | rounds on a still file cut it at the multiples of the limit of one read |
| LogParser.FindOpen | frontend/src/composables/logParser.ts:322-328 | the section closed is the outermost open one of that name |
| LogParser.CloseSectionExactly | frontend/src/composables/logParser.ts:322-328 | the first open section of the name gets its end time, is closed and leaves the list, and every other section and row stays; without one nothing changes |
| LogSections.EndLineEnds | frontend/src/composables/logParser.ts:248-254 | a printed end line does exactly that |
| LogSections.GithubEndEnds | frontend/src/composables/logParser.ts:263-267 | a GitHub end line does that to the name of the innermost open section, which is the one it closes when names are distinct, and nothing without one |
| LogSections.StartLineOpens | frontend/src/composables/logParser.ts:239-247 | a printed start line opens one section with its title, time and folding, and makes its header row and no other |
| LogSections.GithubGroupOpens | frontend/src/composables/logParser.ts:257-262 | a GitHub group line opens a section named after its row, with the title it prints |
| LogSections.SectionBracket | frontend/src/composables/logParser.ts:232-328 | a section from its start line over unmarked lines to its end line holds exactly those lines and is closed exactly if no section of that name was open; otherwise it stays open and the end line closes the outermost of those |
| LogSections.StartThenEnd | frontend/src/composables/logParser.ts:237-256 | a start marker left of an end marker on one line acts first, as if each stood on a line of its own |
| LogSections.EndThenStart | frontend/src/composables/logParser.ts:237-256 | an end marker left of a start marker acts first |
| LogSections.TextThenEnd | frontend/src/composables/logParser.ts:248-254 | text before an end marker becomes a row of the section about to end, unless it is blank |
| LogSections.EndThenText | frontend/src/composables/logParser.ts:248-270 | text after an end marker is a line of its own, outside the section that has ended |
| LogSections.EightMarkersAct | frontend/src/composables/logParser.ts:236-256 | of the end markers on one line exactly the first eight act; what is left is a row of text |
| LogInvariant.EveryRunKeepsInv | frontend/src/composables/logParser.ts:202-328 | after every sequence of append, flush and reset rows are numbered and coloured by the two patterns, counters match, open sections are the open ones in order, headers and error flags are in place, and no partial line holds a newline |
| LogInvariant.PushLineKeeps | frontend/src/composables/logParser.ts:272-297 | pushing a row keeps the invariant |
| LogInvariant.OpenSectionKeeps | frontend/src/composables/logParser.ts:299-320 | opening a section keeps the invariant |
| LogInvariant.CloseSectionKeeps | frontend/src/composables/logParser.ts:322-328 | closing a section keeps the invariant |
| LogModelObjects.LogModel.constructor | frontend/src/composables/logParser.ts:191-200 | a new parser is in the fresh state |
| LogModelObjects.LogModel.Reset | frontend/src/composables/logParser.ts:202-211 | reset gives the fresh state |
| LogModelObjects.LogModel.Append | frontend/src/composables/logParser.ts:214-222 | append feeds the complete lines and keeps the rest |
| LogModelObjects.LogModel.Flush | frontend/src/composables/logParser.ts:225-230 | flush pushes the unterminated line |
| LogModelObjects.LogModel.PushRaw | frontend/src/composables/logParser.ts:232-270 | the marker loop applies markers leftmost first, at most eight, and then the rest of the line |
| LogModelObjects.LogModel.PushLine | frontend/src/composables/logParser.ts:272-297 | a row is numbered, classified and attached to the innermost open section object |
| LogModelObjects.LogModel.OpenSection | frontend/src/composables/logParser.ts:299-320 | a section opens with its header row |
| LogModelObjects.LogModel.CloseSection | frontend/src/composables/logParser.ts:322-328 | the first open section of the name, if there is one, is closed with the end time and taken off the open list, and everything else stays |
| Markers.PrintedMarkerFound | frontend/src/composables/logParser.ts:56-57 | a printed marker after text without an escape is found with its time, name, options and surrounding text |
| Text.TrimExactly | frontend/src/composables/logParser.ts:241-248 | trimming takes blanks off both ends, all of them and nothing else |
| LogLines.RowsAreFileLines | frontend/src/composables/logParser.ts:214-297 | without markers row n is the file's n-th line, for every chunking |
| LogLines.FinishedJobRows | frontend/src/components/job/JobPipelineConsole.vue:263-265 | a finished job's rows, flushed after every chunk, are its lines exactly when every chunk starts on a new line |
| LogLines.FlushedApart | frontend/src/components/job/JobPipelineConsole.vue:263-265 | the failing input: the line ab, fed and flushed as two chunks, is two rows |
| LogLines.SectionEndMakesNoRow | frontend/src/composables/logParser.ts:232-270 | a section end marker on its own line is a file line and no row |
| ErrorExcerpt.CountHead | slurmweb/views/agent.py:400-409 | block by block the newlines before the tail are counted |
| ErrorExcerpt.FindHit | slurmweb/views/agent.py:419-433 | the scan starts at the nearest traceback header among the 59 lines before the last error line, or at that line if there is none; without an error line it is unmatched and starts twelve lines before the end |
| ErrorExcerpt.ChooseExactly | slurmweb/views/agent.py:419-433 | one start line fits that description, the one chosen |
| ErrorExcerpt.TailStartExactly | slurmweb/views/agent.py:398-413 | the tail starts with a small file, and otherwise right after the first newline of its last bytes, if they hold one |
| ErrorExcerpt.ScanFile | slurmweb/views/agent.py:397-443 | the reported line, total, lines and truncation are those of the whole file at the start line described, though only its tail is read |
| ErrorExcerpt.ErrorExcerptOf | slurmweb/views/agent.py:376-443 | standard error first; an excerpt is reported exactly when a stream has a usable file of its own |
| ErrorExcerpt.TailLines | slurmweb/views/agent.py:398-416 | the tail's lines are the last lines of the whole file, none of them cut |
| ErrorExcerpt.TailChoice | slurmweb/views/agent.py:419-433 | the tail scan names the line a whole scan would name exactly when that line is in the tail |
| ErrorExcerpt.TailChoiceEnough | slurmweb/views/agent.py:419-433 | it does so when the last error line and the 59 lines before it are in the tail |
| EndToEnd.PageParsesTheFile | frontend/src/components/job/JobPipelineConsole.vue:250-267 | in every run the page's parser is in the state one append of the decoded file up to the cursor leaves, when no chunk begins inside a character |
| EndToEnd.ExcerptNamesRowsOfPage | slurmweb/views/agent.py:434-443 | on an unmarked log the excerpt's line and lines are the page's rows with those numbers |
| EndToEnd.FinishedPageRows | frontend/src/components/job/JobPipelineConsole.vue:263-265 | in every run a page opened on a finished job that has the whole unmarked file shows its lines exactly if every chunk but the first starts after a newline of the file |
| EndToEnd.EndedPageRows | frontend/src/components/job/JobPipelineConsole.vue:263-292 | in every run a page whose job ended after chunk k shows as many rows as the file has lines exactly if every later chunk starts after a newline of the file, and the lines exactly if no chunk began inside a character either |
| EndToEnd.StillFileRows | frontend/src/components/job/JobPipelineConsole.vue:263-265 | a file that no longer changes, read without interruption, is shown line by line exactly if a newline stands before every multiple of 131072 bytes within it |
| NodesetFold.ConsecutiveNodes.constructor | frontend/src/composables/Nodeset.ts:15-24 | a new group holds one name's pattern, runs and number |
| NodesetFold.ConsecutiveNodes.Follows | frontend/src/composables/Nodeset.ts:25-45 | the loop decides whether a name is the next of the group |
| NodesetFold.ConsecutiveNodes.Show | frontend/src/composables/Nodeset.ts:49-73 | the replacing loop prints the pattern with its runs and, for several names, the padded range |
| NodesetFold.SplitName | frontend/src/composables/Nodeset.ts:83-94 | the loop over matches gives the pattern and the digit runs |
| NodesetFold.FoldNodeset | frontend/src/composables/Nodeset.ts:76-105 | the array is sorted in place and the text is the groups of the sorted names |
| NodesetFold.ExpandNodeset | frontend/src/composables/Nodeset.ts:107-128 | the nested loops give the names of all matches in order |
| NodesetRoundTrip.FillParse | frontend/src/composables/Nodeset.ts:49-63 | a parsed name filled with its own runs is the name again, in any context |
| NodesetRoundTrip.GroupsStandForNames | frontend/src/composables/Nodeset.ts:76-105 | the groups stand for exactly the sorted names, padding included |
| NodesetRoundTrip.GroupsMaximal | frontend/src/composables/Nodeset.ts:96-101 | no group could have taken the first name of the next one |
| NodesetRoundTrip.ExpandFold | frontend/src/composables/Nodeset.ts:76-128 | for every list of names, expanding the folded text gives the sorted names back exactly when all are nonempty over letters, digits, underscore and hyphen and all merged neighbours end in a digit run with something before it |
| NodesetRoundTrip.ExpandFoldRegular | frontend/src/composables/Nodeset.ts:76-128 | for names without digits or with a final digit run after something, exactly when all are over those characters and no name without digits is repeated |
| NodesetRoundTrip.NotReadBack | frontend/src/composables/Nodeset.ts:107-128 | consecutive names with digits alone or text after the digits are merged and never read back |
| Poller.OneLiveChain | frontend/src/composables/DataPoller.ts:84-108 | in every interleaving live timers and current loops number one while running and none otherwise, and a live timer is the one held |
| Poller.PollsExactly | frontend/src/composables/DataPoller.ts:70-108 | in every run the one live chain exists exactly if the last mount or setter is followed by no unmount and no permission error of any poll, however old |
| Poller.UnableExactly | frontend/src/composables/DataPoller.ts:53-82 | in every run the page is marked unable exactly if a response since the last request, whichever request it answers, was a denied permission or another error |
| Poller.ResponseKillsExactly | frontend/src/composables/DataPoller.ts:58-82 | a response of any generation leaves the live chain as it is unless it denies permission, and then ends it |
| Poller.StopEndsPolling | frontend/src/composables/DataPoller.ts:100-108 | after stop no request starts until a setter or mount, whatever still completes or fires |
| Poller.PendingTimerIsHeld | frontend/src/composables/DataPoller.ts:84-108 | in every run each pending timer is the one stop clears and none runs beside a poll, in every state, exactly as long as no mount comes while a timer is pending |
| Poller.OneTimerExactly | frontend/src/composables/DataPoller.ts:84-108 | a step leaves a timer that is not held exactly if it is a mount while a timer is pending |
| Poller.MountedFirstIsSafe | frontend/src/composables/DataPoller.ts:131-133 | mounted once and first, as a component is, no mount ever meets a pending timer |
| Poller.SetterBeforeMount | frontend/src/composables/DataPoller.ts:131-133 | a setter before the mount leaves a stale timer that is not the one held |
| Poller.StaleDenialStopsNewLoop | frontend/src/composables/DataPoller.ts:70-76 | a response to a poll from before a setter ends the loop the setter started exactly if it denies permission |
| Poller.LoadedDataIsCurrent | frontend/src/composables/DataPoller.ts:110-129 | over every run the loaded data is the current setting's in every state exactly if no data arrives for a poll that asked for another one |
| Poller.AbortsSuffice | frontend/src/composables/DataPoller.ts:100-108 | so it is when every aborted poll fails |
| Poller.StaleSuccessShows | frontend/src/composables/DataPoller.ts:58-69 | mount, setter, then the first poll's data: the first setting's data is shown as loaded under the second |
| PollerObject.ClusterDataPoller.StartPolling | frontend/src/composables/DataPoller.ts:84-87 | whatever was alive before, exactly one chain is alive afterwards and its poll asks for the current setting |
| PollerObject.ClusterDataPoller.StopPolling | frontend/src/composables/DataPoller.ts:100-108 | no chain is alive, the held timer is gone, and data and setting stay |
| PollerObject.ClusterDataPoller.PollReturns | frontend/src/composables/DataPoller.ts:58-82 | the live chain ends exactly on a permission error, data is shown exactly on success, and the page stays right exactly unless the data answers a poll for another setting |
| PollerObject.ClusterDataPoller.StartContinues | frontend/src/composables/DataPoller.ts:88-98 | the number of live chains stays, and a timer is armed, as the only live one, exactly by the latest loop of a running poller |
| PollerObject.ClusterDataPoller.TimerFires | frontend/src/composables/DataPoller.ts:91-96 | the number of live chains stays, and one poll is started exactly if the timer was live |
| PollerObject.ClusterDataPoller.SetTarget | frontend/src/composables/DataPoller.ts:110-129 | exactly one chain is alive, its poll asks for the new setting, and nothing is shown as loaded |
| LiveSocket.SocketOrTimer | frontend/src/composables/useJobLiveSocket.ts:85-162 | never both a socket and a reconnect timer; exactly one while started, not stopped and not given up; delays are the capped doubling and stay within bounds |
| LiveSocket.StoppedExactly | frontend/src/composables/useJobLiveSocket.ts:85-184 | in every run the machine is stopped exactly if it was refused, closed or rejected and neither restart() nor a lasting error with another code came after that |
| LiveSocket.RefusedStaysStopped | frontend/src/composables/useJobLiveSocket.ts:134-161 | after a lasting 4401, 4403 or 4404, in any run, it is stopped in every state and opens no connection, whatever the close code, until a reviving frame or restart() |
| LiveSocket.OtherwiseRunsOn | frontend/src/composables/useJobLiveSocket.ts:134-161 | any other frame leaves a running machine running: when its socket is lost it tries again or falls back |
| LiveSocket.RefusedRun | frontend/src/composables/useJobLiveSocket.ts:134-151 | connected, refused with 4401, lost with 1006: closed, with nothing open or pending |
| LiveSocket.StateShows | frontend/src/composables/useJobLiveSocket.ts:85-173 | in every run the page shows live exactly while its socket is ready, reconnecting from a loss until then, and closed exactly once it is stopped without a socket |
| LiveSocket.FallbackAtThirdFailure | frontend/src/composables/useJobLiveSocket.ts:85-97 | where WebSocket exists a step falls back exactly when it is the third failure since the last restart and no ready was ever seen |
| LiveSocket.NoFallbackOnceReady | frontend/src/composables/useJobLiveSocket.ts:85-97 | once ready was seen no later step falls back |
| LiveSocket.FailuresAreLosses | frontend/src/composables/useJobLiveSocket.ts:85-90 | until the first ready the failures are the losses since the last restart, at most three |
| LiveSocket.CloseQuiets | frontend/src/composables/useJobLiveSocket.ts:146-173 | close() and a rejection leave neither socket nor timer |
| LiveSocket.QuietUntilRestart | frontend/src/composables/useJobLiveSocket.ts:99-105 | from there no connection opens before restart() |
| LiveSocket.StopsThroughExactly | frontend/src/composables/useJobLiveSocket.ts:134-140 | a stopped machine whose socket is still open stays stopped through a frame exactly if that is not a lasting error with a code other than 4401, 4403 and 4404 |
| LiveSocket.StoppedUntilRevived | frontend/src/composables/useJobLiveSocket.ts:134-161 | over every run without restart() a stopped machine, its socket open or not, stays stopped in every state exactly if no such frame arrives, and then opens no connection |
| LiveSocket.LaterErrorRevives | frontend/src/composables/useJobLiveSocket.ts:134-140 | connected, refused with 4401, then told of error 4500: the page reconnects when the socket closes |
| LiveSocketObject.JobLiveSocket.Reconnect | frontend/src/composables/useJobLiveSocket.ts:85-97 | the third failure without a ready falls back and arms nothing; any other loss leaves exactly one timer, with the delay the losses in a row call for |
| LiveSocketObject.JobLiveSocket.Connect | frontend/src/composables/useJobLiveSocket.ts:99-115 | unless stopped, exactly one of a socket, a timer and the fallback results, a socket where WebSocket exists and opens |
| LiveSocketObject.JobLiveSocket.Receive | frontend/src/composables/useJobLiveSocket.ts:120-142 | no frame opens or arms anything; a lasting error stops the machine exactly if its code is 4401, 4403 or 4404, revives it otherwise, and no other frame does either; only ready changes anything else |
| LiveSocketObject.JobLiveSocket.SocketClosed | frontend/src/composables/useJobLiveSocket.ts:146-161 | another socket's closing changes nothing; the current one's leaves nothing open or pending when stopped or closed with a code from 4400 to 4499, and otherwise one timer with its delay or the fallback |
| LiveSocketObject.JobLiveSocket.Close | frontend/src/composables/useJobLiveSocket.ts:164-173 | neither socket nor timer is left and no connection is opened |
| LiveSocketObject.JobLiveSocket.Restart | frontend/src/composables/useJobLiveSocket.ts:176-184 | from any state exactly one of a socket, a timer and the fallback results, with failures and delays starting anew |
| LiveSocketObject.JobLiveSocket.TimerFires | frontend/src/composables/useJobLiveSocket.ts:91-97 | the pending timer gives another try, or nothing when stopped |
| Cache.MainKeysInjective | slurmweb/slurmrestd/__init__.py:706-755 | two cached queries share a key only when method and argument are the same |
| Cache.DataApartFromStatistics | slurmweb/cache.py:60-70 | no data key is a statistics key |
| Cache.StatKeysInjective | slurmweb/cache.py:60-70 | statistics keys of different side or name differ |
| Cache.CountNamesByMethod | slurmweb/slurmrestd/__init__.py:706-755 | calls are counted under one name for each method, whatever their arguments |
| CacheRun.CountersConserved | slurmweb/cache.py:60-70 | in every interleaving, since the start or the last quiet reset, each total plus the workers between their two increments is the sum of the counters; at rest hits plus misses are the cached calls since then |
| CacheRun.MetricsComplete | slurmweb/cache.py:72-97 | since the start or the last quiet reset the metrics report every counter in use with its value and nothing else |
| CacheReset.TotalsAreCalls | slurmweb/slurmrestd/__init__.py:687-704 | in every run without a reset, hits are the calls that found data and misses those that stored an answer, less the calls still being counted |
| CacheRun.NoCachingNoTrace | slurmweb/slurmrestd/__init__.py:687-704 | where caching is off no call ever stores or counts anything |
| CacheRun.OpenedInv | slurmweb/cache.py:99-118 | a reset whose commands nothing is counted among puts the books in order, also where an earlier one had unbalanced them |
| CacheRun.ResetZero | slurmweb/cache.py:99-118 | a reset leaves all-zero metrics |
| CacheReset.ResetLeaves | slurmweb/cache.py:99-118 | whatever is counted among its commands, a reset leaves exactly the totals counted after it zeroed them, the increments of each counter after it deleted it or read the names without it, and the names recorded after it deleted the set |
| CacheReset.ResetBalance | slurmweb/cache.py:99-118 | afterwards a side balances exactly if the calls between their increments at the beginning plus the later increments of counters it was still to delete equal the totals counted before it zeroed them |
| CacheReset.ResetLosesExactly | slurmweb/cache.py:99-118 | a counter is lost exactly if it was incremented after the reset passed it and its name was not recorded after the set of names was deleted |
| CacheReset.ResetRecordsExactly | slurmweb/cache.py:99-118 | afterwards every counter in use is recorded exactly if its name was recorded after the set of names was deleted |
| CacheReset.UninterruptedReset | slurmweb/cache.py:99-118 | in whatever order counters are deleted, commands without interruption do what the reset in one step does |
| CacheReset.UninterruptedRecordsExactly | slurmweb/cache.py:99-118 | such a reset leaves every counter in use recorded exactly if no call is at one of its two increments |
| CacheReset.CounterLostByReset | slurmweb/cache.py:60-118 | the failing run: a whole call after the names are read and before their set is deleted; nobody is at an increment when the reset begins or ends, and the counter is lost |
| CacheReset.TotalLeftByReset | slurmweb/cache.py:60-118 | the failing run: a whole call after the totals are zeroed and before its counter is deleted; the total is one and no counter is reported |
| CacheReset.OverlappingResetOrphans | slurmweb/cache.py:60-118 | a reset without interruption between a call's record of its name and its increment leaves a counter without a recorded name |
| CacheReset.OrphanExactly | slurmweb/cache.py:60-118 | such a counter stays unrecorded through every action, each command of a reset included, except a record of its own side and name |
| CacheReset.OrphanStays | slurmweb/cache.py:72-97 | over every run without such a record the metrics leave that counter out |
| CacheRun.CallIsTransparent | slurmweb/slurmrestd/__init__.py:687-704 | in every run, with other workers between lookup, query and store, a call that finds data returns what was answered to the same query and stored less than the expiration ago, and a call that finds none returns what was answered after its lookup |
| CacheRun.SlowAnswerServedOld | slurmweb/slurmrestd/__init__.py:687-704 | from any state an answer that is slow to be stored is still served almost a whole expiration after its store |
| CacheRun.ServedYoungExactly | slurmweb/slurmrestd/__init__.py:687-704 | what is served of one stored answer is always younger than the expiration exactly if it was stored at the instant it was asked for |
| CacheRun.NeverServedOldExactly | slurmweb/slurmrestd/__init__.py:687-704 | over every run, nothing older than the expiration can ever be served exactly if every answer that can be served was stored at the instant it was asked for |
| CacheObject.CachingService.StoreData | slurmweb/cache.py:39-46 | until the expiration has passed, and no longer, a get of the key finds the value; other queries' data, all counters and names stay |
| CacheObject.CachingService.CountEvent | slurmweb/cache.py:60-70 | the side's total and the sum of its counters grow by one and the name is recorded; the other side and all cached data stay, and books that balanced still do |
| CacheObject.CachingService.Metrics | slurmweb/cache.py:72-97 | the loops report the counters of the recorded names and the totals |
| CacheObject.CachingService.Reset | slurmweb/cache.py:99-118 | the loops zero the totals and delete counters and name sets, and nothing else |
| CacheObject.CachingService.CallCached | slurmweb/slurmrestd/__init__.py:687-704 | data found is returned, raises hits by one and stores nothing; an answer fetched raises misses by one and is found until it expires; a failed call changes nothing |
| Gres.ReadersAgree | slurmweb/slurmrestd/__init__.py:510-521 | on every printed list the node view lists the GPU entries in order, and the agent and the job view count the same GPUs each exactly if it reads none after the commas inside annotations; with index lists they always do |
| Gres.JoinedSplits | frontend/src/composables/gateway/slurm/node.ts:15-16 | splitting outside annotations gives back the printed entries |
| Gres.ListCounts | frontend/src/composables/gateway/slurm/job.ts:99-110 | a reader that splits at every comma counts a printed list right exactly if the pieces after commas inside annotations add up to no GPU |
| Gres.NamedInAnnotation | slurmweb/slurmrestd/__init__.py:510-521 | gpu:2(x,gpu:1) is an error for the agent and three GPUs for the job view |
| Resources.ExtractGpus | slurmweb/slurmrestd/__init__.py:510-521 | the agent's loop sums the pieces and fails on a count that is no number |
| Resources.CountGpuRequest | frontend/src/composables/gateway/slurm/job.ts:99-110 | the job view's loop sums the pieces |
| Resources.NodeGpuFromGres | frontend/src/composables/gateway/slurm/node.ts:52-65 | the node view's loop lists the GPU entries |
| Resources.ResourcesStates | slurmweb/slurmrestd/__init__.py:398-484 | the tally loop gives every state the nodes whose first flag it is, with their cores and GPUs, and succeeds exactly if the GPU lists it needs can be read |
| Resources.TalliesByState | slurmweb/slurmrestd/__init__.py:432-484 | nodes, cores and GPUs by state are the sums over the nodes with that flag and none before it; a mixed node's cores and a busy node's GPUs are split between allocated and idle |
| Resources.CountsAddUp | slurmweb/slurmrestd/__init__.py:432-484 | node and GPU counts by state add up to their totals; core counts differ by exactly what mixed nodes leave unaccounted |
| Resources.CoresAddUp | slurmweb/slurmrestd/__init__.py:444-448 | core counts add up exactly when the mixed nodes are accounted for |
| JobsQuery.UrlRoundTrip | frontend/src/composables/jobs/JobsPageQuery.ts:64-141 | a fresh page opened on a store's URL has every setting of the route, the name trimmed, exactly when lists and hours are ones a URL can carry |
| JobsQuery.UrlRoundTripAnywhere | frontend/src/composables/jobs/JobsPageQuery.ts:64-141 | opened on any store it has them exactly when they are such, and that store is at the default wherever the URL leaves one out |
| JobsQuery.OtherRouteKept | frontend/src/composables/jobs/JobsPageQuery.ts:75-198 | opening a route on any URL, from any store, leaves the other route's sort, order, states and time window alone |
| JobsQuery.EmptyParameterEmpties | frontend/src/composables/jobs/JobsPageQuery.ts:185-198 | a parameter that is present but empty empties the route's filters; without any parameter they stay |
| JobsQuery.ListRoundTrip | frontend/src/stores/runtime/jobs.ts:306-324 | a filter list survives exactly when no value holds a comma and it is not one empty value |
| JobsQuery.HoursRoundTrip | frontend/src/composables/jobs/JobsPageQuery.ts:64-73 | the time window survives exactly when it is the default, one hour, or within the cluster's maximum |
| JobsStore.JobsRuntimeStore.QueryFor | frontend/src/stores/runtime/jobs.ts:295-360 | settings that differ from the route's defaults are written field by field |
| JobsStore.JobsRuntimeStore.SyncFiltersFromRoute | frontend/src/composables/jobs/JobsPageQuery.ts:75-141 | filters are emptied and then set from the URL |
| JobsStore.JobsRuntimeStore.SetupFilterQuerySync | frontend/src/composables/jobs/JobsPageQuery.ts:185-198 | a URL with a parameter of this route is restored; without any the store is kept and written |

## Left out

- The gpu and job channels, heartbeats and the `ready` frame of the live session: each sends the latest value or a marker and has no cursor.
- The fallback polling of the page and the order in which it overlaps the socket: only the SSE stream is compared with the live push.
- LiveRun.LosslessResume: runs in which files only grow and a stream that has made progress keeps its path; `ReplacedFiles.InStepAgain` and `LiveRun.PathChangeExactly` are the exact conditions outside them.
- LogDelivery.TruncationShowsOnce: one connection, a round per content; pauses, lost frames and reconnections are in `ReplacedFiles`.
- LiveRun.PageAfterTruncation: the same; every chunk is delivered.
- ReplacedFiles.InStepAgain: between two changes of the path; a path changes only while nothing of the stream is counted or in flight.
- JobLiveSessionObject.JobLiveSession.SubscribeChannels: the job frame between snapshot and confirmation is not modelled.
- JobLiveSessionObject.JobLiveSession.ServiceRound: the gpu, job and heartbeat frames of a round are not modelled.
- ChecksRun.ChecksNeverMissed: requires reads that fit the 10000-event window and events recorded above every cursor; `ChecksRun.LostExactly`, `ChecksRun.RightExactly` and `ChecksRun.CaughtUpWithSnapshot` hold in every run and say exactly what happens otherwise.
- Check numbers are positive and distinct within a job. They are nanoseconds above 2^53, so the browser rounds them, and with them the cursor it resumes from; here they stay exact.
- Subscribing again on an open connection with frames in flight: only `LiveSession.PushStreamSlices` is claimed there.
- A service round, and the size check with the read after it, are atomic; the file does not change in between.
- Job output paths are taken as already resolved inside the managed roots; check files are taken as parsed events, without the 2 MB tail and the skipping of unreadable lines.
- A stalled check's seconds are exact here; the agent rounds them to a tenth.
- Stalled labels are dropped when the page receives a snapshot; the page computes its own display from the clock.
- LogModelObjects.LogModel.PushLine: a row's timestamp, colour segments and stripped text are not modelled; the error and warning patterns are arbitrary recognisers.
- `clearView`, which empties the parser and keeps the byte cursors, so that later rows start counting anew.
- Strings are sequences of Unicode scalar values: JavaScript's UTF-16 units and lone surrogates are not modelled, and strings sort by scalar value.
- Wire.LogFramesFit: file sizes below 10^19 bytes; the path is the job's output path as text.
- Numbers are unbounded: `parseInt` beyond 15 digits and floating rounding of nodeset numbers are not modelled; `int` and `parseInt` read blanks, a sign and decimal digits; hexadecimal `parseInt` and underscores in `int` are left out.
- LiveSocket.SocketOrTimer: one initial connect(), and frames come from the current socket only; sending and socket ready states are not modelled.
- Poller.LoadedDataIsCurrent: cluster, callback and parameter are one setting.
- CacheRun.CountersConserved: requires that nothing is counted among the commands of a reset, of which `CacheReset` says what happens otherwise; two resets at once and a worker that dies between two commands are not modelled.
- CacheReset.ResetBalance: a reset that begins with every counter in use recorded; a counter lost before stays as it is by `CacheReset.OrphanStays`.
- Connection errors of Redis, pickling and the wrapping of errors.
- Gres.ReadersAgree: annotations hold no parenthesis, and names and models none of the separators.
- The state counts of jobs, the field filters and the adapters between slurmrestd versions: each maps or counts one record at a time and has no property across calls.
- Authentication, authorisation, TLS and HTTP transport, and the relay's threads: the gateway hop is a queue.
