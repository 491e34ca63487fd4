# Verified models of the chat client and the regression harness

This project models, in Dafny, the parts of the repository whose correctness no finite test
settles: the cooperative tasks of the chat client, three independent readers and one printer of
server-sent events, resumption of a broken event stream, the step schedule of live scenarios, the
one-slot gateway pool with its run order and config overlay, the Wilson verdicts, the failure
ledger, and the reconstruction and matching of event traces. Each module states what the code
promises over all inputs, all runs or all schedules, and proves it.

| file | models |
|---|---|
| `Common.dfy` | `Option`, `Result`, `str.isspace` |
| `ChatSession.dfy` | the chat controller as a transition system over its await points |
| `ChatTurns.dfy` | how its turns go and end, read off the events they dispatch |
| `ChatController.dfy` | the controller object, whose methods perform those transitions on its fields |
| `Sse.dfy`, `SseRoundTrip.dfy` | the SSE parser of the test kit, the frame printer, and their round trips |
| `SseReaders.dfy`, `SseSegments.dfy`, `SseAgreement.dfy`, `SseLines.dfy` | the chat client's and the live runner's readers, what they make of any text, where the three agree, and why their lines are those of `str.splitlines` |
| `ChatResume.dfy` | reconnecting with Last-Event-ID after a cut at any character |
| `StepSchedule.dfy`, `LiveTurn.dfy`, `LiveVerdict.dfy`, `LiveWire.dfy` | `DueSteps`, the live step rules, the drop and resume loop of a live turn, the turns of a session, what is reported of them, and the same from the text on the wire |
| `Gateways.dfy`, `GatewayOrder.dfy` | the gateway pool, and the order in which a suite uses it |
| `ConfigMerge.dfy`, `ConfigPaths.dfy` | `deep_merge` and `nest_overrides`, and what they hold path by path |
| `Wilson.dfy` | the Wilson interval and the scenario verdicts, in exact reals |
| `Ledger.dfy`, `LedgerRows.dfy`, `RunNames.dfy`, `LedgerPrune.dfy` | open failures, what their rows say, names of run files, and their retention |
| `Trace.dfy`, `TraceAgreement.dfy`, `TraceCalls.dfy`, `TraceErrors.dfy` | tool calls rebuilt from traces in two ways, exactly when the two agree, what each makes of any trace, and the error counts taken from them |
| `Matching.dfy` | the greedy scans over events and rows |

The format of the event stream is that of sections 9.2.5 and 9.2.6 of the WHATWG HTML Standard, with
the deviations of the code: comments are kept, the id is reset for each frame, and a trailing event
is flushed at the end.

Eight statements one might expect turn out to be false, and the model says exactly when they hold:

- Finishing the SSE parser is not the same as feeding a blank line: a leftover that ends in a bare
  CR keeps the CR (`SseRoundTrip.FinishIsBlankLine`).
- The chat client may queue torn data: when a connection ends cleanly inside the data of a logged
  frame, what arrived of it is yielded as a frame with its id (`ChatResume.ExactlyOnce`).
- `deep_merge` is not associative (`ConfigMerge.MergeAssociates`, `ConfigMerge.NotAssociative`).
- `nest_overrides` is not idempotent: `{"a. ": 1}` is accepted, its nested form is refused, since
  only whole keys, not segments, are checked for being blank; nor do the dotted and the nested
  spelling agree there, although its docstring says they do (`ConfigMerge.NestAgain`,
  `ConfigMerge.NotIdempotent`, `ConfigMerge.DottedAgrees`).
- `prune` does not always remove a prefix of the listing: a name that matches the run pattern but
  holds no valid time survives in front of a removed run (`LedgerPrune.PrefixIffReadable`).
- The two readers of a trace do not always rebuild the same calls: they do exactly when every start
  has a call id and every result names a call of its tool that is open at that point
  (`TraceAgreement.AgreeExactly`, `TraceAgreement.ReconstructionsDiffer`).
- "SSE ended before TurnComplete" may be reported of a turn that recorded its TurnComplete: exactly
  when that event itself dropped the stream and the next connection brought nothing
  (`LiveVerdict.EndedEarly`, `LiveVerdict.EndedAfterComplete`).
- A chat request is not active only while it is posted or its turn runs: an exception that escapes
  either, such as the one `data.get` raises for JSON that is no object (line 558) or `resp.json()`
  for a usage body that is no JSON (line 960 of `chat_session.py`), leaves it active for good, and
  nothing else does (`ChatSession.MutualExclusion`, `ChatSession.StuckForGood`).

## Model

| member | source | states |
|---|---|---|
| `ChatSession.MutualExclusion` | cli/src/monkeybot_cli/chat_session.py:502-666 | In every run of pump, watcher, aborts, escaping exceptions and non-overlapping submits, at most one task consumes the queue, a request is active exactly while it is being posted or its turn runs or once an exception has ended either, and neither the put-back branch nor the second busy answer is ever reached |
| `ChatSession.StuckForGood` | cli/src/monkeybot_cli/chat_session.py:502-543 | Once an exception has ended a posting or a turn, no later step changes anything but the abort flag and the queue, which only grows: the request stays active and every submit is refused |
| `ChatSession.StuckHappens` | cli/src/monkeybot_cli/chat_session.py:538-543 | A run in which an exception ends the user's turn and leaves its request active |
| `ChatSession.EventsConserved` | cli/src/monkeybot_cli/chat_session.py:566-683 | In every run the arrivals are, as a multiset, the queued, deferred, batched, dispatched and dropped events; the queue is the tail of the arrivals; and each drop has one of four reasons, which holds; the batch that an exception cuts short counts as dropped |
| `ChatSession.DispatchedInOrder` | cli/src/monkeybot_cli/chat_session.py:566-601 | In every run an event with a request id is dispatched only in a turn of that id, and each request's events are dispatched in arrival order |
| `ChatSession.ControlKept` | cli/src/monkeybot_cli/chat_session.py:603-628 | Every step of every task keeps the control invariant behind mutual exclusion |
| `ChatSession.StepGood` | cli/src/monkeybot_cli/chat_session.py:566-666 | Every step keeps conservation and per-request order together with control |
| `ChatSession.StepAudit` | cli/src/monkeybot_cli/chat_session.py:566-683 | Every step keeps each recorded dispatch in the right turn and each recorded drop justified |
| `ChatSession.WakeDuringTurn` | cli/src/monkeybot_cli/chat_session.py:649-666 | A run in which another request's event arrives during a user turn, waits, and is then shown in a turn of its own |
| `ChatTurns.DoneExactly` | cli/src/monkeybot_cli/chat_session.py:566-588 | In every run the current turn is done exactly when, since it started, it has dispatched an Error, or a TurnComplete whose usage has been fetched; that event is the last it dispatched; and the ids remembered as abandoned are the newest 64 |
| `ChatTurns.TurnsListen` | cli/src/monkeybot_cli/chat_session.py:668-750 | In every run each step dispatches nothing or one event, in a turn that is not done and whose id the event bears or does not contradict; an Error makes the turn done, a TurnComplete has it fetch the usage, a request to the user has it wait; and while a turn runs no event without request id is dropped |
| `ChatTurns.DoneTurnEnds` | cli/src/monkeybot_cli/chat_session.py:590-601 | In every run a turn that is done, aborted or at its exit ends by its own next steps, at most four, which clear the active request and dispatch nothing |
| `ChatTurns.TurnEndsBecause` | cli/src/monkeybot_cli/chat_session.py:566-601 | In every run a turn ends only because it is done, aborted and remembered as abandoned, at the end of the stream, or by an exception |
| `ChatTurns.StepsObey` | cli/src/monkeybot_cli/chat_session.py:475-543 | In every run events of abandoned requests are neither dispatched nor deferred, the abort flag is set by aborts and refusing answers and cleared by a new request only, the end marker and nothing else on the queue stops its taker, and a submit is refused iff a request is active and otherwise posted |
| `ChatTurns.WatcherRuns` | cli/src/monkeybot_cli/chat_session.py:603-647 | In every run, while nothing is submitted and no request is active, the watcher runs unless it took the end marker or raised, and it waits on the queue only when nothing is deferred |
| `ChatTurns.StepProgress` | cli/src/monkeybot_cli/chat_session.py:566-666 | Every step keeps the invariant behind these |
| `ChatController.Controller.Advance` | cli/src/monkeybot_cli/chat_session.py:502-683 | Whatever the scheduler chooses, the object's fields take exactly that step of the transition system, and every invariant above is kept |
| `ChatController.Controller.PlayDeferred` | cli/src/monkeybot_cli/chat_session.py:649-666 | One pass drops an id-less or abandoned event, or starts a turn with all deferred events of the first one's request, leaving the others in order |
| `Sse.TakeLine` | testkit/sse.py:48-61 | The scan returns the text up to the first CR, LF or CR LF and what follows it, and nothing while a trailing CR could still become CR LF |
| `Sse.SseParser.Feed` | testkit/sse.py:76-104 | Feeding text to the object returns the frames, and leaves the buffer and pending fields, of the recursive reading of buffer and text |
| `Sse.SseParser.Finish` | testkit/sse.py:79-88 | Finishing applies the leftover as a line and returns the trailing frame, if any |
| `Sse.SseParser.Apply` | testkit/sse.py:106-124 | One line updates id, event, data, comments and the touched mark as its field name says |
| `Sse.SseParser.Dispatch` | testkit/sse.py:126-140 | A frame is returned iff some line touched it, and the pending fields are cleared |
| `Sse.LineMeans` | testkit/sse.py:106-124 | What a line does by the name before its first colon: a comment, an id, an event name, a data line or nothing; without a colon the value is empty, and one leading space is dropped |
| `Sse.FirstLineExtends` | testkit/sse.py:48-61 | More text never changes a line that was complete |
| `Sse.ChunkIndependence` | testkit/sse.py:76-104 | For every text and every split into chunks the frames, the buffer and the pending fields are those of the whole text, even when CR LF straddles a boundary |
| `Sse.ReadChunks` | testkit/sse.py:76-104 | A parser object fed any chunks and finished returns the frames of the concatenated text |
| `SseRoundTrip.RoundTrip` | regression/drivers/gateway.py:386-397 | Printing frames and parsing them in any chunks gives the frames back iff each sets a field, has no CR or LF in id or event and no CR in data or comment |
| `SseRoundTrip.ReprintStable` | testkit/sse.py:90-140 | Every frame parsed from any text can be printed and parsed back: parse, print, parse is parse |
| `SseRoundTrip.FrameReadBack` | regression/drivers/gateway.py:386-397 | One printed frame followed by any text parses to that frame and then the text |
| `SseRoundTrip.ConsumeOk` | testkit/sse.py:106-140 | Frames parsed from any text meet the printing conditions |
| `SseRoundTrip.FinishIsBlankLine` | testkit/sse.py:79-88 | Finishing equals appending a blank line iff the leftover does not end in a CR that becomes part of a field |
| `SseRoundTrip.FinishDiffers` | testkit/sse.py:82-84 | A leftover on which they differ |
| `SseReaders.IterSseFrames` | cli/src/monkeybot_cli/chat_session.py:173-193 | The chat client's loop yields the frames of the recursive reading, the unterminated last one only after a clean end |
| `SseReaders.ParseSseBlocks` | regression/t4/runner.py:38-71 | The runner's block loop returns the events of all complete blocks and the unread rest |
| `SseReaders.LiveChunkIndependence` | regression/t4/runner.py:38-71 | The runner's events do not depend on how any text is cut into chunks |
| `SseSegments.ChatFramesMean` | cli/src/monkeybot_cli/chat_session.py:173-193 | For all lines, the client yields a frame at each blank line that follows a data line since the last frame, made of the data lines since then and the last number among their ids |
| `SseSegments.LineEventsMean` | regression/t4/runner.py:52-70 | For all lines of a block, its events are its data lines with JSON objects, in order, each with the id line before it |
| `SseSegments.FirstBlockMeans` | regression/t4/runner.py:45-46 | The first block is the text before the first place where a separator starts, the rest what follows that separator |
| `SseSegments.SeparatorMeans` | regression/t4/runner.py:45 | A separator is one of LF LF, CR LF LF, LF CR LF and CR LF CR LF |
| `SseSegments.BlockTrims` | regression/t4/runner.py:48-50 | Whitespace around a block does not matter |
| `SseAgreement.ReadersAgree` | testkit/sse.py:90-140 | On every stream of printed event frames and pings without other line separators than LF, in any chunks, the test parser, the live runner and the chat client deliver the same pairs of id and data and leave nothing unread |
| `SseAgreement.LiveReads` | regression/t4/runner.py:38-71 | The runner reads a printed stream back as its events |
| `SseAgreement.StreamYields` | cli/src/monkeybot_cli/chat_session.py:173-193 | The chat client reads a printed stream back, frame by frame, from every frame boundary |
| `SseLines.StreamSplitlines` | cli/src/monkeybot_cli/chat_session.py:177 | Whatever of such a stream has arrived, `str.splitlines`, by which the HTTP client splits it, gives the lines the models read |
| `ChatResume.Pump.PumpConnection` | cli/src/monkeybot_cli/chat_session.py:402-407 | One connection appends its frames to the queue and leaves the last id seen |
| `ChatResume.ReceivedIs` | cli/src/monkeybot_cli/chat_session.py:173-193 | A connection cut after any character delivers the whole frames before the cut and, after a clean end, the remnant of the next |
| `ChatResume.ConnectKeeps` | cli/src/monkeybot_cli/chat_session.py:369-437 | One more connection keeps a client at an exact prefix of the log's ids, its data right iff the end did not tear a logged frame, and completes the prefix iff it reached the last logged frame it was sent |
| `ChatResume.ExactlyOnce` | cli/src/monkeybot_cli/chat_session.py:369-437 | For every log and every schedule of cut connections the client holds the ids of a prefix of the log, each once and in order, with the logged data iff no clean end fell inside the data of a logged frame; the prefix is the whole log iff some connection reached the last logged frame it was sent, as every connection delivered whole does |
| `ChatResume.TornHappens` | cli/src/monkeybot_cli/chat_session.py:192-193 | For every logged entry there is a connection whose clean end delivers its id without its data |
| `StepSchedule.DueSteps.Take` | regression/schema/steps.py:305-325 | The shared counters return exactly the steps whose own predicate matches for the nth time now, in list order, and keep the others |
| `StepSchedule.DueSteps.constructor` | regression/schema/steps.py:298-300 | Initially exactly the steps with a predicate are pending |
| `StepSchedule.FiresExactlyOnce` | regression/schema/steps.py:305-325 | On every trace a step is due at exactly one event if its predicate matches at least n times, and at none otherwise |
| `StepSchedule.SameKeySameMatch` | regression/schema/steps.py:539-570 | Predicates that share a counter key, absent and empty names merged, match the same events |
| `StepSchedule.MatchesMeans` | regression/schema/steps.py:539-570 | A predicate matches the events of its kind, by its six short names or its own, that bear its name and its call id where it has them, as the first non-empty one of their fields |
| `StepSchedule.RulesMean` | regression/schema/scenario.py:266-291 | Live steps are accepted iff all actions are live ones, the k-th drop and the k-th resume have the same predicate, setup steps have none and every resume is from the last id seen; otherwise the first rule broken is reported |
| `StepSchedule.DropsArePaired` | regression/schema/scenario.py:266-287 | In every accepted live scenario, after every history, an event makes a drop due iff it makes a resume due, and every due step can run mid-turn |
| `StepSchedule.ApplySteps` | regression/t4/runner.py:325-347 | The due steps drop the stream iff one disconnects and resume from the frame's id iff one reconnects; the error is exactly the first step that is unknown or whose request fails |
| `StepSchedule.DropHasResumeId` | regression/t4/runner.py:325-347 | A drop triggered by a frame resumes from that frame's id |
| `LiveTurn.Reader.AbsorbFrame` | regression/t4/runner.py:364-413 | One frame records its event and its id, counts completions, stops on an Error, and runs the steps it makes due, which may raise or drop the stream |
| `LiveTurn.Reader.ConsumeStream` | regression/t4/runner.py:350-420 | Reading a connection stops at the first frame that fails, raises or drops, discarding what was parsed after it; once the turn is complete, what still arrives within the grace is only counted |
| `LiveTurn.Reader.CollectTurn` | regression/t4/runner.py:423-526 | The turn posts on its first connection, reads connections until one does not ask to resume, and reports a refused connection, a refused message, an error, completion or an early end |
| `LiveTurn.Reader.ExtraCompletes` | regression/t4/runner.py:156-174 | The grace read counts exactly the further TurnComplete events of the request |
| `LiveTurn.LiveExactlyOnce` | regression/t4/runner.py:350-526 | For every accepted scenario, every history its schedule has seen in earlier turns, every log, every cutting into batches and connections and every answer of the gateway, the turn records exactly its request's logged frames up to the last id read, each once and in order; a turn reported done has recorded a TurnComplete and counts at least those it recorded, one reported failed ends in an Error, and one whose stream ended early has come to the end of the log iff its last connection delivered every logged frame it was sent |
| `LiveTurn.LinkKeeps` | regression/t4/runner.py:350-420 | One connection keeps the turn at an exact prefix of the log and resumes right after it; read to its end, it completes the prefix iff every logged frame it was sent was delivered |
| `LiveVerdict.StreamVerdict` | regression/t4/runner.py:350-420 | A connection fails, raises, drops or completes iff the first recorded frame that is not quiet is an Error, has a due step that cannot run, makes a drop due, or is a TurnComplete; it is read to its end iff every recorded frame is quiet |
| `LiveVerdict.DoneCounts` | regression/t4/runner.py:414-419 | A turn done on a connection has recorded the request's frames up to the end of the first batch with a TurnComplete, and counts those in that batch and in the batches within the grace |
| `LiveVerdict.TurnVerdict` | regression/t4/runner.py:423-526 | What a turn reports, from its recorded frames and how its message was posted: failed, raised and given up iff the frame that settles it says so and is the last; done only by a TurnComplete, and always by one that did not drop the stream |
| `LiveVerdict.EndedEarly` | regression/t4/runner.py:510-526 | A turn that ended early has recorded no Error, and no TurnComplete unless that dropped the stream and nothing came after |
| `LiveVerdict.EndedAfterComplete` | regression/t4/runner.py:510-526 | An accepted scenario and a served log for which a turn is reported as ended early after its TurnComplete was recorded |
| `LiveVerdict.RefusedGoesOn` | regression/t4/runner.py:453-509 | More connections matter only to a turn whose reconnection was refused, and it goes on with them |
| `LiveVerdict.FiledMeans` | regression/t4/runner.py:371-379 | The frames recorded are those that name the request or none, in order, unchanged but for the request id |
| `LiveTurn.RunSession` | regression/t4/runner.py:529-574 | The session's loop runs its messages in order on one shared schedule, each turn starting from the history the earlier ones left, until one does not complete |
| `LiveTurn.SessionExactlyOnce` | regression/t4/runner.py:529-574 | Every completed turn of every session is right about its own log, although the drops of the shared schedule may fall in any of them |
| `LiveVerdict.SessionMeans` | regression/t4/runner.py:529-574 | A session runs each message on what the schedule has seen by then, up to the first that is not done; it is done iff all are, and otherwise reports what that one reports |
| `LiveWire.ReadBatches` | regression/t4/runner.py:364-367 | The chunk loop gives one batch of parsed frames for each chunk |
| `LiveWire.BatchesFlatten` | regression/t4/runner.py:364-367 | However the text is cut into chunks, the batches together are the events of the whole text |
| `LiveWire.SentMeans` | regression/t4/runner.py:74-83 | The frames of a stream are those with data, in order, each with its own id and what its data says |
| `LiveWire.WireExactlyOnce` | regression/t4/runner.py:350-526 | The live result from the wire: for every schedule of connections that carry printed frames and pings, each cut after any character and read in any chunks, the turn is right about the log, and it has come to its end if the stream ended on a connection whose whole text had arrived |
| `Gateways.GatewayPool.DoAcquire` | regression/t4/gateway.py:413-432 | Acquire hands out the external, the current or a new gateway, stopping the current one first, and keeps the pool safe whichever start or stop fails |
| `Gateways.GatewayPool.DoRelease` | regression/t4/gateway.py:434-437 | Release stops an exclusive current gateway and nothing else, and reports a failure iff that stop was attempted and failed |
| `Gateways.GatewayPool.DoClose` | regression/t4/gateway.py:439-451 | After close nothing runs, no generated file is left, every started gateway has had exactly one stop attempt, and a failure is reported iff a stop was attempted and failed |
| `Gateways.AcquireSafe` | regression/t4/gateway.py:413-451 | Acquire keeps the pool safe for every outcome of the launcher |
| `Gateways.AcquireMeans` | regression/t4/gateway.py:413-432 | Acquire case by case: the external gateway iff the scenario asks for nothing special, the current one iff its spec is the same and shared, and otherwise a stop and, if that succeeds, a start, with every failure reported and nothing left behind |
| `Gateways.PoolIsSafe` | regression/t4/gateway.py:385-451 | Over all sequences of operations with failing starts and stops, at most the current gateway runs, its file alone exists, and no exclusive gateway is handed out twice or shares its generated file |
| `GatewayOrder.GroupInOrder` | regression/t4/gateway.py:208-218 | The dict loop returns the arrangement of which `GroupedByAppearance` says the order |
| `GatewayOrder.GroupedIsStable` | regression/t4/gateway.py:208-218 | The order is a permutation that keeps the order of the items of every spec |
| `GatewayOrder.GroupedByAppearance` | regression/t4/gateway.py:208-218 | The result lists all items by the first appearance of their group, a shared spec or a single exclusive item, and within a group by position |
| `GatewayOrder.GroupedIsOptimal` | regression/t4/gateway.py:208-218 | Running the suite in that order launches one gateway for each distinct managed shared spec and one for each exclusive item, and no ordering of the items launches fewer |
| `GatewayOrder.LaunchesAtLeast` | regression/t4/gateway.py:413-437 | Whatever the order and the running gateway, every other shared spec and every exclusive item costs a launch |
| `ConfigMerge.DeepMerge` | regression/t4/gateway.py:142-150 | The loop computes the merge key by key, whatever the order of the keys |
| `ConfigMerge.MergeTwice` | regression/t4/gateway.py:142-150 | Overlaying the same mapping twice changes nothing |
| `ConfigMerge.AbsorbedMeans` | regression/t4/gateway.py:142-150 | Merging leaves the overlay alone iff it has every key of the base wherever both are mappings |
| `ConfigMerge.MergeAssociates` | regression/t4/gateway.py:142-150 | Merging associates iff, wherever a scalar lies between two mappings, the last absorbs the first |
| `ConfigMerge.NoClashAssociates` | regression/t4/gateway.py:142-150 | In particular when no path has a scalar between two mappings |
| `ConfigMerge.NotAssociative` | regression/t4/gateway.py:142-150 | Three mappings whose merge depends on the bracketing |
| `ConfigMerge.NestOverrides` | regression/t4/gateway.py:126-139 | The loops nest and merge the items in order and report the first refused key |
| `ConfigMerge.NestRefuses` | regression/t4/gateway.py:129-134 | Overrides are refused iff some key, at any depth, is blank or has an empty segment |
| `ConfigMerge.NestReportsFirst` | regression/t4/gateway.py:126-139 | The error is that of the first item with a refused key: a blank key, an empty segment, or what its mapping is refused for |
| `ConfigPaths.LastItemWins` | regression/t4/gateway.py:126-139 | Accepted overrides hold a scalar at a path iff the last item that says anything about the path puts it there |
| `ConfigPaths.ScalarItem` | regression/t4/gateway.py:126-139 | An item with a scalar speaks for the path of its key's segments and is silent on the paths that diverge from it |
| `ConfigPaths.MergedPath` | regression/t4/gateway.py:142-150 | A merged config holds a scalar at a path iff the overlay does, or the base does and the overlay is silent there |
| `ConfigMerge.NestLeavesNoDots` | regression/t4/gateway.py:126-139 | Accepted overrides have no dotted and no empty key at any depth |
| `ConfigMerge.NestAgain` | regression/t4/gateway.py:126-139 | Nesting the nested form again, in any order of its items, gives it back iff no key of that second input is refused, which for it means blank |
| `ConfigMerge.NestIdempotent` | regression/t4/gateway.py:126-139 | In particular for input without whitespace-only segments |
| `ConfigMerge.NotIdempotent` | regression/t4/gateway.py:126-139 | An accepted input whose nested form is refused |
| `ConfigMerge.DottedAgrees` | regression/t4/gateway.py:126-139 | The dotted and the nested spelling of an item agree iff both its parts are visible, or its first part or a segment is empty, or its value holds a refused key, so that both are refused |
| `ConfigMerge.RewriteInPlace` | regression/t4/gateway.py:126-139 | Rewriting a dotted item as a nested mapping anywhere among the items does not change the overrides |
| `Wilson.AboveUpper` | regression/t5/stats.py:79-95 | A rate exceeds the upper bound iff r > p and n(r-p)² > z²r(1-r) |
| `Wilson.IntervalContains` | regression/t5/stats.py:79-95 | 0 ≤ low ≤ p ≤ high ≤ 1, and the clamp changes neither bound |
| `Wilson.BoundsMirror` | regression/t5/stats.py:79-95 | low(k, n) = 1 - high(n-k, n), and the other way round |
| `Wilson.JudgeWholeNumbers` | regression/t5/stats.py:148-162 | The capability verdict is decided by a test in whole numbers, without root or division |
| `Wilson.MorePassesNeverWorse` | regression/t5/stats.py:98-162 | With runs and baseline fixed, more passes never move a capability verdict toward fail |
| `Wilson.PassNeedsBaseline` | regression/t5/stats.py:98-176 | For every input: which are refused and how; the verdict is "no baseline" iff the counts are missing or senseless and no trial of a reliability scenario failed; a reliability scenario fails iff a trial did and passes iff all did and there is a baseline; and the report repeats its inputs, with the interval for capability only |
| `Wilson.PerfectBaseline` | regression/t5/stats.py:129-162 | Against a baseline that always passed, capability and reliability verdicts coincide |
| `Ledger.OpenFailures` | testkit/failures/store.py:393-440 | The nested loops return, in order of first occurrence, the summary of every fingerprint that has not passed since: count, first and last seen, last run, details of the first record, message and record of the last |
| `Ledger.ReadHeader` | testkit/failures/store.py:399-404 | The run id and start time are those of the last run_start that has them |
| `LedgerRows.SeenAtMeans` | testkit/failures/store.py:397-403 | The start time is that of the last run_start record, and empty without one |
| `LedgerRows.RunIdMeans` | testkit/failures/store.py:397-403 | The run id is that of the last run_start record that has one, and the file's name without one |
| `Ledger.CloseEntries` | testkit/failures/store.py:433-440 | A passed test closes exactly the open entries of its node id last seen in another run |
| `Ledger.FirstIsFirst` | testkit/failures/store.py:405-426 | First seen is taken from the first run that fails with the fingerprint |
| `Ledger.LastIsLast` | testkit/failures/store.py:427-432 | Last seen is taken from the last run that fails with the fingerprint |
| `LedgerRows.OccurrencesStand` | testkit/failures/store.py:404-407 | The occurrences are the failure records with a fingerprint, of all runs, in order |
| `LedgerRows.OpenRowsMean` | testkit/failures/store.py:393-440 | The rows are those of the fingerprints not closed, by first occurrence, each with test and details of its first record, message of its last, count, both start times and last run id; closed iff the test passed in a later run under another id |
| `Ledger.ListedMeansOpen` | testkit/failures/store.py:393-440 | When fingerprints belong to tests, one is listed iff its test passed in no run, under another id, after the last failing one |
| `LedgerPrune.Prune` | testkit/failures/store.py:194-219 | The loop removes the stale unprotected runs and leaves the others, in order; together they are the runs it was given |
| `LedgerPrune.PruneMeans` | testkit/failures/store.py:194-219 | For every `keep`: exactly the runs outside the newest `keep` whose readable start lies before the cutoff are removed, the others are kept, and both stay in the order of the listing |
| `LedgerPrune.NewestSurvive` | testkit/failures/store.py:203-207 | The newest `keep` runs survive, however old |
| `RunNames.NamesSortByTime` | testkit/failures/store.py:130-185 | Of two run names with valid times the one that sorts first does not start later |
| `RunNames.TimeMeans` | testkit/failures/store.py:180-185 | A stamp names a time iff its fields are in the ranges of the calendar, leap days included |
| `LedgerPrune.ListingIsChronological` | testkit/failures/store.py:111-131 | So the readable start times of a listing never decrease |
| `LedgerPrune.PruneTwice` | testkit/failures/store.py:194-219 | Pruning again at the same cutoff removes nothing |
| `LedgerPrune.PruneRemovesPrefix` | testkit/failures/store.py:111-131 | With readable stamps the removed runs are a prefix of the listing |
| `LedgerPrune.PrefixIffReadable` | testkit/failures/store.py:180-219 | In general they are a prefix iff no unreadable stamp lies in front of one of them |
| `LedgerPrune.PruneLeavesGap` | testkit/failures/store.py:207-211 | Two run names of which the first, without a valid time, survives the second |
| `LedgerPrune.PruneKeepsOpen` | testkit/failures/store.py:194-219 | After pruning exactly the open fingerprints whose last failing run was kept are listed |
| `LedgerPrune.PruneFlipsNothing` | testkit/failures/store.py:393-440 | A fingerprint that fails in a kept run is open after pruning iff it was before |
| `Trace.ObservedCalls` | regression/schema/assertions.py:587-627 | The id map rebuilds the calls of the event-by-event reading, with resolved path, outcome, error and error code |
| `Trace.AbsorbResult` | regression/t4/runner.py:242-264 | The scan back settles the last unresolved call of the tool whose id does not contradict the result's, storing outcome, error and result text, or adds one |
| `Trace.AbsorbEvents` | regression/t4/runner.py:222-286 | The runner's fold over a turn's events records calls until a TurnComplete and stops at the first Error before it |
| `TraceCalls.ObservedByPosition` | regression/schema/assertions.py:587-627 | For every trace the id map gives one call per start, in order, with the outcome, error and code of the last result under its id before a later start takes the id over; success iff no error and no `ok: false` |
| `TraceCalls.ScanMeans` | regression/t4/runner.py:242-264 | The scan back changes the last call of the result's tool that has no outcome and no contradicting id, and no other, or adds one |
| `TraceCalls.FoldMeans` | regression/t4/runner.py:222-286 | The fold records the events up to the first TurnComplete or Error and says which ended it |
| `TraceAgreement.AgreeExactly` | regression/t4/runner.py:242-264 | On every trace whose tool events come before the turn ends, both readers rebuild the same calls, in order and with the same outcomes, iff every start has an id and every result names the open call of that id and its tool |
| `TraceAgreement.ReconstructionsAgree` | regression/schema/assertions.py:587-627 | On every trace with one start per call id, followed by at most one result of the same tool, all before the turn ends, both give one call per start, in order, with its own outcome |
| `TraceAgreement.ReconstructionsDiffer` | regression/t4/runner.py:242-264 | Without call ids the scan settles a call that the id map leaves open, so the rebuilt calls differ |
| `TraceAgreement.ReusedIdAgrees` | regression/schema/assertions.py:587-627 | An id used again after its result breaks no agreement |
| `TraceAgreement.LateEventsHide` | regression/t4/runner.py:222-286 | Tool events after the end of the turn, which only the id map reads, can make up for a difference, so the condition is exact only without them |
| `TraceErrors.UnresolvedErrors` | regression/schema/assertions.py:763-779 | The loop counts the failed calls without a later success of the same tool on the same target |
| `TraceErrors.CountByTargetMeans` | regression/schema/assertions.py:763-779 | The count is the number of failed calls without a later success of the same tool on the same target |
| `TraceErrors.ToolErrorsCount` | regression/t4/models.py:131-150 | The loop counts the calls with an error and no later call of the tool without one |
| `TraceErrors.CountByToolMeans` | regression/t4/models.py:131-150 | The count is the number of calls with an error and no later call of the tool without one |
| `TraceErrors.ToolCountNeverExceeds` | regression/t4/models.py:131-150 | On every trace the count by tool name is at most the count by target of the same calls |
| `TraceErrors.CountsAcrossReaders` | regression/schema/assertions.py:763-779 | On every trace on which the readers agree by `AgreeExactly` the runner's count by tool name is at most the assertions' count by target, although each rebuilds the calls in its own way |
| `Matching.CheckEventsSequence` | regression/schema/assertions.py:872-897 | The loop reports the first step the greedy scan does not find, or the first malformed one it reaches |
| `Matching.ScanIsComplete` | regression/schema/assertions.py:872-897 | The greedy scan finds all steps iff some strictly increasing choice of events satisfies them, and otherwise stops at the first step no choice leaves room for |
| `Matching.CheckMeans` | regression/schema/assertions.py:872-897 | The check passes iff every step is well-formed and the events hold them all in order |
| `Matching.RowIdsPreserved` | regression/schema/assertions.py:1405-1418 | The scan finds no missing id iff the wanted ids are a subsequence of the actual ones, and otherwise names the first that cannot be placed |

## Left out

What the models assume of the environment:

- `restart_session`, `resume_session`, `close` and `_teardown_stream` of the chat client: the interface never calls them during a turn, and calls of `submit` do not overlap; request ids are fresh, and the gateway names no request that has not been posted.
- The scheduler of the chat model is more liberal than asyncio: its steps are at most one await-to-await segment, so every schedule of the code is one of its runs, and a cancelled wait may also swallow the cancel.
- HTTP calls, HITL prompts, usage fetching, emitted UI events and back-off delays of the chat client are steps that may take any time and have any outcome, an exception included; JSON decoding, `int()` and `str()` are abstract functions.
- The UTF-8 decoder, `StreamingAsgiResponse` and the HTTP client's line decoder: the models work on decoded text, and lines end at CR, LF or CR LF. The client splits as `str.splitlines` does; `SseLines.StreamSplitlines` shows that this is the same on the streams of the agreement and resume results, whose pings and events hold no other separator than LF.
- The gateway of the resume models sends exactly the logged frames after Last-Event-ID, with frames without id in between.
- The automatic answers to questions and the time-outs of the live runner: an answer that fails is only logged, a time-out ends the run.
- LiveTurn.RunSession: `on_turn_complete` and the pauses between sessions are left out; the answer of a step's request is any function of the turn's position, and the body of an event is any function of its JSON text.
- `_record` and `_DueSteps` of regression/drivers/gateway.py: the deterministic driver's bookkeeping repeats `DueSteps` and adds one branch.
- Subprocess launching, health polling, ports and YAML in the gateway module: the launcher succeeds or fails; a write error half-way through the generated config is not modelled, and the digest in its name is taken to be injective.
- Scenario fields to specs (`spec_from_fields`): one-branch code around `nest_overrides`. Keys of overrides that are not strings, which are refused, are not modelled.
- Floating-point rounding in `wilson_interval` and `judge`: exact reals only. `z` is taken to be non-negative; the repository only uses 1.96. Loading of class lists is not modelled.
- Triage notes, the index, `LATEST.json`, `mark_incomplete` and the directory layout of the ledger; a failure's case, tier, area and exception are one opaque text. Run names are taken to use ASCII digits, as the ledger writes them; times are compared by their digits.
- `canonical_target` is abstract, as are the boolean `ok` and the error code read from JSON results and errors; errors on the wire are texts.
- Regex-based text code (`testkit/scrub.py`, `regression/schema/sse_norm.py`, `scripts/release.py`), the Textual interface, judge scoring, drivers of the hidden core, and the remaining assertion checks, which test one field each.

Deviations in form:

- ChatSession.MutualExclusion, ChatSession.EventsConserved, ChatSession.DispatchedInOrder: the tasks are positions in a state machine rather than coroutines; ChatController performs the same steps on the controller's fields.
- ChatResume.ExactlyOnce: ranges over schedules of connections as values; `Pump` performs one connection on the client's fields.
- Trace.ObservedCalls: the id map points to positions of the call list, where the source shares the mutable call object.
- TraceAgreement.ReconstructionsAgree: stated for the events of one turn.
- TraceAgreement.AgreeExactly: stated for traces whose tool events come before the turn ends; with later ones the two may agree by accident, as `TraceAgreement.LateEventsHide` shows.
