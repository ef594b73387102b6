# pipecat-siphon, modelled and proved in Dafny

pipecat-siphon connects a voice bot to a telephone exchange. This project models the parts of it whose behaviour
is hard to see from any one function, and proves what they keep:

- **The life of a call.** `Outbound.dfy` (placed calls, their guards and the dial-in), `VoiceSession.dfy` (one report
  or one completed transfer), `CallerSessions.dfy` (a caller held across sockets), `BriefedCalls.dfy` (transfers a
  briefed bot asks for), `TransferControl.dfy` (verdicts, the hold and the late verdict). Each stretch of asynchronous
  code between two suspensions is one step of a state machine; the theorems are about every order those steps can
  come in. The classes whose fields the steps update are modelled as classes, one method a step, each proved against
  the function the state machine uses.
- **The scripted caller.** `DownlinkActivity.dfy` (when the bot is speaking) and `ScriptPlanner.dfy` (what the caller
  sends on each 20 ms tick), each as a class proved against step functions, then over whole runs, and together.
  `Pace.dfy` counts the two in whole ticks, and `PlannerPace.dfy` proves that they are that.
- **Bytes and signals.** `ControlTap.dfy` (incremental deframing), `Serializer.dfy` (the frame queue), `RtpPacket.dfy`,
  `Checksum.dfy` and `RtpPcap.dfy` (packets and captures), `Signals.dfy` (the Goertzel filter and RMS over the reals),
  `TelephoneBand.dfy` (trimming and pause compression). `Sequences.dfy` and `Wire.dfy` hold shared vocabulary.

`dafny verify dfyconfig.toml` checks everything.

## What the model takes from outside

- Requests over HTTP and the control channel are steps with any allowed answer; a hang-up returns or raises, and does
  not swallow a cancellation. A cancelled timer never runs its code. Channels and tokens are chosen fresh by whoever
  holds a call (a reused token replaces the older entry, as in the code).
- Clocks are parameters, and times are reals. The planner's run length is stated for ticks one frame apart, the first
  at its start time; how long a call can last exactly, for a bot one of whose frames comes between any two ticks, and
  for thresholds that ask for more speech and more quiet than the tolerance of a microsecond. Each frame is stamped the
  same time after the tick it follows, none before it, and one may come before the first tick: that takes in a driver
  that ticks and then observes and one that observes and then ticks, as
  `tests/test_conversation_script_planner.py:46-53` does. The detector's run theorems take contiguous frames,
  `loud >= quiet` and at least one frame to open, which `integration/tools/conversation/harness_config.py:195-205`
  enforces.
- Decoding, resampling and G.711 are data: a message carries the PCM its payload would give, a silent frame its bytes.
- A filter's angle is any pair (c, s) on the unit circle, and a square root is any function that is one. A window's
  level is compared with a positive threshold by their squares.

## Where the code and its own words disagree

The model follows the code; each of these is a lemma.

- `src/pipecat_siphon/serializer.py:200-204` says the queue drains within one packet time because audio keeps
  arriving. Every audio message that means a frame puts one in and takes one out, so it never drains the queue
  (`FramesNeverDrainTheQueue`), and a fatal error, after which the engine closes the socket, can stay in it for good
  (`LastFrameHandedOutIff`, `FatalErrorBehindABargeIn`).
- `src/pipecat_siphon/outbound.py:12-15` says every path resolves. A call claimed by a dial-in whose originate is then
  refused never does (`ClaimedThenRefused`).
- `examples/agent_bot.py:2847-2849` says the caller is kept from the model while the PBX decides, and that the model
  is told why when a transfer does not complete. The hold of the call that asked stays on exactly in the runs in which
  no request fails while another of its call is out (`HoldLastsIff`; `HoldIsLost` is a run where one does). But each
  socket has a hold of its own, so the caller is kept from the model they are on exactly when no new socket opens while
  a request is out, none left behind asks while they are unheld, and none of their own requests fails while another is
  out (`KeptFromTheModelIff`; `BackBeforeTheAnswer` is a run where the caller is back before the PBX has answered). And
  a request queued behind one that completes is told as a failure
  (`ToldOnceOverIff`, `BehindACompletedTransfer`).
- Waits between the planner's ticks round up, so a script can outlast its timeouts and lines, and a wait too short for
  an answer and the quiet after it can only time out. `PlannerPace.AlwaysInTimeIff` and `LineIsSaidIff` say exactly
  when, for each way the frames can come, and `InTimeHoweverIff` and `SaidHoweverIff` for all of them; the order of
  frame and tick alone can decide it (`OffGridOverruns`).
- Pauses are judged in whole windows, so what is kept of one may be longer than the limit without harm, up to
  the next whole window; past that, audio gets longer (`KeepsExactlyIff`).
- The control tap's desync record depends on how the stream was cut: it is some prefix, of 4 to 64 bytes, of what
  follows the last frame. `Relay` names the chunk after which it was taken.

## Model

| member | source | states |
|---|---|---|
| `CallerSessions.EveryoneIsKept` | examples/agent_bot.py:2614-2729 | Over every interleaving of hold, attach, detach, tell, transfer, settle and expiry: a caller in the registry has a live worker, a transfer in flight that will still settle, or an armed expiry; exactly the first socket is greeted; every note was delivered once and in order, waits for the next socket, or was replaced by a later one |
| `CallerSessions.WhoLetsACallerGo` | examples/agent_bot.py:2657-2729 | From any state that keeps the invariant, a caller leaves the registry exactly by a release, by their own timer, which only runs with neither worker nor transfer, or to a newer hold of the same token |
| `CallerSessions.TransferIsTheLast` | examples/agent_bot.py:2692-2712 | Over every run, from the events and the requests still out alone: the transfer a caller is held for is that of their last request while it is out, and none otherwise |
| `CallerSessions.NoTimerWhileARequestIsOut` | examples/agent_bot.py:2692-2729 | So while a caller's latest request is out no timer of theirs can run out, and only a release or a newer hold takes them off the registry |
| `CallerSessions.SocketIsTheLast` | examples/agent_bot.py:2664-2684 | Over every run, from the events alone: the socket a caller is on is the one they attached last, until its own close |
| `CallerSessions.WhatTheClockDoes` | examples/agent_bot.py:2650-2729 | Exactly which steps start a caller's clock, which stop it and which leave it as it is |
| `CallerSessions.OnlyItsOwnCloseDropsASocket` | examples/agent_bot.py:2664-2684 | A connected caller stays on their worker through any run without a newer socket or that socket's own close: a stale detach drops nothing |
| `CallerSessions.KeptNoteReachesTheNextSocket` | examples/agent_bot.py:2664-2691 | A note kept while the caller is away is delivered by their next attach, once, whatever happens to anyone in between |
| `CallerSessions.AbandonedCallersAreLetGo` | examples/agent_bot.py:2713-2729 | In every reachable state a held caller with neither worker nor transfer has a running expiry, and its firing releases them |
| `CallerSessions.StepKeepsInv` | examples/agent_bot.py:2650-2729 | Every single step keeps the whole invariant of callers, registry, transfers and notes |
| `CallerSessions.RunKeepsInv` | examples/agent_bot.py:2650-2729 | Hence every run does, from any state that has it |
| `CallerSessions.Registry.Hold` | examples/agent_bot.py:2650-2656 | A new caller is registered, on the clock |
| `CallerSessions.Registry.Release` | examples/agent_bot.py:2657-2663 | Stops the clock, and drops the registry entry only if it is still this caller's |
| `CallerSessions.Registry.Attach` | examples/agent_bot.py:2664-2678 | Takes the worker, stops the clock, answers "first" exactly when not greeted before, and hands over and clears the kept note |
| `CallerSessions.Registry.Detach` | examples/agent_bot.py:2679-2684 | Only the caller's current worker detaches them, and then the clock starts unless a transfer keeps them |
| `CallerSessions.Registry.Tell` | examples/agent_bot.py:2685-2691 | Delivered to a connected caller, kept as the latest note otherwise |
| `CallerSessions.Registry.RunTransfer` | examples/agent_bot.py:2692-2703 | The transfer is the one in flight, and the clock stops: the step of `TransferIsTheLast` |
| `CallerSessions.Registry.Settle` | examples/agent_bot.py:2704-2712 | Only the latest transfer's end clears it; a registered caller without a worker goes back on the clock |
| `CallerSessions.Registry.Expire` | examples/agent_bot.py:2719-2729 | Lets go exactly of a caller with neither worker nor transfer |
| `CallerSessions.Registry.ExpireWhenAbandoned` | examples/agent_bot.py:2713-2729 | Restarts the clock, unless a transfer is in flight |
| `BriefedCalls.EveryRequestIsAnsweredFor` | examples/agent_bot.py:2841-2891 | Over every interleaving of sockets, tool calls, cancellations, requests and reports: at most one transfer completes and then the caller is let go of; the model is told of each failed request once and of nothing else; no request is out once the session is over |
| `BriefedCalls.KeptUntilOver` | examples/agent_bot.py:2880-2945 | Over every run the caller is held exactly until a transfer completes or a report has been answered |
| `BriefedCalls.HoldLastsIff` | examples/agent_bot.py:2861-2891 | Over every run, tool calls cancelled while their request is out included: the hold of the call that asked is on for as long as its request is out exactly when no request ever fails while another of the same call is out; and the same with completed requests counted as out |
| `BriefedCalls.KeptFromTheModelIff` | examples/agent_bot.py:2847-2849 | Over every run: whenever the caller is on a socket and a request is out, whichever call asked, the hold of the socket they are on keeps them from its model, exactly when no new socket opens while a request is out, no tool of another socket launches one while their own hold is off, and no request of their socket fails while another is out |
| `BriefedCalls.MoveHeldAtIff` | examples/agent_bot.py:2847-2891 | One move keeps the caller so exactly when it is none of those three |
| `BriefedCalls.BackBeforeTheAnswer` | examples/agent_bot.py:5192-5194 | A concrete run that ends with a request out and the caller on a new socket whose hold is off, though the hold of the call that asked was on all along |
| `BriefedCalls.MoveHeldIff` | examples/agent_bot.py:2866-2891 | One move keeps the asking call's hold on for every request out exactly when what it fails it fails alone |
| `BriefedCalls.HoldsAlwaysHaveAReason` | examples/agent_bot.py:2866-2891 | On every run a hold that is on has a request of that call out or completed |
| `BriefedCalls.GentleFailsAlone` | examples/agent_bot.py:2855-2876 | If no tool call is cut short while its request is out, requests always fail alone |
| `BriefedCalls.HoldFollowsTheTransfer` | examples/agent_bot.py:2861-2891 | So then a call's hold is on exactly while its request is out or once it has completed, a tool call is pending exactly while one is running, and a call never has two requests out |
| `BriefedCalls.HoldIsLost` | examples/agent_bot.py:2855-2891 | A concrete run that ends with a request out and the hold off: a tool call cancelled, the transfer asked for again, and the first request failing |
| `BriefedCalls.TwoRequestsOut` | examples/agent_bot.py:2855-2876 | That state is reached, with a concrete run: a tool call cancelled while its shielded request is out, and the transfer asked for again |
| `BriefedCalls.ToldOnceOverIff` | examples/agent_bot.py:2880-2891 | Once the session is over, reported or transferred, the model is told of a failure exactly when a request still queued gets the lock; its hold is then off, and after a transfer another request has completed |
| `BriefedCalls.BehindACompletedTransfer` | examples/agent_bot.py:2880-2891 | A concrete run in which that happens: one request completes, the caller is let go of, and the model is told that the other failed |
| `BriefedCalls.BriefedCall.Begin` | examples/agent_bot.py:2851-2861 | Accepted exactly when the session is undecided and no transfer is pending |
| `BriefedCalls.BriefedCall.Launch` | examples/agent_bot.py:2866-2874 | The hold goes on and the request becomes the caller's transfer in flight |
| `BriefedCalls.BriefedCall.Answer` | examples/agent_bot.py:2883-2891 | Completed: the caller is released and the hold stays; otherwise the hold is off and the note is delivered or kept |
| `BriefedCalls.BriefedCall.ToolEnds` | examples/agent_bot.py:2875-2876 | Returned or cancelled, nothing is pending and the hold is untouched |
| `TransferControl.EveryTransferIsAnswered` | examples/agent_bot.py:3159-3206 | Over every interleaving: a tool call past its checks ends in exactly one of "leg let go" and "model told", unless it was cut short; the hold is on only while one is pending; nobody is let go without a verdict, on this leg's own call, that they left; no late verdict lets the leg go twice |
| `TransferControl.WaitersHoldTheFirstVerdict` | examples/agent_bot.py:2082-2205 | Over every run, from the events alone: a waiter holds what the first event after the one that made it says, of the verdicts on its call, the call's ending, a later transfer of the call and, for this leg's own, a refused request |
| `TransferControl.LetGoOnAVerdict` | examples/agent_bot.py:3029-3068 | Over every run: each let go, late ones too, is over a wait this leg launched, and by the first verdict after that the caller had left or the call was over |
| `TransferControl.FailuresKeepTheCaller` | examples/agent_bot.py:3150-3156 | In a run with no verdict but failures on the call, and the call not forgotten, nobody is ever let go |
| `TransferControl.ResumeActsOnTheVerdict` | examples/agent_bot.py:3150-3156 | A wait that resumes lets the leg go, tells the model or is cut short exactly as the events say it came to |
| `TransferControl.LateVerdictsAreActedOn` | examples/agent_bot.py:3029-3042 | A wait that has run out is watched until it comes to something, and then the leg is let go exactly if the caller has left |
| `TransferControl.BeginsExactlyOnAHeldCall` | examples/agent_bot.py:3175-3187 | From the events alone: a tool call gets past its checks exactly when the call was handed over and not forgotten since, and no transfer of the leg is in progress |
| `TransferControl.UndisturbedTransfersEndOnce` | examples/agent_bot.py:3109-3206 | Each tool call that is not cancelled, and whose wait no other leg's transfer of the call cuts, ends in exactly one of the two, once: whatever is cut short before it or after it |
| `TransferControl.UndisturbedStaysUncut` | examples/agent_bot.py:3120-3156 | From any state in which such a tool call has not been aborted nor its own waiter cancelled, it never is |
| `TransferControl.ForgettingSettlesEveryWaiter` | examples/agent_bot.py:2082-2100 | In every reachable state a call has at most one live waiter, and forgetting the call leaves it none |
| `TransferControl.WaitersAreWrittenOnce` | examples/agent_bot.py:2091-2100 | What a verdict future was settled or cancelled with, it holds for the rest of any run |
| `TransferControl.PlaneStep` | examples/agent_bot.py:2082-2205 | Every step keeps the slots and the live waiters in step, and never rewrites a waiter |
| `TransferControl.LegStep` | examples/agent_bot.py:3120-3201 | Every step keeps pending, hold and the tool call's place in step |
| `TransferControl.OutcomesStep` | examples/agent_bot.py:3122-3206 | Every step keeps the account of what was done about each tool call |
| `TransferControl.EffectsStep` | examples/agent_bot.py:3029-3068 | Every step keeps each "let go" justified by the verdict a waiter of this leg's call holds, and late ones single |
| `TransferControl.ControlPlane.ExpectTransferVerdict` | examples/agent_bot.py:2082-2094 | The new waiter takes the call's slot and the one it replaces is cancelled |
| `TransferControl.ControlPlane.DeliverTransferVerdict` | examples/agent_bot.py:2096-2100 | The slot's waiter is settled unless it is done, and the slot freed: the step of `WaitersHoldTheFirstVerdict` |
| `TransferControl.ControlPlane.Forget` | examples/agent_bot.py:2194-2205 | The call is dropped and its waiter told the call ended |
| `TransferControl.CallResources.Begin` | examples/agent_bot.py:3175-3187 | Refused for a call not held or while a transfer is pending |
| `TransferControl.CallResources.Launch` | examples/agent_bot.py:3119-3121 | The waiter is registered before the transfer goes out, and the hold goes on |
| `TransferControl.CallResources.SendRefused` | examples/agent_bot.py:3124-3132 | A refused transfer cancels its waiter |
| `TransferControl.CallResources.Resume` | examples/agent_bot.py:3150-3156 | The verdict is returned exactly when it says the caller left |
| `TransferControl.CallResources.TimeOut` | examples/agent_bot.py:3134-3148 | The waiter is watched on after the wait runs out |
| `TransferControl.CallResources.Finish` | examples/agent_bot.py:3199-3201 | The hold is released and nothing is pending |
| `Outbound.NobodyLeftOnASilentLine` | src/pipecat_siphon/outbound.py:226-305 | On every run: a placed call with no guard timer running and no hang-up open is over, or answered and with the bot, and only then; until it is over its events are read; guards step at most four times |
| `Outbound.GuardsRunOut` | src/pipecat_siphon/outbound.py:284-305 | Guard steps are bounded by a measure every one of them lowers, so timers that fire and hang-ups that return settle the call |
| `Outbound.DialInGuardSparesClaimedCalls` | src/pipecat_siphon/outbound.py:295-305 | A call the dial-in guard finishes was never claimed, and is not claimed later |
| `Outbound.RunKeepsInv` | src/pipecat_siphon/outbound.py:203-282 | Over every run: answer and ending are written once; an ending implies an answer, which is of kind answered or is the ending itself; an ending is never of kind answered; pending is exactly unclaimed, not over and not refused; the right guard watches an unsettled call |
| `Outbound.CallIsAsToldFirst` | src/pipecat_siphon/outbound.py:220-282 | Over every run, from the events alone: a call ends as the first event that ends it says and is answered as the first that answers or ends it does; it is the bot's exactly when a dial-in comes before it is over or refused; its events are read from the originate's return until one closes them |
| `Outbound.StepKeepsInv` | src/pipecat_siphon/outbound.py:220-305 | Every single step does |
| `Outbound.RegistryKeepsInv` | src/pipecat_siphon/outbound.py:317-420 | With any number of calls, under fresh channels: a pending call is unclaimed and not over |
| `Outbound.RefusedCallsStaySilent` | src/pipecat_siphon/outbound.py:375-400 | A refused originate leaves nothing pending, and its call never resolves |
| `Outbound.ResolvedIffPlaced` | src/pipecat_siphon/outbound.py:12-15 | Which paths resolve: once the originate is decided and no guard has a step left, a call is answered, or has failed to be, exactly when it was placed; and a placed one is then over or with the bot |
| `Outbound.ClaimedThenRefused` | src/pipecat_siphon/outbound.py:12-15 | So a dial-in that overtakes a refused originate holds a call that no run will ever answer or end |
| `Outbound.PlacedCall.MarkDialledIn` | src/pipecat_siphon/outbound.py:220-224 | Sets the flag and cancels the dial-in guard if there is one |
| `Outbound.PlacedCall.Start` | src/pipecat_siphon/outbound.py:226-232 | Starts the pump and the ring guard |
| `Outbound.PlacedCall.OnAnswered` | src/pipecat_siphon/outbound.py:262-270 | First answer only: it is recorded, the ring guard cancelled, and the dial-in guard started unless dialled in |
| `Outbound.PlacedCall.Finish` | src/pipecat_siphon/outbound.py:272-282 | First ending only: it resolves an open answer too, cancels both guards and leaves the registry |
| `Outbound.PlacedCall.RingTimerFires` | src/pipecat_siphon/outbound.py:284-293 | Stands down when answered, hangs up otherwise |
| `Outbound.PlacedCall.DialInTimerFires` | src/pipecat_siphon/outbound.py:295-305 | Stands down when dialled in or over, hangs up otherwise |
| `Outbound.PlacedCall.RingHangUpReturns` | src/pipecat_siphon/outbound.py:284-293 | Ends the call with no outcome, unless it is over |
| `Outbound.PlacedCall.DialInHangUpReturns` | src/pipecat_siphon/outbound.py:295-305 | Ends the call as never dialled, unless it is over |
| `Outbound.PlacedCalls.Reserve` | src/pipecat_siphon/outbound.py:363-375 | The call is pending before its INVITE goes out |
| `Outbound.PlacedCalls.Claim` | src/pipecat_siphon/outbound.py:403-413 | The pending call a dial-in names, taken out and marked; none without a name or a match |
| `Outbound.PlacedCalls.Release` | src/pipecat_siphon/outbound.py:419-420 | Drops the channel |
| `VoiceSession.OneEnding` | src/pipecat_siphon/voice_session.py:711-783 | Over every interleaving of report and transfer calls, answers and cancellations: at most one report request, none while a transfer is open or after one completed; no transfer after a report is reserved; transfers never overlap and at most one completes; reported and transferred never both; an ending is the last thing logged |
| `VoiceSession.WhatGoesOut` | src/pipecat_siphon/voice_session.py:743-783 | Over every run, from the tool calls and the log alone: one that gets the lock sends its request exactly when nothing has ended the session, a transfer's only from a call and to exactly one target; and the report the session holds is the one sent |
| `VoiceSession.WhatIsClosed` | src/pipecat_siphon/voice_session.py:771-783 | A transfer's request closes as it is answered, and as not completed when its tool call is cut short |
| `VoiceSession.RunKeepsInv` | src/pipecat_siphon/voice_session.py:711-783 | Every run keeps the session's fields in step with its log |
| `VoiceSession.StepKeepsInv` | src/pipecat_siphon/voice_session.py:711-783 | Every step does |
| `VoiceSession.LogGrows` | src/pipecat_siphon/voice_session.py:743-783 | How the reading of a log changes with an entry that may follow it |
| `VoiceSession.Held.ReportLocked` | src/pipecat_siphon/voice_session.py:743-755 | Reserved and to be sent exactly when the session is not over |
| `VoiceSession.Held.TransferLocked` | src/pipecat_siphon/voice_session.py:757-778 | Goes out exactly for a call that is not over and names one of destination and number; anything else is answered as not completed |
| `VoiceSession.Held.TransferAnswered` | src/pipecat_siphon/voice_session.py:771-783 | The lock is let go, and a completed transfer recorded |
| `DownlinkActivity.SpansOfAnyRun` | integration/tools/conversation/downlink_activity.py:63-94 | Over contiguous frames and any marks, the spans reported are those of a track that is `Sound`: ordered and disjoint; each starts with a full run of loud frames, as early as it can, and ends on an active frame; gaps reach the closing time less the tolerance; no span holds a below-quiet stretch long enough to close it, and a closed one is followed by one; every full run of loud frames is inside one span |
| `DownlinkActivity.SpansAreSound` | integration/tools/conversation/downlink_activity.py:63-94 | The same for the frame numbers alone |
| `DownlinkActivity.FedTells` | integration/tools/conversation/downlink_activity.py:63-129 | The detector's times are the track's frame numbers, whatever marks come between |
| `DownlinkActivity.SpokenSinceMark` | integration/tools/conversation/downlink_activity.py:63-103 | Speech since the last mark is the frame length times the loud frames observed since, inside spans and starting at or after it, plus what was pending at the mark if its run went on to open a span; that carry is at most one frame short of the run that opens one |
| `DownlinkActivity.CarryBound` | integration/tools/conversation/downlink_activity.py:82-94 | What is pending at any moment is at most `frames_to_open` - 1 frames |
| `DownlinkActivity.QuietSinceEverySpan` | integration/tools/conversation/downlink_activity.py:105-109 | The quiet time the detector reports reaches back to the end of every span |
| `DownlinkActivity.QuietSinceTheNewest` | integration/tools/conversation/downlink_activity.py:105-109 | It is exactly the time since the newest span ended, infinite when there is none |
| `DownlinkActivity.ReadyOnceSaidAndQuiet` | integration/tools/conversation/downlink_activity.py:111-122 | Ready exactly once enough has been said since the mark and the newest span, if any, has been over long enough, within the tolerance |
| `DownlinkActivity.SpokenWithoutAMark` | integration/tools/conversation/downlink_activity.py:60-94 | Before any mark every loud frame inside a span counts |
| `DownlinkActivity.Extended` | integration/tools/conversation/downlink_activity.py:71-74 | A frame not below the quiet level takes the open span up to itself |
| `DownlinkActivity.Opened` | integration/tools/conversation/downlink_activity.py:87-94 | The loud run that reaches the needed length is a span from its first frame |
| `DownlinkActivity.Detector.Observe` | integration/tools/conversation/downlink_activity.py:63-94 | One frame's whole effect on the detector |
| `DownlinkActivity.Detector.Mark` | integration/tools/conversation/downlink_activity.py:96-99 | Counts from there on, and leaves a pending run alone |
| `DownlinkActivity.Detector.QuietSeconds` | integration/tools/conversation/downlink_activity.py:105-109 | Time since the last active frame, none when the bot never spoke |
| `DownlinkActivity.Detector.ReadyToSpeak` | integration/tools/conversation/downlink_activity.py:111-122 | Enough said since the mark and quiet for long enough, within the tolerance |
| `DownlinkActivity.Detector.Spans` | integration/tools/conversation/downlink_activity.py:124-129 | Every span, the open one up to its last active frame |
| `ScriptPlanner.CallerKeepsToItsScript` | integration/tools/conversation/script_planner.py:119-192 | For every behaviour of the bot: what was sent, with what is left of the line being said, is the lines begun so far in order, each whole after some wait in silent frames, and silence since |
| `ScriptPlanner.TickFrames` | integration/tools/conversation/script_planner.py:119-171 | One tick sends the next frame of the line, the first frame of a line it starts, or unmarked silence |
| `ScriptPlanner.SegmentIsItsFrames` | integration/tools/conversation/script_planner.py:151-162 | A segment's frames, put together, are the segment |
| `ScriptPlanner.TimelineTellsWhatWasSent` | integration/tools/conversation/script_planner.py:119-201 | For each kind of event but the overlap, its times on the timeline are exactly those of: the first frame of a line, a marked frame, the end of a segment's last frame, the end of a line's last frame, and the tick on which a wait is given up |
| `ScriptPlanner.OverlapsAreTheFirst` | integration/tools/conversation/script_planner.py:194-201 | Over every run of planner and detector, in the levels heard alone: the overlaps on the timeline are exactly, for each line the bot talks over, on the first of the line's ticks that the bot's newest span reaches |
| `ScriptPlanner.GivesUpWhenItsTimeIsUp` | integration/tools/conversation/script_planner.py:138-149 | A wait is given up exactly when the line may not start and its own timeout, the greeting's or the reply's, is up |
| `ScriptPlanner.TimelineFollowsTheGrammar` | integration/tools/conversation/script_planner.py:129-201 | The timeline of every run is accepted by the grammar: a line's start, each segment's start and end, the line's end, lines in order; at most one overlap inside a line; nothing after a wait that timed out. The reader ends where the planner stands |
| `ScriptPlanner.AcceptedTimelines` | integration/tools/conversation/script_planner.py:199-201 | An accepted timeline, overlaps and times left out, is exactly the script's events up to where the reader stands |
| `ScriptPlanner.RunIsBounded` | integration/tools/conversation/script_planner.py:129-192 | On ticks one frame apart the planner is finished or stalled after the sum of its waits, in whole ticks, and its lines' frames |
| `ScriptPlanner.BudgetInSeconds` | integration/tools/conversation/script_planner.py:138-149 | With every timeout a whole number of ticks the bound is the sum of timeouts and line durations |
| `ScriptPlanner.WaitTicksInSeconds` | integration/tools/conversation/script_planner.py:148-149 | A timeout's ticks fall short of it by the tolerance at most, and pass it by less than a tick |
| `ScriptPlanner.WholeTimeout` | integration/tools/conversation/script_planner.py:148-149 | A timeout of whole ticks takes exactly those |
| `ScriptPlanner.LineTakesItsSeconds` | integration/tools/conversation/script_planner.py:151-192 | A line's frames last its bytes at 8000 a second and its pauses |
| `ScriptPlanner.LinesAnswerTheBot` | integration/tools/conversation/script_planner.py:129-143 | With the detector's own history: a line starts only when, counting from where its wait began, the bot has been heard inside spans for the least it must say, a run pending at that moment included if it opened one, and every span ended at least the quiet time ago |
| `ScriptPlanner.MarkedWhereTheWaitBegan` | integration/tools/conversation/script_planner.py:102-112 | Until the script is through, the detector counts from the moment the current wait began |
| `ScriptPlanner.TickKeepsValid` | integration/tools/conversation/script_planner.py:119-192 | Every tick keeps the planner's place inside its script |
| `ScriptPlanner.CheckLine` | integration/tools/conversation/script_planner.py:204-220 | No fault exactly for a playable line, and otherwise exactly which: the first that applies of no audio, a pause count that does not fit, the first segment not in whole frames, a pause after the last segment, a pause that is negative or not whole frames |
| `ScriptPlanner.ScriptPlanner.Create` | integration/tools/conversation/script_planner.py:83-112 | A planner exactly when every line is playable, and then the detector is marked at the start |
| `ScriptPlanner.ScriptPlanner.NextFrame` | integration/tools/conversation/script_planner.py:119-127 | One tick: the new plan, the frame and the detector's mark |
| `ScriptPlanner.ScriptPlanner.StartLineIfReady` | integration/tools/conversation/script_planner.py:129-149 | Starts the line, gives up or waits on |
| `ScriptPlanner.ScriptPlanner.Speak` | integration/tools/conversation/script_planner.py:151-162 | The segment's next frame, and what its end brings |
| `ScriptPlanner.ScriptPlanner.Pause` | integration/tools/conversation/script_planner.py:164-171 | One silent frame of the pause |
| `ScriptPlanner.ScriptPlanner.EndSegment` | integration/tools/conversation/script_planner.py:173-192 | The pause, the next segment, or the line's end with its mark |
| `ScriptPlanner.ScriptPlanner.NoteOverlap` | integration/tools/conversation/script_planner.py:194-197 | At most one overlap a line, when the bot is not quiet |
| `PlannerPace.PacedIsACall` | integration/tools/conversation/script_planner.py:119-192 | The planner and its own detector, one of the bot's frames between any two ticks, are a call of the tick-by-tick model: for every sequence of levels, however long after its tick a frame is stamped, and with or without a frame before the first tick. Same place in the script, same spans, same totals |
| `PlannerPace.AlwaysInTimeIff` | integration/tools/conversation/script_planner.py:138-149 | "Through within its timeouts and line durations, summed, whatever the bot does" holds, for frames that come so, exactly when the longest call is less than one tick longer than that sum |
| `PlannerPace.InTimeHoweverIff` | integration/tools/conversation/script_planner.py:138-149 | It holds however the frames come exactly when it holds at two ends: frames stamped with the tick before them, and frames stamped with the tick after them |
| `PlannerPace.SaidHoweverIff` | integration/tools/conversation/script_planner.py:129-149 | A line can be said however the frames come exactly when it can at one of those ends |
| `PlannerPace.FramesFirstIsPaced` | tests/test_conversation_script_planner.py:46-53 | Observing each frame and then taking the tick of the same time is one of the arrangements above |
| `PlannerPace.ThroughByTheLongest` | integration/tools/conversation/script_planner.py:129-192 | No bot keeps the planner busy past its longest call: every wait to its last tick, up to the first wait too short to be answered |
| `PlannerPace.LongestCallIsMade` | integration/tools/conversation/script_planner.py:129-192 | And some sequence of levels makes it last that long |
| `PlannerPace.LineIsSaidIff` | integration/tools/conversation/script_planner.py:129-149 | Some bot has a line said, with frames that come so, exactly when its wait, and every one before it, leaves time for the least speech that answers it and the quiet after; a shorter one can only time out |
| `PlannerPace.LongestAgainstBudget` | integration/tools/conversation/script_planner.py:129-192 | The longest call is within the sum of waits and lines, and is all of it when every wait can be answered |
| `PlannerPace.OffGridOverruns` | integration/tools/conversation/script_planner.py:138-149 | A concrete script, with timeouts of five and a half and three and a half ticks, for which the order decides: with each frame observed before its tick the second line can be said and the script can overrun the sum of its timeouts and lines, with each tick first neither |
| `PlannerPace.TickMoves` | integration/tools/conversation/script_planner.py:119-192 | One tick moves the planner between waiting, speaking and through as the tick model says, and marks the detector where a line ends |
| `PlannerPace.TotalsMove` | integration/tools/conversation/downlink_activity.py:63-94 | One frame moves the detector and what it counts since the mark as the tick model says, the frame of a line's last tick counting or not by its stamp |
| `PlannerPace.ReadyInTicks` | integration/tools/conversation/downlink_activity.py:111-122 | Ready to speak in seconds is ready in ticks |
| `Pace.LineStartsIff` | integration/tools/conversation/script_planner.py:129-149 | In the tick model, the same exact condition for a line to be said |
| `Pace.AnswerIsLeast` | integration/tools/conversation/downlink_activity.py:63-103 | From every state a wait can begin in, a run pending or a span open at the mark included, no fewer frames of speech answer it than the closed form says |
| `Pace.NextOutset` | integration/tools/conversation/downlink_activity.py:96-99 | Which of those states a line leaves behind, the frame of its last tick counting or not |
| `Pace.OverByTheLongest` | integration/tools/conversation/script_planner.py:129-192 | In the tick model, no call outlasts the longest |
| `Pace.LongestIsReached` | integration/tools/conversation/script_planner.py:129-192 | And one with nothing between loud and below the quiet level reaches it |
| `Pace.SlowerIsShorter` | integration/tools/conversation/script_planner.py:129-149 | A longer quiet time, or no frame before the first tick, never makes the longest call longer |
| `Pace.RunKeepsInv` | integration/tools/conversation/script_planner.py:129-192 | Over every run: the detector's account, what the current wait has brought, and which span the line being said answers |
| `ControlTap.Relay` | integration/proxy/control_tap.py:48-86 | For every way the stream is cut into chunks, and whichever turn ends it: every chunk read is forwarded unchanged, and the transcript is exactly batch deframing of what was tapped up to the first oversized prefix, then one desync record, and nothing more. It names the turn whose chunk first put the stream out of sync, and the record is the first 64 bytes of what was left over right after that chunk |
| `ControlTap.ForwardedIsTheChunks` | integration/proxy/control_tap.py:58-66 | What is forwarded is every chunk up to the first turn that brings none, with that turn's own if only its drain failed |
| `ControlTap.LostOnce` | integration/proxy/control_tap.py:66-76 | There is at most one such turn |
| `ControlTap.TakeFrames` | integration/proxy/control_tap.py:69-81 | The inner loop takes exactly the complete frames of the buffer, and stops at the first oversized prefix |
| `ControlTap.DeframeEncode` | integration/proxy/control_tap.py:69-81 | Deframing what a peer frames gives the frames back, before any tail |
| `ControlTap.EncodeDeframe` | integration/proxy/control_tap.py:69-81 | Every stream is the framing of its frames and what is left over |
| `ControlTap.DeframeResumes` | integration/proxy/control_tap.py:68-81 | Cutting a stream anywhere and carrying the leftover over changes nothing |
| `ControlTap.DesyncIsFinal` | integration/proxy/control_tap.py:66-67 | Out of sync, more bytes add no frame |
| `ControlTap.BufferIsAnIncompleteFrame` | integration/proxy/control_tap.py:69-77 | While synchronised, what stays buffered is an incomplete frame shorter than 4 bytes and the maximum |
| `ControlTap.TranscriptGrows` | integration/proxy/control_tap.py:68-81 | One chunk takes the transcript of the stream so far to that of the longer stream |
| `Serializer.NothingLostOrReordered` | src/pipecat_siphon/serializer.py:375-390 | Over any run, what was handed out followed by what waits is what waited followed by everything the messages meant |
| `Serializer.TurnsAreTheEngines` | src/pipecat_siphon/serializer.py:457-479 | Over every run: started and stopped frames, handed out or waiting, are one for each speech start and stop, in order, of the mode's own kind, and none when unreported |
| `Serializer.InterruptionsFollowTheStarts` | src/pipecat_siphon/serializer.py:457-471 | An interruption comes right after each turn's start, and nowhere else, exactly with auto-interrupt in user mode |
| `Serializer.DigitsAreThosePressed` | src/pipecat_siphon/serializer.py:481-489 | The digits are the keypad digits received, in order |
| `Serializer.AudioIsWhatFits` | src/pipecat_siphon/serializer.py:510-540 | The audio is that of the messages that fit the format last announced, in order |
| `Serializer.NoticesAreTheEngines` | src/pipecat_siphon/serializer.py:409-508 | One frame for each stop, each error by its kind, and each mark where those are asked for, in order |
| `Serializer.SilentOnlyWhenEmpty` | src/pipecat_siphon/serializer.py:375-390 | A message is answered with nothing exactly when nothing waits and it meant nothing |
| `Serializer.BacklogAsSurplus` | src/pipecat_siphon/serializer.py:375-390 | From any queue, the backlog against the sum and the suffix sums of (frames meant - 1) |
| `Serializer.BacklogIsHeaviestSuffix` | src/pipecat_siphon/serializer.py:375-390 | From an empty queue the backlog is the largest suffix sum of (frames meant - 1) |
| `Serializer.BacklogBound` | src/pipecat_siphon/serializer.py:457-471 | The backlog is bounded by the speech starts, in user mode with auto-interrupt, and never grows otherwise |
| `Serializer.FramesNeverDrainTheQueue` | src/pipecat_siphon/serializer.py:200-204 | Messages that mean a frame, audio among them, never shorten the queue |
| `Serializer.WaitingAppend` | src/pipecat_siphon/serializer.py:375-390 | The queue after two runs is the second run's from where the first left it |
| `Serializer.ReturnedAppend` | src/pipecat_siphon/serializer.py:375-390 | And so for the frames handed out: runs are calls one after another |
| `Serializer.LastFrameHandedOutIff` | src/pipecat_siphon/serializer.py:497-508 | The frame that ends the pipeline, sent just before the socket closes, is handed out exactly when nothing waited before it |
| `Serializer.FatalErrorBehindABargeIn` | src/pipecat_siphon/serializer.py:497-508 | So after one barge-in and any run of audio a fatal error is not |
| `Serializer.SiphonFrameSerializer.Deserialize` | src/pipecat_siphon/serializer.py:375-446 | One message: the frame handed out, the queue left, and the wire format and stream it switches to |
| `Signals.GoertzelPower` | integration/tools/signals.py:287-309 | For every buffer and every angle the recurrence yields the squared modulus of the single-bin transform over the squared sample count, and 0 for no samples; for the wire form of any samples, of those samples |
| `Signals.SamplesOfEncoded` | integration/tools/signals.py:282-302 | Reading undoes writing signed 16-bit samples low byte first, whatever odd byte follows |
| `Signals.EveryBufferIsEncoded` | integration/tools/signals.py:282-302 | Every buffer of whole samples is the wire form of the samples read from it |
| `Signals.PerSquareIs` | integration/tools/signals.py:309-309 | Over the squared sample count means just that |
| `Signals.HornerIsTheBinTurned` | integration/tools/signals.py:299-307 | What the recurrence holds, turned to where the transform ends, is the transform |
| `Signals.HornerHasTheBinsPower` | integration/tools/signals.py:299-309 | So it has the transform's power |
| `Signals.RecurrenceGrows` | integration/tools/signals.py:301-306 | One sample of the recurrence is one step of Horner's rule |
| `Signals.CellsHoldThePower` | integration/tools/signals.py:307-309 | The closing expression over the two cells is the power |
| `Signals.TwiddleOnTheUnitCircle` | integration/tools/signals.py:293-300 | The analysing wave never leaves the unit circle |
| `Signals.CauchySchwarz` | integration/tools/signals.py:275-309 | Any sum of samples against unit weights has at most count times energy for power |
| `Signals.NoBinExceedsTheEnergy` | integration/tools/signals.py:275-309 | So no bin holds more than the count times the energy |
| `Signals.PowerIsBounded` | integration/tools/signals.py:275-309 | A tone's power lies between 0 and the square of the buffer's RMS |
| `Signals.Rms` | integration/tools/signals.py:275-284 | The square of the level is the mean square, for the wire form of any samples that of those samples, and the level is 0 for no samples |
| `RtpPacket.ParseInvertsTheGrammar` | integration/tools/conversation/rtp_packet.py:56-89 | Accepts exactly the datagrams some packet of sections 5.1 and 5.3.1 of RFC 3550 builds, for any CSRC count, extension length and padding, and returns the header and payload of the only packet that builds it |
| `RtpPacket.ParseRtp` | integration/tools/conversation/rtp_packet.py:56-89 | The branch-by-branch parser meets that specification |
| `RtpPacket.DissectBuild` | integration/tools/conversation/rtp_packet.py:56-89 | Reading a built packet finds every part it was built from |
| `RtpPacket.BuildDissect` | integration/tools/conversation/rtp_packet.py:56-89 | Every well-formed datagram is a packet built so |
| `RtpPacket.PacketsAreLaidOut` | integration/tools/conversation/rtp_packet.py:32-89 | Every packet has the layout of section 5.1 of RFC 3550 bit by bit, its numbers in network byte order |
| `RtpPacket.ExtensionsAreLaidOut` | integration/tools/conversation/rtp_packet.py:67-74 | An extension is its profile, a count of words and as many words |
| `RtpPacket.ParseUndoesPack` | integration/tools/conversation/rtp_packet.py:32-53 | Packing succeeds exactly for fields in range, and parsing undoes it |
| `RtpPacket.RtpSender.NextPacket` | integration/tools/conversation/rtp_packet.py:111-123 | The next packet, and the sender advanced; a field out of range raises and leaves it where it was |
| `RtpPacket.SenderLaw` | integration/tools/conversation/rtp_packet.py:92-123 | From any start that fits, packet n has sequence first + n and timestamp first + n times the samples, round their fields, and no packet ever fails to fit |
| `RtpPacket.BadStartNeverRecovers` | integration/tools/conversation/rtp_packet.py:111-128 | From a start that does not fit no packet is ever made |
| `RtpPacket.NoGapsIff` | integration/tools/analyse.py:252-257 | The gap count is zero exactly for sequences that follow the sender's law |
| `RtpPacket.EachGapCounts` | integration/tools/analyse.py:252-257 | Each number that does not follow on from the one before it adds exactly one to the count |
| `Checksum.InternetChecksum` | integration/tools/rtp_pcap.py:36-43 | The checksum computed, odd lengths padded, and for up to 65538 words the one's complement checksum of section 1 of RFC 1071 |
| `Wire.FieldsAreBigEndian` | integration/tools/conversation/rtp_packet.py:76-89 | A field read is the number its bytes spell, the first weighing most |
| `Wire.WrittenBigEndian` | integration/tools/conversation/rtp_packet.py:48-53 | And so is a field written |
| `Checksum.TwoFoldsSufficeIff` | integration/tools/rtp_pcap.py:39-43 | For every sum: two folds bring every carry round exactly when adding the second fold's carry makes no third, or when that third is a multiple of 65535 with a nonzero low word beside it |
| `Checksum.TwoFoldsAreTheRfcChecksum` | integration/tools/rtp_pcap.py:36-43 | They do for any data of up to 65538 words |
| `Checksum.OneWordTooMany` | integration/tools/rtp_pcap.py:36-43 | And not for some data of 65539 |
| `Checksum.OnesSumIsFolded` | integration/tools/rtp_pcap.py:38-42 | The end-around sum of RFC 1071 is the plain sum modulo 65535, with 65535 for its nonzero multiples |
| `Checksum.ChecksumVerifies` | integration/tools/rtp_pcap.py:36-56 | Written into the zeroed aligned word it was computed over, the checksum makes the whole check to 0 |
| `RtpPcap.Ipv4HeaderVerifies` | integration/tools/rtp_pcap.py:46-56 | Every IPv4 header written verifies under section 3.1 of RFC 791 |
| `RtpPcap.PcapRoundTrip` | integration/tools/rtp_pcap.py:64-115 | For every payload list that fits, a reader gets one frame a payload in order; unwrapped and parsed, frame i has payload i, sequence i, timestamp i times the samples, round their fields, and capture time i packet times |
| `RtpPcap.ReadAllRecords` | integration/tools/rtp_pcap.py:92-115 | Reading the written records finds each of them, whatever follows |
| `RtpPcap.UnwrapFrame` | integration/tools/rtp_pcap.py:59-106 | Stripping a frame's layers, with the lengths and checksum they declare, gives back the RTP packet |
| `RtpPcap.WriteRtpPcap` | integration/tools/rtp_pcap.py:69-115 | Writes the file of all payloads, or raises at the first that does not fit with what came before it written |
| `RtpPcap.CaptureHeader` | integration/tools/rtp_pcap.py:92-95 | The capture file's header, byte by byte |
| `RtpPcap.FrameLayers` | integration/tools/rtp_pcap.py:89-102 | A frame is an Ethernet header without addresses, the IPv4 header, the UDP header and the RTP packet |
| `RtpPcap.IpFields` | integration/tools/rtp_pcap.py:46-56 | Every field of the IPv4 header but its checksum |
| `RtpPcap.UdpFields` | integration/tools/rtp_pcap.py:59-61 | Every field of the UDP header |
| `RtpPcap.OneMore` | integration/tools/rtp_pcap.py:92-115 | The file grows by one record a payload |
| `RtpPcap.WrittenSequencesHaveNoGaps` | integration/tools/analyse.py:252-257 | The sequence numbers parsed from the records of a written file, read back, are one for each payload and count no gaps |
| `TelephoneBand.CompressedIsWhatIsKept` | integration/tools/conversation/telephone_band.py:62-103 | With keep up to the shortest pause that is shortened, the output is an in-order subsequence of the input: every active window, all silence at either end, every short pause whole, and of each longer inner pause its first keep/2 and its last rest |
| `TelephoneBand.WhatIsKept` | integration/tools/conversation/telephone_band.py:83-101 | Speech, the silence before all of it and the silence after are kept |
| `TelephoneBand.WhatIsKeptOfAPause` | integration/tools/conversation/telephone_band.py:90-101 | A pause between speech is kept whole exactly up to the limit; of a longer one exactly the first keep/2 and the last keep - keep/2 samples |
| `TelephoneBand.SliceFromTheEnd` | integration/tools/conversation/telephone_band.py:98-99 | Negative bounds of a slice count from the end, as in Python |
| `TelephoneBand.CompressedLength` | integration/tools/conversation/telephone_band.py:62-103 | So it is shorter by exactly the sum of (pause - keep) over those |
| `TelephoneBand.KeepsExactlyIff` | integration/tools/conversation/telephone_band.py:62-103 | For any window, limit, keep and threshold: that holds for all audio, its windows judged by their level as the code does, exactly when keep is at most the next whole number of windows above the limit |
| `TelephoneBand.KeepTooLongLengthens` | integration/tools/conversation/telephone_band.py:93-100 | Above that, for every such setting, audio the code judges to have such a pause, and which comes out longer than it went in |
| `TelephoneBand.JudgedAsSpread` | integration/tools/conversation/telephone_band.py:198-205 | Every sequence of flags is what the code judges some audio by, at any threshold |
| `TelephoneBand.PauseIsKept` | integration/tools/conversation/telephone_band.py:87-101 | A silent run becomes exactly its kept samples |
| `TelephoneBand.WindowIsKept` | integration/tools/conversation/telephone_band.py:83-84 | An active window is kept whole |
| `TelephoneBand.CompressPauses` | integration/tools/conversation/telephone_band.py:76-103 | Judging the windows and then the loop produce the specified output |
| `TelephoneBand.ShapePause` | integration/tools/conversation/telephone_band.py:90-101 | One silent run, shortened or not |
| `TelephoneBand.FirstActive` | integration/tools/conversation/telephone_band.py:87-89 | The inner loop stops at the next active window or the end |
| `TelephoneBand.ActiveWindows` | integration/tools/conversation/telephone_band.py:198-205 | One flag a window, the last of which may be short, each judged on its own samples |
| `TelephoneBand.TrimmingKeepsTheSpeech` | integration/tools/conversation/telephone_band.py:41-59 | Trimming starts exactly keep samples before the first sample of speech and ends exactly keep after the last, or where the audio does; and leaves nothing when nothing is speech |

## Left out

- The control plane's arrival and ending futures (`examples/agent_bot.py:2168-2200`): lists of waiters all resolved at
  once, without the replacement and late verdicts that make the verdict slots hard.
- `BriefedCall`'s choice, consult and failure tools beyond "a report is reserved" and "the caller is released", its
  grace watch, and its reading of what a transfer asks for against the brief.
- Cutting `LateWakes` short when the bot's worker is gone, and the wording of notes to the model.
- `outcome_from_event`, `CallOutcome`'s text, the protocol's field-by-field wire forms and JSON.
- The serializer's outbound half, and the stereo, decoding and resampling inside an audio message.
- Filters, levelling and sine fixtures of the telephone band, and float rounding everywhere.
- Expectation checks, reports, configuration and scenario reading, SIP and packet-capture tools around the harness.
- Asynchronous classes are modelled one atomic step at a time: what a method does between two suspensions is one
  method here, and which step runs next is the run's choice.
- PlannerPace.AlwaysInTimeIff: does not cover thresholds that ask for a microsecond of speech or of quiet, or less,
  which within the tolerance ask for none; nor a bot several of whose frames arrive between two ticks, or none, or
  stamped unevenly. `ScriptPlanner.RunIsBounded` covers all of these.
- PlannerPace.LineIsSaidIff: the same.
- PlannerPace.InTimeHoweverIff: the same.
- PlannerPace.SaidHoweverIff: the same.
- BriefedCalls.EveryRequestIsAnsweredFor: follows one session and its caller; notes are counted as told whether they
  are delivered at once or kept, which `CallerSessions` accounts for.
