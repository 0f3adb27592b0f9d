# e-witank drive pipeline, in Dafny

e-witank is an Android app that drives a two-track RC tank over the phone's
WiFi hotspot. The tank's motor board takes HTTP GETs of the form
`http://ip/channel/command`. The channel is `a` or `b`, one per track, and
the command is `maju` (forward), `mundur` (reverse) or `stop`. A camera board
on the same hotspot streams video and reports an obstacle distance.

This project models the app's core as Dafny code and proves properties of it:

- **Motion vocabulary** (`motion.dfy`). The nine motion classes and a timed
  path segment.
- **Mirror of a motion** (`mapper.dfy`). It turns a recording into a return
  path.
- **Motion recorder** (`recorder.dfy`). A class that turns per-track press
  and release events into timed segments.
- **Command dispatcher** (`dispatcher.dfy`). Every drive command passes
  through it: an emergency lock, a hard and a soft forward block, and a
  debounce on the single last accepted `channel:command` key.
- **Tank buttons** (`tank.dfy`). The glue from a button to the recorder and
  the dispatcher, and the press/release pairing of a held button.
- **Proximity poller** (`proximity.dfy`). Parses the distance reply,
  classifies it as SAFE, WARNING or DANGER, and guards the polling job.
- **Return-to-home executor** (`executor.dfy`, `executor_props.dfy`).
  - It builds the return path and plays it in 20 ms slices.
  - A forward step is interrupted on DANGER. The interrupt records a time
    debt and backs off.
  - At the end it compensates for the debt and rotates around.
  - It is run sequentially: a simulated clock advances with each `delay`,
    the sensor is an oracle from clock to distance, and the executor's
    dispatcher calls are logged as a trace.
- **Discovery sweeps** (`net.dfy`, `scanner.dfy`, `devicelist.dfy`).
  - Both sweeps cover hosts 1 to 254 of the hotspot subnet. They run in
    ascending order against a probe oracle.
  - The camera sweep writes the camera into the controller table and reports
    the first camera it finds.
  - The device-list sweep lists every controller board.
- **Controller table** (`storage.dfy`). A list of paired controller and
  camera records, kept in preferences.
- **Camera selection state** (`camera.dfy`). Chooses the camera host the
  stream uses. The stream screen declares its own `CameraViewModel`
  (`screen/CameraSearchScreen.kt`, lines 49-93), whose guard, callback and
  `getActiveCamIp` are the same code; one model covers both.
- **Stream screen's control view model** (`legacy.dfy`). Its own dispatcher,
  and its reaction to each change of the safety state.
- **Dataset capture state** (`bbox.dfy`). Bounding boxes drawn on a frame.

Each class keeps the source's fields and updates them in its methods. Its
ghost `State()` ties every method to a pure function of the old state, and
the lemmas are proved about those functions.

Some behaviour of the code is worth stating outright:

- **Segments of any length are committed.** `MOTION_MIN_DURATION_MS` is
  declared but never read, so a segment of 0 ms is committed too.
- **The safety state follows the last reading only.**
  - A failed request keeps the previous distance and state.
  - A reply without a distance gives null and SAFE.
  - The state is a plain threshold classification of the last reading.
- **Each interrupt overwrites the time debt.** Recovery backs off while the
  reading is at most 10 cm, not while it is DANGER (2 cm or less).
- **Progress moves only on some hosts:**
  - The camera sweep counts every host other than the controller.
  - The device-list sweep moves the bar only at multiples of ten. Its
    `continue` on the phone's own address also skips the update for that
    number.

## Model

| member | source | states |
|---|---|---|
| Motion.IntentsPartition | app/src/main/java/com/alfadjri28/e_witank/RTH/RthExecutor.kt:186-194 | forward and backward intent never overlap, pivots have neither, and DIAM is the only motion with no intent at all |
| RthMapper.Invert | app/src/main/java/com/alfadjri28/e_witank/RTH/RthMapper.kt:5-19 | the mirror keeps forward motions forward, backward backward and pivots pivots, and only DIAM maps to DIAM |
| RthMapper.InvertInvolutive | app/src/main/java/com/alfadjri28/e_witank/RTH/RthMapper.kt:5-19 | mirroring twice gives back every motion |
| RthMapper.InvertFixedPoints | app/src/main/java/com/alfadjri28/e_witank/RTH/RthMapper.kt:5-19 | the fixed points are exactly MAJU, MUNDUR and DIAM |
| RthMapper.InvertSwapsSides | app/src/main/java/com/alfadjri28/e_witank/RTH/RthMapper.kt:8-15 | KANAN and KIRI are exchanged for forward veers, reverse veers and pivots |
| RthMapper.InvertBijective | app/src/main/java/com/alfadjri28/e_witank/RTH/RthMapper.kt:5-19 | the mirror is injective and every motion has a preimage |
| Recorder.Classify | app/src/main/java/com/alfadjri28/e_witank/RTH/RthRecorder.kt:78-109 | a non-DIAM class is the motion that drives exactly the pair (motorA, motorB); DIAM is given for (stop, stop) and for every pair no moving class drives |
| Recorder.ClassifyTracks | app/src/main/java/com/alfadjri28/e_witank/RTH/RthRecorder.kt:78-109 | classifying the track pair the executor drives for a motion gives that motion back |
| Recorder.Close | app/src/main/java/com/alfadjri28/e_witank/RTH/RthRecorder.kt:126-132 | commits the open motion unless it is DIAM: the log keeps its prefix and gains exactly the segment (lastMotion, now - start); no other field changes |
| Recorder.Update | app/src/main/java/com/alfadjri28/e_witank/RTH/RthRecorder.kt:77-123 | afterwards the open motion is the classification of the two motors; the motors and the recording flag are untouched; the log keeps its prefix and gains at most one segment |
| Recorder.Pressed | app/src/main/java/com/alfadjri28/e_witank/RTH/RthRecorder.kt:53-62 | ignored unless recording and not stopping; otherwise the named channel's motor takes the action, the other motor keeps its value, and the open motion is reclassified; at most one segment is added |
| Recorder.Released | app/src/main/java/com/alfadjri28/e_witank/RTH/RthRecorder.kt:64-73 | as Pressed, except that the named motor becomes "stop" |
| Recorder.Started | app/src/main/java/com/alfadjri28/e_witank/RTH/RthRecorder.kt:26-39 | an empty log, recording and not stopping, both motors stopped so the open motion is DIAM; the start time is not reset |
| Recorder.Stopped | app/src/main/java/com/alfadjri28/e_witank/RTH/RthRecorder.kt:41-47 | recording and stopping both end, lastMotion is kept, and the log gains the open non-DIAM motion with its elapsed time |
| Recorder.TransitionsAppendAtMostOne | app/src/main/java/com/alfadjri28/e_witank/RTH/RthRecorder.kt:53-132 | every press, release, update and stop keeps the committed segments as a prefix, appends at most one, and never appends a DIAM segment; start leaves none |
| Recorder.UpdateUnchangedMotion | app/src/main/java/com/alfadjri28/e_witank/RTH/RthRecorder.kt:111 | when the reclassified motion equals the open one, the whole recorder state is unchanged |
| Recorder.UpdateOnChange | app/src/main/java/com/alfadjri28/e_witank/RTH/RthRecorder.kt:113-132 | a change away from a non-DIAM motion appends exactly (old motion, now - start); from DIAM nothing is appended; the start time moves to now only when a non-DIAM motion opens |
| Recorder.PressReleaseCommitsOneSegment | app/src/main/java/com/alfadjri28/e_witank/RTH/RthRecorder.kt:22-73 | holding one button from t1 to t2 on an idle recording commits exactly one segment of t2 - t1 ms, however short, and leaves both motors stopped |
| Recorder.StopTwiceCommitsTwice | app/src/main/java/com/alfadjri28/e_witank/RTH/RthRecorder.kt:41-47 | since stopRecord leaves lastMotion open, a second stop commits the same motion again with its longer duration |
| Recorder.RthRecorder.constructor | app/src/main/java/com/alfadjri28/e_witank/RTH/RthRecorder.kt:7-21 | an empty log, not recording, DIAM open, both motors "stop" |
| Recorder.RthRecorder.StartRecord | app/src/main/java/com/alfadjri28/e_witank/RTH/RthRecorder.kt:26-39 | empties the log, starts recording, opens DIAM and stops both motors |
| Recorder.RthRecorder.StopRecord | app/src/main/java/com/alfadjri28/e_witank/RTH/RthRecorder.kt:41-47 | closes the open motion, ends recording and keeps lastMotion |
| Recorder.RthRecorder.IsRecording | app/src/main/java/com/alfadjri28/e_witank/RTH/RthRecorder.kt:49 | answers the recording flag |
| Recorder.RthRecorder.OnPress | app/src/main/java/com/alfadjri28/e_witank/RTH/RthRecorder.kt:53-62 | nothing changes unless recording; otherwise only the named channel's motor takes the action (a channel other than "a" or "b" moves no motor) and the motion is reclassified |
| Recorder.RthRecorder.OnRelease | app/src/main/java/com/alfadjri28/e_witank/RTH/RthRecorder.kt:64-73 | as OnPress, but the named motor becomes "stop" whatever the action argument |
| Recorder.RthRecorder.UpdateMotion | app/src/main/java/com/alfadjri28/e_witank/RTH/RthRecorder.kt:77-123 | the reclassification step, and it keeps the log free of DIAM segments |
| Recorder.RthRecorder.CloseMotion | app/src/main/java/com/alfadjri28/e_witank/RTH/RthRecorder.kt:126-132 | commits the open non-DIAM motion with its elapsed time, with no minimum duration |
| Recorder.RthRecorder.GetRecordedMotions | app/src/main/java/com/alfadjri28/e_witank/RTH/RthRecorder.kt:136 | answers the committed segments |
| Executor.BuildRthPath | app/src/main/java/com/alfadjri28/e_witank/RTH/RthExecutor.kt:196-201 | the return path has the recording's length, and its k-th step is the mirrored motion of the recording's k-th step from the end, with that step's duration |
| Executor.BuildRthPathInvolutive | app/src/main/java/com/alfadjri28/e_witank/RTH/RthExecutor.kt:196-201 | building the return path of the return path gives the recording back |
| Executor.BuildRthPathKeepsBackward | app/src/main/java/com/alfadjri28/e_witank/RTH/RthExecutor.kt:27-31 | the return path has a backward step exactly when the recording has one |
| Executor.MotionCallsFollowTracks | app/src/main/java/com/alfadjri28/e_witank/RTH/RthExecutor.kt:160-176 | each motion drives its fixed (track A, track B) pair, DIAM being a stop on both |
| Executor.ReverseCalls | app/src/main/java/com/alfadjri28/e_witank/RTH/RthExecutor.kt:108-114 | n reverse bursts are 2n dispatcher calls |
| Executor.RthPath | app/src/main/java/com/alfadjri28/e_witank/RTH/RthExecutor.kt:29-31 | the path played has as many steps as the recording |
| Executor.RotateRun | app/src/main/java/com/alfadjri28/e_witank/RTH/RthExecutor.kt:144-156 | rotate180 leaves the debt alone |
| Executor.RecoverRun | app/src/main/java/com/alfadjri28/e_witank/RTH/RthExecutor.kt:103-118 | recovery leaves the debt alone |
| Executor.CompensateRun | app/src/main/java/com/alfadjri28/e_witank/RTH/RthExecutor.kt:122-140 | compensation always ends with the debt cleared |
| Executor.StepRun | app/src/main/java/com/alfadjri28/e_witank/RTH/RthExecutor.kt:73-99 | a step either keeps the debt or sets it to at most its own duration |
| Executor.ExecuteRun | app/src/main/java/com/alfadjri28/e_witank/RTH/RthExecutor.kt:19-53 | an empty recording changes nothing; otherwise the job ends with no positive debt |
| Executor.RthExecutor.constructor | app/src/main/java/com/alfadjri28/e_witank/RTH/RthExecutor.kt:7-17 | no calls yet, clock 0, no debt |
| Executor.RthExecutor.Delay | app/src/main/java/com/alfadjri28/e_witank/RTH/RthExecutor.kt:80 | advances only the clock |
| Executor.RthExecutor.StopBoth | app/src/main/java/com/alfadjri28/e_witank/RTH/RthExecutor.kt:51 | appends "a" stop then "b" stop |
| Executor.RthExecutor.Drive | app/src/main/java/com/alfadjri28/e_witank/RTH/RthExecutor.kt:178-181 | appends the "a" action then the "b" action |
| Executor.RthExecutor.SendMotion | app/src/main/java/com/alfadjri28/e_witank/RTH/RthExecutor.kt:160-176 | appends the motion's track pair |
| Executor.RthExecutor.Rotate180 | app/src/main/java/com/alfadjri28/e_witank/RTH/RthExecutor.kt:144-156 | pivot right, stop, forward nudge, stop, with the 600/80/10/120 ms waits |
| Executor.RthExecutor.RecoverFromDanger | app/src/main/java/com/alfadjri28/e_witank/RTH/RthExecutor.kt:103-118 | stop, then one reverse burst per 60 ms mark while the reading is at most 10 cm, then stop; the loop invariant ties it to the count of bursts |
| Executor.RthExecutor.CompensateFinalPosition | app/src/main/java/com/alfadjri28/e_witank/RTH/RthExecutor.kt:122-140 | 50 ms reverse bursts while less than the debt is compensated and the reading is above 10 cm, then stop and a debt of 0 |
| Executor.RthExecutor.RunMotionWithRecovery | app/src/main/java/com/alfadjri28/e_witank/RTH/RthExecutor.kt:73-99 | reset, drive, then 20 ms slices; a forward step seeing danger sets the debt to the remaining time and recovers, otherwise the step ends with a stop |
| Executor.RthExecutor.WatchSlices | app/src/main/java/com/alfadjri28/e_witank/RTH/RthExecutor.kt:84-95 | the slice loop ends as Slices says, interrupted before the duration is reached or completed; only the clock moves, by the elapsed time |
| Executor.RthExecutor.ExecuteSingleStep | app/src/main/java/com/alfadjri28/e_witank/RTH/RthExecutor.kt:60-69 | one step played with recovery |
| Executor.RthExecutor.Execute | app/src/main/java/com/alfadjri28/e_witank/RTH/RthExecutor.kt:19-53 | an empty recording does nothing; otherwise reset the debt, rotate if there is no backward step, play the path, compensate a positive debt, rotate again, stop |
| Executor.RthExecutor.Stop | app/src/main/java/com/alfadjri28/e_witank/RTH/RthExecutor.kt:55-58 | a stop on both tracks of the empty host |
| ExecutorProps.NonForwardRunsToCompletion | app/src/main/java/com/alfadjri28/e_witank/RTH/RthExecutor.kt:85-98 | a step that is not forward is never interrupted and runs ceil(d/20) slices |
| ExecutorProps.InterruptFacts | app/src/main/java/com/alfadjri28/e_witank/RTH/RthExecutor.kt:85-91 | an interrupt happens only on a forward step, at an elapsed multiple of 20 before the end where the sensor says danger, with no danger at any earlier slice; a completed step saw no danger at any slice |
| ExecutorProps.SafeSlicesComplete | app/src/main/java/com/alfadjri28/e_witank/RTH/RthExecutor.kt:85-98 | with no danger at any time every step completes |
| ExecutorProps.StepDebt | app/src/main/java/com/alfadjri28/e_witank/RTH/RthExecutor.kt:87-91 | an interrupt at elapsed e overwrites the debt with d - e, where 0 < d - e <= d; a completed step keeps the debt |
| ExecutorProps.CompensateBound | app/src/main/java/com/alfadjri28/e_witank/RTH/RthExecutor.kt:125-134 | compensation issues at most ceil(debt/50) bursts, none for a debt of 0 or less |
| ExecutorProps.ReverseCallsOnlyReverse | app/src/main/java/com/alfadjri28/e_witank/RTH/RthExecutor.kt:108-114 | every backoff burst call is a "mundur" |
| ExecutorProps.RecoveryNeverForward | app/src/main/java/com/alfadjri28/e_witank/RTH/RthExecutor.kt:103-140 | recovery and compensation send only "stop" and "mundur" calls |
| ExecutorProps.BackoffFacts | app/src/main/java/com/alfadjri28/e_witank/RTH/RthExecutor.kt:108-114 | recovery backs off at each 60 ms mark while the reading is at most 10 cm and stops at the first mark where it is not |
| ExecutorProps.CompletedStep | app/src/main/java/com/alfadjri28/e_witank/RTH/RthExecutor.kt:80-98 | a completed step's calls are reset, drive, stop, and it keeps the debt |
| ExecutorProps.SafePathRun | app/src/main/java/com/alfadjri28/e_witank/RTH/RthExecutor.kt:36-42 | with no danger, playing a path makes exactly reset, drive, stop for each step in order |
| ExecutorProps.SafePathKeepsDebt | app/src/main/java/com/alfadjri28/e_witank/RTH/RthExecutor.kt:36-42 | with no danger, playing a path leaves the debt untouched |
| ExecutorProps.SafeExecuteWithoutBackward | app/src/main/java/com/alfadjri28/e_witank/RTH/RthExecutor.kt:19-53 | with no danger and no backward step, execute makes exactly a rotation, the mirrored reversed path played plainly, a rotation and a stop, and leaves no debt |
| ExecutorProps.StepShape | app/src/main/java/com/alfadjri28/e_witank/RTH/RthExecutor.kt:73-99 | every step's calls open with a reset and the drive and end with a stop, and a non-negative debt stays non-negative |
| ExecutorProps.PathShape | app/src/main/java/com/alfadjri28/e_witank/RTH/RthExecutor.kt:36-42 | playing a path only appends calls; a non-empty path opens with its first step's reset and drive and ends with a stop |
| ExecutorProps.CompensatePhase | app/src/main/java/com/alfadjri28/e_witank/RTH/RthExecutor.kt:45-47 | a positive debt is compensated, with calls ending in a stop, and reset to 0; otherwise the phase does nothing |
| ExecutorProps.ExecutePhases | app/src/main/java/com/alfadjri28/e_witank/RTH/RthExecutor.kt:19-53 | execute is the rotation phase, the path phase, the compensation phase, the second rotation and the final stop, in that order |
| ExecutorProps.ExecuteBracketing | app/src/main/java/com/alfadjri28/e_witank/RTH/RthExecutor.kt:33-51 | every execute of a non-empty recording ends with stopBoth and no debt; without a backward step it opens and closes with rotate180, and with one it opens with the first step's reset and drive |
| ExecutorProps.RotationIffNoBackward | app/src/main/java/com/alfadjri28/e_witank/RTH/RthExecutor.kt:27-33 | the first call of execute drives track A forward (the rotation's pivot) exactly when the recording has no backward step |
| ExecutorProps.ReturnPathExample | app/src/main/java/com/alfadjri28/e_witank/RTH/RthExecutor.kt:196-201 | forward 1000 ms then pivot right 300 ms returns as pivot left 300 ms then forward 1000 ms |
| Dispatcher.Url | app/src/main/java/com/alfadjri28/e_witank/model/ControlViewModel.kt:90 | the GET goes to "http://" followed by the ip, the channel and the command separated by "/" |
| Dispatcher.KeyInjective | app/src/main/java/com/alfadjri28/e_witank/model/ControlViewModel.kt:80 | two debounce keys of channels without ':' are equal exactly when channel and command both are |
| Dispatcher.Interval | app/src/main/java/com/alfadjri28/e_witank/model/ControlViewModel.kt:82 | the window is 180 ms in slow mode and 120 ms otherwise |
| Dispatcher.ContainsOccurs | app/src/main/java/com/alfadjri28/e_witank/model/ControlViewModel.kt:70 | the containment test holds exactly when the text occurs at some position |
| Dispatcher.Send | app/src/main/java/com/alfadjri28/e_witank/model/ControlViewModel.kt:59-93 | at most one GET; none exactly when a lock flag or the debounce drops the command, and then the gate is unchanged; otherwise the GET for ip/channel/command, with the key and time recorded |
| Dispatcher.LockRejectsAllButStop | app/src/main/java/com/alfadjri28/e_witank/model/ControlViewModel.kt:65 | while locked every command but "stop" is dropped and nothing changes |
| Dispatcher.StopPassesLocks | app/src/main/java/com/alfadjri28/e_witank/model/ControlViewModel.kt:65-77 | "stop" passes every lock flag; only the debounce can drop it |
| Dispatcher.HardBlockRejectsMaju | app/src/main/java/com/alfadjri28/e_witank/model/ControlViewModel.kt:69-71 | under the hard block any command containing "maju" is dropped |
| Dispatcher.SoftBlockExactlyMaju | app/src/main/java/com/alfadjri28/e_witank/model/ControlViewModel.kt:75-77 | the soft block alone drops exactly "maju" |
| Dispatcher.DebounceBoundary | app/src/main/java/com/alfadjri28/e_witank/model/ControlViewModel.kt:79-83 | a repeated key is dropped strictly inside the window and sent at exactly the window's end or later |
| Dispatcher.OtherKeyNeverDebounced | app/src/main/java/com/alfadjri28/e_witank/model/ControlViewModel.kt:83-86 | a different key passing the locks is always sent and becomes the last key |
| Dispatcher.FirstCommandSent | app/src/main/java/com/alfadjri28/e_witank/model/ControlViewModel.kt:40-86 | the first command after construction is never debounced |
| Dispatcher.StopBothShape | app/src/main/java/com/alfadjri28/e_witank/model/ControlViewModel.kt:96-99 | stopBoth fires both stops, "a" then "b", exactly when "a:stop" is not debounced, and only the "b" stop when it is; the lock and slow-mode flags stay |
| Dispatcher.StopBothSend | app/src/main/java/com/alfadjri28/e_witank/model/ControlViewModel.kt:96-99 | stopBoth sends one or two calls, always ending with the "b" stop, and leaves "b:stop" as the last key at time now |
| Dispatcher.StopBothTwiceSendsFour | app/src/main/java/com/alfadjri28/e_witank/model/ControlViewModel.kt:83-99 | only the single last key is remembered, so two stopBoth calls at the same instant fire four GETs |
| Dispatcher.ControlViewModel.constructor | app/src/main/java/com/alfadjri28/e_witank/model/ControlViewModel.kt:21-50 | no flag raised, empty last key at time 0, dev mode off, a fresh idle recorder |
| Dispatcher.ControlViewModel.SendCommandSmooth | app/src/main/java/com/alfadjri28/e_witank/model/ControlViewModel.kt:59-93 | the gate and the log of GETs follow Send |
| Dispatcher.ControlViewModel.StopBoth | app/src/main/java/com/alfadjri28/e_witank/model/ControlViewModel.kt:96-99 | "a" stop then "b" stop through the gate |
| Dispatcher.ControlViewModel.ToggleDevMode | app/src/main/java/com/alfadjri28/e_witank/model/ControlViewModel.kt:117-119 | flips dev mode and changes nothing else |
| Dispatcher.ControlViewModel.StopRecord | app/src/main/java/com/alfadjri28/e_witank/model/ControlViewModel.kt:130-133 | stops the recorder and answers its segments |
| TankControls.Channel | app/src/main/java/com/alfadjri28/e_witank/screen/TankControls.kt:36-44 | every button names track "a" or "b" |
| TankControls.Action | app/src/main/java/com/alfadjri28/e_witank/screen/TankControls.kt:36-44 | every button names "maju" or "mundur" |
| TankControls.CommandsArePairs | app/src/main/java/com/alfadjri28/e_witank/screen/TankControls.kt:36-44 | the four buttons are exactly the four pairs of a track and a direction, each once |
| TankControls.StepSendsOwnTrack | app/src/main/java/com/alfadjri28/e_witank/screen/TankControls.kt:50-63 | a step fires at most one GET, on the button's own track; a press sends the button's direction and a release only "stop" |
| TankControls.ReleaseOnlyDebounced | app/src/main/java/com/alfadjri28/e_witank/screen/TankControls.kt:59-62 | a release is dropped only by the debounce, never by a lock flag |
| TankControls.StepKeepsOtherTrack | app/src/main/java/com/alfadjri28/e_witank/screen/TankControls.kt:50-63 | a step leaves the other track's motor in the recorder as it was |
| TankControls.TankStep | app/src/main/java/com/alfadjri28/e_witank/screen/TankControls.kt:50-63 | one button event never changes the dispatcher's lock or block flags, adds at most one segment to the recording and sends at most one call |
| TankControls.HoldCommitsOneSegment | app/src/main/java/com/alfadjri28/e_witank/screen/TankControls.kt:50-85 | a press and its release on an idle recording commit exactly one segment, the single track's motion, lasting from press to release |
| TankControls.HoldMotion | app/src/main/java/com/alfadjri28/e_witank/screen/TankControls.kt:36-44 | a single held button drives a veer: forward exactly for "maju", never a pivot or DIAM, with its own track moving and the other stopped |
| TankControls.ExecuteTankCommand | app/src/main/java/com/alfadjri28/e_witank/screen/TankControls.kt:50-63 | the recorder is told first, then the dispatcher: the press action, or "stop" on release |
| TankControls.HoldButton | app/src/main/java/com/alfadjri28/e_witank/screen/TankControls.kt:78-85 | every press is followed by exactly one release |
| Proximity.ClassifyBands | app/src/main/java/com/alfadjri28/e_witank/screen/distance/DistanceViewModel.kt:55-60 | null is SAFE; 2 cm or less is DANGER, 3 to 18 WARNING, more than 18 SAFE |
| Proximity.Classify | app/src/main/java/com/alfadjri28/e_witank/screen/distance/DistanceViewModel.kt:55-60 | DANGER exactly for readings of at most 2 cm; SAFE exactly for null or more than 18 cm |
| Proximity.ClassifyMonotone | app/src/main/java/com/alfadjri28/e_witank/screen/distance/DistanceViewModel.kt:55-60 | a nearer reading is never less severe |
| Proximity.DigitPrefix | app/src/main/java/com/alfadjri28/e_witank/screen/distance/DistanceViewModel.kt:46 | the captured group is the longest run of digits after the tag |
| Proximity.FindFrom | app/src/main/java/com/alfadjri28/e_witank/screen/distance/DistanceViewModel.kt:46-50 | no match exactly when no position matches; otherwise the value captured at the leftmost match |
| Proximity.ParseDistance | app/src/main/java/com/alfadjri28/e_witank/screen/distance/DistanceViewModel.kt:46-50 | no match exactly when no position of the reply holds `"distance":` and a digit; a parsed value lies in 0..Int.MAX_VALUE |
| Proximity.Polled | app/src/main/java/com/alfadjri28/e_witank/screen/distance/DistanceViewModel.kt:42-62 | the distance is kept, or comes from a reply and is in range or null; it becomes null only for a reply with no match |
| Proximity.DistanceRoundTrip | app/src/main/java/com/alfadjri28/e_witank/screen/distance/DistanceViewModel.kt:46-50 | a reply {"distance":n} parses back to n for every n up to Int.MAX_VALUE |
| Proximity.PollNeverEscalatesOnFailure | app/src/main/java/com/alfadjri28/e_witank/screen/distance/DistanceViewModel.kt:52-62 | DANGER after a poll means the state was kept or the sensor reported 2 cm or less; a reply without a distance gives null and SAFE |
| Proximity.AfterPollsIgnoresFailures | app/src/main/java/com/alfadjri28/e_witank/screen/distance/DistanceViewModel.kt:62 | a failed request at the end of a run of polls changes nothing |
| Proximity.DistanceViewModel.constructor | app/src/main/java/com/alfadjri28/e_witank/screen/distance/DistanceViewModel.kt:32-35 | null distance, SAFE, no job |
| Proximity.DistanceViewModel.StartPolling | app/src/main/java/com/alfadjri28/e_witank/screen/distance/DistanceViewModel.kt:37-40 | no-op while a job exists, otherwise starts one for the host |
| Proximity.DistanceViewModel.StopPolling | app/src/main/java/com/alfadjri28/e_witank/screen/distance/DistanceViewModel.kt:69-72 | clears the job (idempotent), so start after stop starts again |
| Proximity.DistanceViewModel.IsDanger | app/src/main/java/com/alfadjri28/e_witank/RTH/RthExecutor.kt:87 | danger exactly when the last reading classifies as DANGER |
| Proximity.DistanceViewModel.PollOnce | app/src/main/java/com/alfadjri28/e_witank/screen/distance/DistanceViewModel.kt:42-62 | one poll: the distance follows the reply, a failure keeps distance and state, and the state stays the classification of the distance |
| Proximity.DistanceViewModel.PollLoop | app/src/main/java/com/alfadjri28/e_witank/screen/distance/DistanceViewModel.kt:40-66 | the loop leaves the distance of the run of replies and keeps the state classified |
| Net.LastDot | app/src/main/java/com/alfadjri28/e_witank/CameraScanner.kt:33 | the position of the last '.', or none when there is no '.' |
| Net.SubnetOf | app/src/main/java/com/alfadjri28/e_witank/CameraScanner.kt:33 | the text before the last '.', or the whole text without one |
| Net.SubnetOfHost | app/src/main/java/com/alfadjri28/e_witank/CameraScanner.kt:33-40 | the subnet of "subnet.i" is subnet |
| Net.HostInjective | app/src/main/java/com/alfadjri28/e_witank/CameraScanner.kt:40 | different host numbers give different hosts |
| Net.CameraNotController | app/src/main/java/com/alfadjri28/e_witank/CameraScanner.kt:52 | no answer is both a camera and a controller, and a failed probe is neither |
| Net.OrElse | app/src/main/java/com/alfadjri28/e_witank/CameraScanner.kt:53 | the value when present, the fallback otherwise |
| Digits.NatToString | app/src/main/java/com/alfadjri28/e_witank/CameraScanner.kt:40 | a non-empty run of digits without a leading zero |
| Digits.DigitsValueOfNatToString | app/src/main/java/com/alfadjri28/e_witank/screen/distance/DistanceViewModel.kt:50 | reading a rendered number back gives the number |
| Digits.NatToStringInjective | app/src/main/java/com/alfadjri28/e_witank/CameraScanner.kt:40 | different numbers render differently |
| Scanner.FirstCamera | app/src/main/java/com/alfadjri28/e_witank/CameraScanner.kt:38-53 | the least host number from i on that is not the controller and answers "ok" as "CAM", or none when there is no such number |
| Scanner.FoundRecord | app/src/main/java/com/alfadjri28/e_witank/CameraScanner.kt:53-60 | model "RC", controller IP and id the scanner's, camera IP the host, camera id the answer's cam_id or else the scanner's |
| Scanner.VisitHost | app/src/main/java/com/alfadjri28/e_witank/CameraScanner.kt:39-71 | the controller's own host changes nothing; once a camera is found, later hosts change neither it, the probes nor the store; a host becomes the found one only if it is not the controller and answers as a camera |
| Scanner.SweepFrom | app/src/main/java/com/alfadjri28/e_witank/CameraScanner.kt:38-77 | the sweep's step count never goes back, and a found camera stays found |
| Scanner.ControllerNeverProbed | app/src/main/java/com/alfadjri28/e_witank/CameraScanner.kt:41 | the controller's own address is never probed |
| Scanner.ProbesStopAtCamera | app/src/main/java/com/alfadjri28/e_witank/CameraScanner.kt:45 | once a camera is found no further request is sent: the probed hosts end with the camera |
| Scanner.ProbesAllWithoutCamera | app/src/main/java/com/alfadjri28/e_witank/CameraScanner.kt:38-68 | without a camera, failures included, every non-controller host is probed |
| Scanner.NonOwnCountValue | app/src/main/java/com/alfadjri28/e_witank/CameraScanner.kt:38-41 | 253 hosts count when the controller is in the range, 254 otherwise |
| Scanner.SweepAfterFound | app/src/main/java/com/alfadjri28/e_witank/CameraScanner.kt:45-69 | after the camera is found, the remaining jobs only advance the progress |
| Scanner.SweepOutcome | app/src/main/java/com/alfadjri28/e_witank/CameraScanner.kt:52-81 | the sweep reports the first camera, or not-found when there is none, and writes the store only for the camera it reports |
| Scanner.SweepSteps | app/src/main/java/com/alfadjri28/e_witank/CameraScanner.kt:69 | the progress counts every non-controller host, found or not |
| Scanner.SweepProbed | app/src/main/java/com/alfadjri28/e_witank/CameraScanner.kt:38-53 | the sweep probes exactly the non-controller hosts up to the first camera, in order |
| Scanner.CameraScanner.constructor | app/src/main/java/com/alfadjri28/e_witank/CameraScanner.kt:21-30 | progress 0, the waiting text, nothing probed |
| Scanner.CameraScanner.Job | app/src/main/java/com/alfadjri28/e_witank/CameraScanner.kt:39-71 | one host's job: skip the controller, only count once found, else probe and on a camera write the record |
| Scanner.CameraScanner.RunJobs | app/src/main/java/com/alfadjri28/e_witank/CameraScanner.kt:38-77 | the jobs of hosts 1 to 254, in order |
| Scanner.CameraScanner.Scan | app/src/main/java/com/alfadjri28/e_witank/CameraScanner.kt:32-83 | reports the first camera host or none, probes exactly the hosts up to it, counts every non-controller host, and writes the record only on a find |
| Storage.IndexOfFirst | app/src/main/java/com/alfadjri28/e_witank/model/LocalStorageControllerRC.kt:27 | the first position whose record has the key, or -1 when none has |
| Storage.Upsert | app/src/main/java/com/alfadjri28/e_witank/model/LocalStorageControllerRC.kt:25-30 | the saved record is in the result, and every other record was already in the list |
| Storage.ReplaceByCam | app/src/main/java/com/alfadjri28/e_witank/model/LocalStorageControllerRC.kt:32-39 | the length is kept and only the new record is new; with no record of that camera id nothing changes, otherwise the new record is in the list |
| Storage.StoredAfterUpdate | app/src/main/java/com/alfadjri28/e_witank/model/LocalStorageControllerRC.kt:32-39 | nothing stored stays nothing stored; a change keeps the length and puts the new record in the list |
| Storage.CamIPOf | app/src/main/java/com/alfadjri28/e_witank/model/LocalStorageControllerRC.kt:41-44 | an answer is the camera IP of a record with that camera id, and no such record gives null |
| Storage.DeleteByIp | app/src/main/java/com/alfadjri28/e_witank/model/LocalStorageControllerRC.kt:62-66 | keeps exactly the records with another controller IP |
| Storage.FirstIndexUnique | app/src/main/java/com/alfadjri28/e_witank/model/LocalStorageControllerRC.kt:27 | a position holding a match with none before it is the answer |
| Storage.UpsertPlacesRecord | app/src/main/java/com/alfadjri28/e_witank/model/LocalStorageControllerRC.kt:25-30 | after a save the record is in the list; when its IP is already listed, only the first record with that IP is replaced and every other record stays where it was, and otherwise the record is appended |
| Storage.UpsertIdempotent | app/src/main/java/com/alfadjri28/e_witank/model/LocalStorageControllerRC.kt:25-30 | saving the same record twice is saving it once |
| Storage.DeleteAfterUpsert | app/src/main/java/com/alfadjri28/e_witank/model/LocalStorageControllerRC.kt:25-66 | deleting the IP just saved leaves what deleting it before the save would have |
| Storage.DeleteAppendOther | app/src/main/java/com/alfadjri28/e_witank/model/LocalStorageControllerRC.kt:64 | the delete filter distributes over concatenation, so it keeps order |
| Storage.DeleteUpdateSameIp | app/src/main/java/com/alfadjri28/e_witank/model/LocalStorageControllerRC.kt:62-66 | overwriting a record with one of the same IP does not change what deleting that IP leaves |
| Storage.DeleteAbsentIsIdentity | app/src/main/java/com/alfadjri28/e_witank/model/LocalStorageControllerRC.kt:62-66 | deleting an IP no record has changes nothing |
| Storage.LookupAfterReplace | app/src/main/java/com/alfadjri28/e_witank/model/LocalStorageControllerRC.kt:32-44 | after a camera update keeping the camera id the lookup answers the new camera IP; without a match the list is unchanged and the lookup answers none |
| Storage.LocalStorageControllerRC.constructor | app/src/main/java/com/alfadjri28/e_witank/model/LocalStorageControllerRC.kt:18-23 | the store holds what the preferences held |
| Storage.LocalStorageControllerRC.GetController | app/src/main/java/com/alfadjri28/e_witank/model/LocalStorageControllerRC.kt:47-51 | the stored list, empty when nothing is stored |
| Storage.LocalStorageControllerRC.SaveController | app/src/main/java/com/alfadjri28/e_witank/model/LocalStorageControllerRC.kt:25-30 | stores the upserted list |
| Storage.LocalStorageControllerRC.UpdateController | app/src/main/java/com/alfadjri28/e_witank/model/LocalStorageControllerRC.kt:32-39 | replaces the first record of that camera id and writes; with no match writes nothing |
| Storage.LocalStorageControllerRC.GetCamIPByCamID | app/src/main/java/com/alfadjri28/e_witank/model/LocalStorageControllerRC.kt:41-44 | the camera IP of the first record with that camera id, or none |
| Storage.LocalStorageControllerRC.ClearAll | app/src/main/java/com/alfadjri28/e_witank/model/LocalStorageControllerRC.kt:53-56 | nothing stored, so the list reads empty |
| Storage.LocalStorageControllerRC.DeleteControllerByIP | app/src/main/java/com/alfadjri28/e_witank/model/LocalStorageControllerRC.kt:62-66 | always writes the filtered list |
| Camera.ActiveCamIp | app/src/main/java/com/alfadjri28/e_witank/model/CameraView.kt:54-56 | the found camera when there is one, else the candidate |
| Camera.OnResult | app/src/main/java/com/alfadjri28/e_witank/model/CameraView.kt:33-50 | once a first camera is known, or when the result is null, nothing changes; otherwise the host becomes the found camera, the candidate is cleared and scanning stops |
| Camera.FirstReported | app/src/main/java/com/alfadjri28/e_witank/model/CameraView.kt:43-49 | the first host reported in a run of callbacks, none exactly when no host was reported |
| Camera.NotFoundChangesNothing | app/src/main/java/com/alfadjri28/e_witank/model/CameraView.kt:34 | a not-found callback changes nothing, so the state still reads "scanning" |
| Camera.FoundCallback | app/src/main/java/com/alfadjri28/e_witank/model/CameraView.kt:37-49 | a found callback without a camera makes the host the camera, clears the candidate and ends scanning; with a camera it changes nothing |
| Camera.FirstReportedSticks | app/src/main/java/com/alfadjri28/e_witank/model/CameraView.kt:33-50 | over any run of callbacks the camera is the first host reported and is never overwritten |
| Camera.SweepResult | app/src/main/java/com/alfadjri28/e_witank/CameraScanner.kt:52-64 | the reported host is not the controller and answered as a camera |
| Camera.NotFoundBlocksRescan | app/src/main/java/com/alfadjri28/e_witank/model/CameraView.kt:27-34 | a sweep with no camera leaves the state scanning, so every later startScan is a no-op |
| Camera.CameraViewModel.constructor | app/src/main/java/com/alfadjri28/e_witank/model/CameraView.kt:15-19 | no camera, no candidate, not scanning, the waiting text |
| Camera.CameraViewModel.OnScanResult | app/src/main/java/com/alfadjri28/e_witank/model/CameraView.kt:33-50 | the scan callback on the fields |
| Camera.CameraViewModel.StartScan | app/src/main/java/com/alfadjri28/e_witank/model/CameraView.kt:21-52 | no-op while scanning or once a camera is known; otherwise scanning, the sweep, then its result through the callback, and the store holds the sweep's found record written over the first record of the camera id, or is unchanged when no camera answers |
| Camera.CameraViewModel.GetActiveCamIp | app/src/main/java/com/alfadjri28/e_witank/model/CameraView.kt:54-56 | answers the found camera, else the candidate |
| DeviceList.DoneText | app/src/main/java/com/alfadjri28/e_witank/DeviceListScreen.kt:223-225 | the closing text is the "none found" text exactly when no device was listed |
| DeviceList.DeviceOf | app/src/main/java/com/alfadjri28/e_witank/DeviceListScreen.kt:200-208 | the entry has the host's address, model "RC", and the answer's ids or "N/A" |
| DeviceList.VisitDevice | app/src/main/java/com/alfadjri28/e_witank/DeviceListScreen.kt:185-219 | the device list keeps its prefix and gains at most one entry; the phone's own host changes nothing; an entry is added only for another host that answers as a controller |
| DeviceList.SweepFrom | app/src/main/java/com/alfadjri28/e_witank/DeviceListScreen.kt:184-220 | neither the device list nor the probed hosts ever get shorter |
| DeviceList.TenthMarkIsModulo | app/src/main/java/com/alfadjri28/e_witank/DeviceListScreen.kt:215 | the progress test is i % 10 == 0 |
| DeviceList.Matches | app/src/main/java/com/alfadjri28/e_witank/DeviceListScreen.kt:200-208 | every listed entry is an "RC" board at an address other than the phone's |
| DeviceList.Hosts | app/src/main/java/com/alfadjri28/e_witank/DeviceListScreen.kt:184-186 | the phone's own address is never among the probed hosts |
| DeviceList.SweepLists | app/src/main/java/com/alfadjri28/e_witank/DeviceListScreen.kt:184-220 | the loop appends exactly the matching boards, in host order |
| DeviceList.SweepProbes | app/src/main/java/com/alfadjri28/e_witank/DeviceListScreen.kt:184-220 | the loop probes every host but the phone's own, in ascending order, failures included |
| DeviceList.MatchesComplete | app/src/main/java/com/alfadjri28/e_witank/DeviceListScreen.kt:200-208 | every board answering "ok" as "RC" from another host is listed |
| DeviceList.MatchesSound | app/src/main/java/com/alfadjri28/e_witank/DeviceListScreen.kt:200-208 | every listed entry is such a board's entry |
| DeviceList.MatchesDistinct | app/src/main/java/com/alfadjri28/e_witank/DeviceListScreen.kt:184-208 | no address is listed twice |
| DeviceList.MatchesHostsAbove | app/src/main/java/com/alfadjri28/e_witank/DeviceListScreen.kt:184-208 | entries listed from number i on are of hosts numbered i or more |
| DeviceList.FinalProgress | app/src/main/java/com/alfadjri28/e_witank/DeviceListScreen.kt:186-219 | the bar ends at 250, or at 240 when the phone's own address is number 250 |
| DeviceList.ProgressFrom240 | app/src/main/java/com/alfadjri28/e_witank/DeviceListScreen.kt:186-219 | the same from number 240 on |
| DeviceList.ProgressTail | app/src/main/java/com/alfadjri28/e_witank/DeviceListScreen.kt:215-219 | from number 241 on only 250 moves the bar |
| DeviceList.DeviceListState.constructor | app/src/main/java/com/alfadjri28/e_witank/DeviceListScreen.kt:127-131 | no devices, not scanning, progress 0, the idle text, nothing selected |
| DeviceList.DeviceListState.VisitHost | app/src/main/java/com/alfadjri28/e_witank/DeviceListScreen.kt:185-219 | one pass of the loop body |
| DeviceList.DeviceListState.SweepHosts | app/src/main/java/com/alfadjri28/e_witank/DeviceListScreen.kt:184-220 | the whole host loop |
| DeviceList.DeviceListState.StartNetworkScan | app/src/main/java/com/alfadjri28/e_witank/DeviceListScreen.kt:151-229 | no-op while scanning; without an address the failure text, no probe and not scanning; otherwise exactly the matching boards in host order, every other host probed, the final bar, the closing text, and not scanning |
| LegacyScreen.AsGate | app/src/main/java/com/alfadjri28/e_witank/screen/CameraSearchScreen.kt:101-116 | the stream screen's flags as a gate of the main dispatcher, without a hard block |
| LegacyScreen.LegacySend | app/src/main/java/com/alfadjri28/e_witank/screen/CameraSearchScreen.kt:129-151 | at most one GET; none exactly when the lock, the block on exactly "maju" or the debounce drops it, and then the state is unchanged |
| LegacyScreen.LegacyStopBoth | app/src/main/java/com/alfadjri28/e_witank/screen/CameraSearchScreen.kt:153-156 | stopBoth sends one or two calls, always ending with the "b" stop, and leaves "b:stop" as the last key at time now |
| LegacyScreen.React | app/src/main/java/com/alfadjri28/e_witank/screen/CameraSearchScreen.kt:297-326 | only "stop" calls to the same ip; it sends something exactly when the state is DANGER and the gate is not already locked; slowMode is untouched |
| LegacyScreen.LegacyIsSoftBlockDispatcher | app/src/main/java/com/alfadjri28/e_witank/screen/CameraSearchScreen.kt:134-144 | the older dispatcher fires and records exactly what the main one does with its soft block set and its hard block down |
| LegacyScreen.LegacyStopBothIsStopBoth | app/src/main/java/com/alfadjri28/e_witank/screen/CameraSearchScreen.kt:153-156 | the older stopBoth is the main one on the same gate |
| LegacyScreen.ReactFlags | app/src/main/java/com/alfadjri28/e_witank/screen/CameraSearchScreen.kt:297-326 | after the effect the block and the lock are each up exactly under DANGER |
| LegacyScreen.DangerStopsBothTracks | app/src/main/java/com/alfadjri28/e_witank/screen/CameraSearchScreen.kt:304-310 | DANGER on an unlocked screen always stops "b", and stops "a" before it exactly when "a:stop" is not debounced |
| LegacyScreen.RepeatedDangerIsSilent | app/src/main/java/com/alfadjri28/e_witank/screen/CameraSearchScreen.kt:304-310 | DANGER leaves the screen locked, and a further DANGER sends nothing |
| LegacyScreen.LockAfterReact | app/src/main/java/com/alfadjri28/e_witank/screen/CameraSearchScreen.kt:299-323 | after DANGER every command but "stop" is dropped; after WARNING or SAFE neither flag is up and only the debounce drops anything |
| LegacyScreen.ControlViewModel.constructor | app/src/main/java/com/alfadjri28/e_witank/screen/CameraSearchScreen.kt:101-116 | no flag up, empty last key at time 0, dev mode off |
| LegacyScreen.ControlViewModel.SendCommandSmooth | app/src/main/java/com/alfadjri28/e_witank/screen/CameraSearchScreen.kt:129-151 | the fields and the log of GETs follow LegacySend |
| LegacyScreen.ControlViewModel.StopBoth | app/src/main/java/com/alfadjri28/e_witank/screen/CameraSearchScreen.kt:153-156 | "a" stop then "b" stop through the gate |
| LegacyScreen.ControlViewModel.ToggleDevMode | app/src/main/java/com/alfadjri28/e_witank/screen/CameraSearchScreen.kt:174-176 | flips dev mode and changes nothing else |
| LegacyScreen.OnSafetyState | app/src/main/java/com/alfadjri28/e_witank/screen/CameraSearchScreen.kt:297-326 | the effect on the view model's fields and log follows React |
| BoundingBoxes.Started | app/src/main/java/com/alfadjri28/e_witank/dataset/bbox/BoundingBoxViewModel.kt:18-21 | no boxes, capturing, same label |
| BoundingBoxes.Finished | app/src/main/java/com/alfadjri28/e_witank/dataset/bbox/BoundingBoxViewModel.kt:23-25 | not capturing, the boxes and label unchanged |
| BoundingBoxes.WithBox | app/src/main/java/com/alfadjri28/e_witank/dataset/bbox/BoundingBoxViewModel.kt:27-29 | the box appended at the end, mode and label unchanged |
| BoundingBoxes.AddBoxesAppends | app/src/main/java/com/alfadjri28/e_witank/dataset/bbox/BoundingBoxViewModel.kt:27-29 | adding boxes one by one appends them in drawing order |
| BoundingBoxes.CaptureSession | app/src/main/java/com/alfadjri28/e_witank/dataset/bbox/BoundingBoxViewModel.kt:18-29 | start, draw, finish ends with exactly the boxes drawn, whatever was there before |
| BoundingBoxes.BoundingBoxViewModel.constructor | app/src/main/java/com/alfadjri28/e_witank/dataset/bbox/BoundingBoxViewModel.kt:10-16 | no boxes, label "manusia", not capturing |
| BoundingBoxes.BoundingBoxViewModel.StartCapture | app/src/main/java/com/alfadjri28/e_witank/dataset/bbox/BoundingBoxViewModel.kt:18-21 | the fields follow Started |
| BoundingBoxes.BoundingBoxViewModel.FinishCapture | app/src/main/java/com/alfadjri28/e_witank/dataset/bbox/BoundingBoxViewModel.kt:23-25 | the fields follow Finished |
| BoundingBoxes.BoundingBoxViewModel.AddBox | app/src/main/java/com/alfadjri28/e_witank/dataset/bbox/BoundingBoxViewModel.kt:27-29 | the fields follow WithBox, in capture mode or not |

## Left out

- HTTP: the GETs, form posts and reply bodies are abstract. Drive commands
  are a ghost log of GETs. A probe is an oracle answering a decoded reply
  or a failure. A distance read is a reply body or a failure. Timeouts are
  failures.
- Coroutines, jobs, cancellation and the 20-permit semaphore. All sweeps
  and loops run sequentially. A polling job is only the host it was
  started for. `rthJob` cancellation is not modelled.
- Camera.CameraViewModel.StartScan: the sweep runs to its end before its
  single result is applied. The concurrent scanner can deliver several
  found results, and the first arrives while other jobs still run. Neither
  is modelled.
- Clocks: each `System.currentTimeMillis()` reading is a `now` parameter.
  Some members take one `now` where the source reads the clock more than
  once:
  - Dispatcher.StopBothSend and LegacyScreen.LegacyStopBoth use one reading
    for both of their commands.
  - Recorder.Update uses one reading for the committed segment's duration
    (`RthRecorder.kt:129`, inside `closeMotion`) and for the new motion's
    start (`RthRecorder.kt:121`).
  - TankControls.TankStep uses one reading for the recorder and for the
    dispatcher's debounce (`ControlViewModel.kt:79`).
- The executor's `delay` advances a simulated clock.
- Executor.RthExecutor.RecoverFromDanger and the executor members that use
  it require the sensor to stop reporting 10 cm or less after some instant.
  The source's recovery loop never ends if the obstacle stays.
- Float progress (`progress += 1f/254f`, `i / 254f`) is an integer count of
  hosts or a host number.
- Gson and SharedPreferences: the store holds the list itself, or nothing.
- The hotspot address lookup through `NetworkInterface` is the input
  `ipAddress`. The socket and HTTP clients and their `close` are not
  modelled.
- Logging: `Log.d`, the recorder's debug log and `getDebugLog` are not
  modelled.
- `autoStop`, `devPress`, `devRelease`, `lastDevInfo` and `onCleared` are not
  modelled: they are timers and UI diagnostics.
- `storage.saveCamIP` and `getCamIPFast` are not part of this model. The
  storage class shown has no such members.
- The stream screen's haptic feedback, its `lastState`, and the composable
  screens around the view models are not modelled.
- `slowMode` is a field of both dispatchers, and the 180 ms debounce window
  is modelled. No code shown ever sets `slowMode`
  (`ControlViewModel.kt:28`, `CameraSearchScreen.kt:105`), so in the app
  that window is never used.
- BoundingBoxes.BoundingBoxViewModel.AddBox: the private setter of `boxes`
  is not enforced. The model's fields are public, and the class's own
  methods change them only as stated.
- RthMotionCommand.kt is not part of this model. Its two fields are taken
  from how the recorder and executor use them.
- `isDanger()` has no definition in the code shown. It is taken to be the
  proximity poller's state being DANGER.
- Integer widths: durations and clock readings are unbounded integers, so
  Kotlin `Long` wrap-around is not modelled. Distances are checked against
  `Int.MAX_VALUE`, as `toInt` does.
