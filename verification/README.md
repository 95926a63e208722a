# A model of the printer proxy's concurrent state machines

The proxy stands between one or more 3D printers and many clients. Its packages are small state machines that
share one printer: a camera connection with many viewers, workers that stop or pause prints, a store of merged
reports, the printer connection itself, a bounded activity log, a notification batcher and a topic router. This
project models those machines in Dafny and proves what each of them keeps over every run and every interleaving.
`dafny verify dfyconfig.toml` checks all of it.

## How it is built

Where the source updates fields under a mutex, a class has those fields and one method for each critical section
(`CaptureObject`, `ManagerObject`, `StoreObject`, `PlateObject`, `DetectionObject`, `LinkObject`, `ActivityObject`,
`NotificationObject`). Each method is proved equal to a function on values (`CaptureState`, `PlateState`, ...).
The machines over all interleavings (`CaptureProtocol`, `ManagerProtocol`, `StoreProtocol`, `DetectionProtocol`,
`LinkProtocol` and the waiters of `ActivityTheorems`) are built from those same functions: a step is one critical
section, one channel operation, or one decision of the environment, and any number of goroutines may be present. The
theorems are about every state of every run, and many of them tell the state from the steps before it alone: which
report, answer, callback or toggle came, and when.

Network results, camera frames, provider verdicts, timers, clocks and callers are inputs and may be anything,
except where a row below says otherwise. Channels, contexts and loops are numbers; closing a channel adds its
number to a set, and closing it again is recorded as a panic.

| files | what they hold |
|---|---|
| Capture, CaptureProtocol, CaptureInvariant, CaptureTheorems, CaptureLiveness, CaptureFrames, Manager, ManagerLiveness | the shared camera capture: reference counts, idle timers with generations, retirement handshake, close-and-replace notification, the frames handed out, terminal shutdown, and the registry above it |
| Backoff | the 64-bit reconnect delay against the mathematical one |
| Doc, Events, Store, StoreProtocol | merged report documents, the event rules and the ordered dispatch under two locks |
| PlateCheck, PlateTheorems, PlateChecks, PlateOutcomes | the plate-check worker: who may be stopped or paused and how often, which checks are made and act, and how their commands end |
| Detection, DetectionTheorems, DetectionDecisions, DetectionChecks, PauseOutcomes | the AI-detection worker: toggles, why and when it pauses, lights and inspects, the one pause and its outcome, failure accounting |
| Link, LinkHistory | the printer connection's online status and epochs |
| Activity, ActivityTheorems | the ring of fifty entries as a window on an unbounded log |
| Notification | the two-second batcher |
| CameraWire, RawSession | the camera's wire format and the raw frame session |
| Topics, Routing | topic levels, configuration checks and the alias table |

## Where the code and its own words differ

The model follows the code in each case. Each point names a reachable state, a run or an input where the words fail,
and the condition under which they hold.

- `release` says at most one idle timer is pending (internal/camera/capture.go:151-154). Two callers that both waited
  for a retirement can each arm one: `CaptureTheorems.TwoTimersCanBePending`. The sentence stays true across a step
  exactly unless that step arms over a timer still pending (`CaptureTheorems.TimerForgottenIff`). What the timers
  are for still holds: `CaptureTheorems.RetiresOnlyUnused`.
- `acquire` says it joins the live loop (internal/camera/capture.go:105-107). A loop whose camera address does not
  resolve ends at once and keeps its place, so consumers can share a capture without a loop:
  `CaptureTheorems.ConsumersCanLackLoop`. They have one exactly unless that happened to the newest loop
  (`CaptureTheorems.ConsumersHaveLoopIff`).
- `accept` promises to discard another print's result (internal/detection/worker.go:389). Its check and its pause
  command are both under `commandMu`, which reports do not take, so a pause decided for one print can be sent while
  the next one is printing: `DetectionTheorems.PauseCanReachNextPrint`. It reaches its own print exactly when no
  session reset comes between (`DetectionTheorems.PauseReachesItsPrintIff`).
- One pause can be reported both as confirmed and as failed, since the record of a failed command stands outside the
  test that guards the status beside it (internal/detection/worker.go:451-459): `PauseOutcomes.PauseCanGetTwoOutcomes`.
  A pause has at most one outcome exactly when its command is not recorded as failed after a report settled it
  (`PauseOutcomes.OneOutcomeIff`), that is, within its session, when that very test holds
  (`PauseOutcomes.FailureIsOnlyOutcomeIff`).
- A failure that rejects the request says that checks stop and "resume with the next print"
  (internal/detection/worker.go:330-346). What stops them is the reason shown, and a report that leaves a pending pause
  unconfirmed replaces it, so inspections can begin again in the same session:
  `DetectionChecks.RejectionCanBeLifted`. They stay stopped exactly until such a report
  (`DetectionChecks.RejectionHoldsIff`).
- The documentation promises one first-layer check per job and no second pause. A layer count that falls back and
  rises again completes a first layer twice, and the reports 0, 2, 1, 2 can bring two pauses:
  `PlateTheorems.TwoPausesInOnePrint`. A print is sure of at most one exactly when its reports complete at most one
  first layer (`PlateTheorems.OnePauseIff`).
- The router promises each printer's topic. The configuration check accepts a serial with `/`, and no topic commands
  such a printer: `Routing.SeveralLevelsAreNotCommanded`. `Routing.CommandsIff` gives the exact condition.
- An aliased printer's serial is to be hidden. The configuration check accepts the serial `+`, and with an alias
  `device/+/report` can still be subscribed to: `Routing.WildcardSerialIsNotHidden`. It is hidden exactly where it does
  not read as a wildcard (`Routing.SerialIsHiddenIff`).
- A client that polls the activity log is to see every event. It misses one when fifty-one are unread:
  `ActivityTheorems.PollCanMiss`. It gets all of them exactly when at most fifty are unread at each read
  (`ActivityTheorems.ClientGetsEverythingIff`).
- A field matches a value in "the shape this proxy itself sends" (internal/camera/manager.go:194-196). The payload
  made from a pair of credentials matches that pair exactly when both fit their 32-byte fields
  (`CameraWire.OwnCredentialsAdmittedIff`); a longer one is cut off and never matches.

## Model

| member | source | states |
|---|---|---|
| CaptureObject.Capture.Admit | internal/camera/capture.go:122-141 | the part of acquire repeated after each retirement wait: refuse, block on the retirement, join, or start a loop |
| CaptureObject.Capture.Acquire | internal/camera/capture.go:108-141 | acquire's first section, with the idle timer it stops |
| CaptureObject.Capture.Release | internal/camera/capture.go:145-160 | release never counts below zero and arms a timer of a new generation when it was the last interest in a running capture |
| CaptureObject.Capture.Retire | internal/camera/capture.go:167-178 | an idle callback gives up the loop only for the newest generation, unused and open |
| CaptureObject.Capture.Retired | internal/camera/capture.go:179-187 | the handshake's second section and the channel it must close |
| CaptureObject.Capture.Close | internal/camera/capture.go:284-301 | close acts once and says whether it must cancel, only join, or do nothing more |
| CaptureObject.Capture.Publish | internal/camera/capture.go:523-542 | a frame gets the next sequence number and replaces the notification channel, unless closed |
| CaptureObject.Capture.LookAt | internal/camera/capture.go:205-225 | what wait and snapshot see under the lock: closed, or the newest frame with its capture time and the current channel |
| CaptureObject.Capture.BackoffDuration | internal/camera/capture.go:545-555 | the delay lies in [d, 1.2 d) for the ideal d = min(500 ms * 2^n, 5 s), for every n including those where the shift wraps; the attempt count grows by one |
| CaptureObject.Capture.ResetBackoff | internal/camera/capture.go:558-562 | the attempt count starts again |
| Backoff.WrappedIsMultiple | internal/camera/capture.go:545-551 | from 35 doublings on the wrapped 64-bit delay is a multiple of 2^43 |
| Backoff.GuardedIsIdeal | internal/camera/capture.go:545-551 | for every attempt count the guarded 64-bit shift equals the capped mathematical doubling |
| Backoff.GuardedIsMonotone | internal/camera/capture.go:29-31 | without a reset, delays never shrink and stay between the initial and the maximal delay |
| CaptureInvariant.StepKeeps | internal/camera/capture.go:108-307 | every step of every goroutine keeps the capture's invariant |
| CaptureInvariant.RunKeeps | internal/camera/capture.go:108-307 | the invariant (loops, retirement, channels, counts, timers, shutdown) holds in every state of every run |
| CaptureTheorems.AtMostOneLoop | internal/camera/capture.go:118-140 | at most one capture loop is live; while open, the count is the number of holders and a count above zero means a cancel function is held |
| CaptureTheorems.LoopStartsAlone | internal/camera/capture.go:128-140 | a loop starts only on an open capture and after every earlier loop has closed its done channel |
| CaptureTheorems.ConsumersHaveLoopIff | internal/camera/capture.go:105-140 | an open capture with consumers has a live loop exactly unless the camera's address failed to resolve for its newest loop |
| CaptureTheorems.ConsumersCanLackLoop | internal/camera/capture.go:311-323 | a reachable open state with two consumers and no live loop |
| CaptureTheorems.NoLostWakeup | internal/camera/capture.go:202-278 | a blocked waiter's channel is closed, or owned by exactly one pending closer, or is the current one and the waiter has seen the newest frame; no channel is closed twice |
| CaptureTheorems.RetiresOnlyUnused | internal/camera/capture.go:145-173 | a timer callback retires the loop only if no acquire was counted since the release that armed its generation, whatever other timers are pending |
| CaptureTheorems.ClosedForGood | internal/camera/capture.go:284-307 | after the effective close has returned no loop is live and none ever starts, whoever still calls in |
| CaptureTheorems.TwoTimersCanBePending | internal/camera/capture.go:145-160 | a reachable open state with two pending timers |
| CaptureTheorems.TimerForgottenIff | internal/camera/capture.go:108-160 | from a state where the only pending timer is the capture's own, a step breaks that exactly when it arms over a timer still pending |
| CaptureTheorems.TimerIsStopped | internal/camera/capture.go:108-296 | entering an open capture and closing it stop its own timer, so none is left pending where none was forgotten |
| CaptureFrames.FramesNumbered | internal/camera/capture.go:520-542 | in every run frames are numbered by the publications on an open capture, and the newest keeps its capture time |
| CaptureFrames.SnapshotServesIff | internal/camera/capture.go:202-248 | in every run a snapshot that looks takes the newest frame exactly when no close has begun and that frame was captured at most five seconds before; else it waits on the current channel, or leaves with nothing when closed or out of time |
| CaptureFrames.WaitServesIff | internal/camera/capture.go:251-278 | a wait that looks takes the newest frame exactly when no close has begun and it is newer than the one known |
| CaptureFrames.BlockedWaiterIsServed | internal/camera/capture.go:202-278 | from every state of every run, once a frame that serves a blocked caller was published, or a close has begun, at most three steps bring it out with that frame, or with nothing |
| CaptureFrames.AdmittedIff | internal/camera/capture.go:108-141 | a caller is counted exactly when no close has begun and no goroutine is retiring the loop; a close turns it away at once, a retirement makes it wait |
| CaptureFrames.LastLeaverArmsIff | internal/camera/capture.go:145-160 | a leaving caller arms a timer of a new generation exactly when it leaves nobody on an open capture with a loop |
| CaptureLiveness.CancelledLoopEnds | internal/camera/capture.go:311-405 | each action of a cancelled loop brings it nearer to its end, whatever the network answers |
| CaptureLiveness.RankFalls | internal/camera/capture.go:167-187 | each step of the goroutine or loop responsible for a retirement brings the close of its channel nearer |
| CaptureLiveness.RetireRankHolds | internal/camera/capture.go:167-187 | no other step moves it further away |
| CaptureLiveness.RetirementCanMove | internal/camera/capture.go:167-187 | while a retirement channel is open, someone responsible for it has an enabled step |
| CaptureLiveness.BlockedCallerIsReleased | internal/camera/capture.go:118-127 | from every state of every run, at most eight steps of the responsible ones close the channel a blocked acquire waits on |
| CaptureLiveness.CloseCanMove | internal/camera/capture.go:284-307 | a pending close always has a responsible enabled step |
| CaptureLiveness.CloseRankFalls | internal/camera/capture.go:284-307 | every responsible step brings its return nearer |
| CaptureLiveness.CloseRankHolds | internal/camera/capture.go:284-307 | no other step moves it further away or ends it |
| CaptureLiveness.CloseReturns | internal/camera/capture.go:284-307 | from every state of every run a pending close can return within seven steps |
| ManagerObject.Manager.Get | internal/camera/manager.go:126-144 | a closed registry gives nothing; an open one gives the printer's one capture, created on first use |
| ManagerObject.Manager.BeginClose | internal/camera/manager.go:342-352 | only the first close owns the shutdown, of exactly the captures there are |
| ManagerProtocol.ActionKeeps | internal/camera/manager.go:126-144 | every registry action keeps every capture's invariant and its place in the shutdown |
| ManagerProtocol.ClosedManagerStays | internal/camera/manager.go:342-357 | after Close has returned no capture is created and no loop started in any later state |
| ManagerProtocol.ClosedManagerIsQuiet | internal/camera/manager.go:316-357 | after Close has returned no capture has a live loop, even for callers that had fetched theirs before |
| ManagerLiveness.RunIsHealthy | internal/camera/manager.go:126-357 | in every state of every run of the registry every capture keeps its invariant and its place in the shutdown, and what is still to be closed is among the captures |
| ManagerLiveness.CloseCanReturn | internal/camera/manager.go:342-357 | from every state of every run a shutdown under way can return within ten actions for each capture still to close, nine for the one being closed, and one more |
| Doc.MergeSelf | internal/printer/doc.go:14-33 | merging a document into itself changes nothing |
| Doc.MergeTwice | internal/printer/doc.go:14-33 | applying a delta twice equals applying it once, at the top level and below |
| Doc.UntouchedIsAbsent | internal/printer/doc.go:14-33 | a path the delta does not touch has no value in it |
| Doc.MergeByPath | internal/printer/doc.go:14-33 | the merged value at every path: kept where the delta is silent, the delta's where it is plain, merged where objects meet, replaced under a full report |
| Doc.PrintFollowsPrint | internal/printer/store.go:67-70 | histories that agree on print stay in agreement under the same later reports |
| Doc.FullReportForgets | internal/printer/doc.go:19-25 | after a full report, print depends only on it and the later reports: any two histories with that suffix agree |
| Doc.LookAfterReport | internal/printer/doc.go:14-33 | what is read after a report: the given value of each field its print object has and the former value of each other, all replaced by a full report, all lost when print is no object |
| Doc.GcodeShows | internal/printer/doc.go:177 | the state read is the one whose name is the text of gcode_state, and nothing when that is no text |
| Doc.NumbersShow | internal/printer/doc.go:195-210 | layer, stage and error are the whole parts of the numbers under their keys, given as numbers or as texts, and nothing otherwise |
| Doc.LightsShow | internal/printer/doc.go:115-128 | the light is the mode of the first chamber light entry, and nothing when that mode or entry is missing |
| Events.InitialKind | internal/printer/events.go:58-73 | state_initial stands exactly at the first reported state, and alone |
| Events.PreparingKind | internal/printer/events.go:74-86 | print_preparing stands exactly at a change into PREPARE or SLICING |
| Events.StartedKind | internal/printer/events.go:74-86 | print_started stands exactly at a change into RUNNING that is no resume |
| Events.EndingKinds | internal/printer/events.go:89-101 | print_finished, print_failed and print_cancelled stand exactly at a change into FINISH or FAILED, told apart by that state and the two cancel codes in 32 bits |
| Events.PauseKinds | internal/printer/events.go:79-88 | print_paused stands exactly at a change into PAUSE or PAUSED out of neither, print_resumed exactly at one out of either into RUNNING |
| Events.StoppedKind | internal/printer/events.go:102-105 | print_stopped stands exactly at a change into IDLE out of RUNNING, PAUSE or PAUSED |
| Events.LightKinds | internal/printer/events.go:147-156 | the light kinds stand exactly when two shown lights differ and the new one is on or off |
| Events.ProblemKinds | internal/printer/events.go:108-146 | one printer_problem for each new problem that shares no code with an old one, and one problem_resolved the other way |
| Events.KindsInOrder | internal/printer/events.go:58-163 | kinds stand in a fixed order of five places and only problems repeat |
| Events.LinkKind | internal/printer/events.go:58-163 | reports never carry connection kinds |
| Events.FirstLayerKind | internal/printer/events.go:157-161 | first_layer_complete stands exactly when the layer passes from 1 or less, or none, to 2 or more in a print RUNNING or paused |
| Events.NewJobIff | internal/printer/events.go:42-55 | a job begins exactly at a preparing or started transition out of a state that had not announced it, never at the first state |
| EventChain.ChainExtends | internal/printer/store.go:54-112 | an event on top of the last document continues the chain from the empty document |
| StoreState.ChangeUpdates | internal/printer/store.go:54-112 | a report or a change of connectivity makes an event that follows on the entry it changes and leaves every other entry alone |
| StoreState.UpdateKeepsEntries | internal/printer/store.go:54-112 | dispatching such an event keeps every printer's entry the end of its own chain |
| StoreObject.Store.Apply | internal/printer/store.go:54-87 | bad payloads and unknown serials change nothing; a report is merged and stamped, its transitions are recorded and one event with them is dispatched |
| StoreObject.Store.SetOnline | internal/printer/store.go:90-112 | only a change of connectivity is stored, recorded and dispatched, leaving the document alone |
| StoreObject.Store.Get | internal/printer/store.go:140-145 | the stored document and connectivity, or neither for an unknown serial |
| StoreProtocol.StepKeepsStore | internal/printer/store.go:54-112 | every step of concurrent reports and connectivity changes keeps entries at the end of what is or is about to be dispatched |
| StoreProtocol.SubscribersSeeChains | internal/printer/store.go:54-112 | however calls interleave, each printer's events reach subscribers as one chain from the empty document; whenever eventMu is free the entry is its end and the activity log holds exactly the transitions dispatched, in order |
| StoreProtocol.StoreIsHistory | internal/printer/store.go:54-112 | however calls interleave, a printer's document is the merge of all its reports, its connectivity the last one set, its time the last report's, and each report and each change of connectivity makes exactly one event |
| PlateObject.PlateWorker.Check | internal/platecheck/service.go:292-364 | one startup check: when it acts at all, when it lights, and when it latches and sends a stop |
| PlateObject.PlateWorker.CheckLayer | internal/platecheck/layer.go:34-136 | one first-layer check: guards, the armed retry of a limited view, and the pause |
| PlateObject.PlateWorker.Resolve | internal/platecheck/service.go:392-434 | how a report settles or repeats a pending stop and settles a pending pause |
| PlateObject.PlateWorker.Prepare | internal/platecheck/service.go:209-235 | resets at a new print, latches at the first state, homing stages |
| PlateObject.PlateWorker.StartupPasses | internal/platecheck/service.go:236-250 | when the startup pass and the homing pass are due |
| PlateObject.PlateWorker.LayerPasses | internal/platecheck/service.go:251-264 | when the retry and the first-layer check are due |
| PlateObject.PlateWorker.Handle | internal/platecheck/service.go:198-265 | the order of these for one event, and that connection events are ignored |
| PlateTheorems.StopsIff | internal/platecheck/service.go:270-364 | a check sends a stop exactly when the printer is online with a print that has not put down a layer, both before the picture and after the verdict, and the verdict says so in time |
| PlateTheorems.PausesIff | internal/platecheck/layer.go:18-136 | a first-layer check sends a pause exactly when the print is running online both before and after, a retry only at layer 2, and the verdict says so in time |
| PlateChecks.CheckIs | internal/platecheck/service.go:292-364 | a startup check lights exactly a dark print at its start, and the stop it sends remembers the layer and the PREPARE state shown when it was sent |
| PlateChecks.CheckLayerIs | internal/platecheck/layer.go:34-136 | the same for a first-layer check, with the retry it arms: fifteen seconds after no pause from a limited view of layer 2 |
| PlateChecks.StoppedIff | internal/platecheck/service.go:198-247 | a print is stopped by a check if and only if the answers to its startup check, made at its first report, call for it, or its homing check, due at the first report at layer 0 once stage 13 or 14 was seen, does |
| PlateChecks.PausedIff | internal/platecheck/service.go:248-264 | the pauses of a print are exactly those called for at each first layer completed in a print no check has stopped, and at the one retry, made by the first report after its delay while the print stays at layer 2 |
| PlateOutcomes.StopFate | internal/platecheck/service.go:392-419 | the fate of a stop told from the reports after it: confirmed, left unconfirmed or repeated by the first report that says so, and the repetition in the same way |
| PlateOutcomes.PauseFateStep | internal/platecheck/layer.go:108-134 | what each report does to the pending pause, and that an accepted one remembers the layer shown when it was sent |
| PlateOutcomes.PauseIsSettled | internal/platecheck/service.go:420-434 | a pending pause waits for the first report of a paused printer, which confirms it, or of one printing above its layer, which leaves it unconfirmed |
| PlateTheorems.HandleKeepsStops | internal/platecheck/service.go:198-265 | every event keeps the account of stops, repetitions and outcomes |
| PlateTheorems.AtMostTwoStops | internal/platecheck/service.go:209-247 | in every run, between two new prints at most one stop by a check and at most one repetition of it; each stop is pending or has exactly one outcome |
| PlateTheorems.HandleKeepsLayers | internal/platecheck/layer.go:34-136 | every event keeps the account of first-layer pauses |
| PlateTheorems.PausesCovered | internal/platecheck/layer.go:34-136 | first-layer pauses plus an armed retry never exceed the completed first layers of the print |
| PlateTheorems.StopsOnlyObservedPrints | internal/platecheck/service.go:198-246 | with the store's events delivered without loss, each stop by a check follows a new print later than the latest first state and each repetition follows such a stop: a print under way at attach is never stopped |
| PlateTheorems.CompletionsNeedFallbacks | internal/printer/events.go:157-161 | over any stretch of reports a first layer completes at most once more than the layer falls back |
| PlateTheorems.SeenIsCompletions | internal/platecheck/service.go:260-264 | the worker sees exactly the first-layer completions of the current print |
| PlateTheorems.PausesPerPrint | internal/platecheck/layer.go:34-136 | pauses of a print plus an armed retry are at most its completed first layers, and those at most its layer fallbacks, plus one when it began at layer 1 or below |
| PlateTheorems.EveryCompletionCanPause | internal/platecheck/layer.go:34-136 | for any reports there are answers by which a print gets as many pauses as it completes first layers |
| PlateTheorems.OnePauseIff | internal/platecheck/service.go:260-264 | a print is sure of at most one first-layer pause, whatever is answered, if and only if its reports complete at most one first layer |
| PlateTheorems.TwoPausesInOnePrint | internal/platecheck/service.go:260-264 | reports of one print with layers 0, 2, 1 and 2, and answers by which it is paused twice |
| PlateTheorems.ChainIsLinked | internal/printer/store.go:54-112 | the store's chain provides what that theorem asks of the reports |
| DetectionObject.DetectionWorker.Apply | internal/detection/worker.go:71-110 | a report resets the session, lifts the per-print off when inactive, and settles a pending pause with the outcome it queues |
| DetectionObject.DetectionWorker.SetEnabled | internal/detection/engine.go:260-305 | which toggles are accepted, with what error the others are refused, and what they set |
| DetectionObject.DetectionWorker.Fail | internal/detection/worker.go:291-340 | what a failed check counts, schedules and switches, and which are ignored or suspend the account |
| DetectionObject.DetectionWorker.Accept | internal/detection/worker.go:390-445 | when an answer is discarded, when it recovers an interruption, when it decides the pause |
| DetectionObject.DetectionWorker.PauseFails | internal/detection/worker.go:451-459 | a pause that could not be sent changes the status only if it is still pending for the current print, and is recorded as unconfirmed in any case |
| DetectionObject.DetectionWorker.AutoLight | internal/detection/worker.go:469-480 | the light is decided once per session and only sent when not on |
| DetectionDecisions.PauseDecidedIff | internal/detection/worker.go:390-445 | in every run an answer decides a pause if and only if it suggests one, its print is still current, nothing is turned off, the latest report shows the printer online and RUNNING, and no pause was decided for that print before; the layer then shown is remembered |
| DetectionDecisions.SentPauseWasSuggested | internal/detection/worker.go:448-451 | each pause command sent for a print follows an answer made for that print that suggested it |
| DetectionDecisions.PauseFate | internal/detection/worker.go:86-109 | within its session a decided pause is settled by the first report of a printer that does not run, or of one printing above the layer shown at the decision, or by the note that its command failed |
| DetectionDecisions.OutcomeTold | internal/detection/worker.go:86-109 | the outcome a report queues is that of the pause it settles |
| DetectionDecisions.LightCommandedIff | internal/detection/worker.go:469-480 | the light is commanded exactly when the print inspected is current, online and RUNNING, nothing is off, the light is not shown on, and none was decided in the session since the last turn-on |
| DetectionChecks.InspectionBeginsIff | internal/detection/worker.go:203-232 | an inspection can begin exactly when none is under way, the account was not suspended when asked, nothing blocks it or turns it off, the printer is online and RUNNING, the provider has not rejected the request since, and the delay of the latest counted result is over |
| DetectionChecks.FailureRecords | internal/detection/worker.go:291-355 | which failures are counted, which reason they show, and that the backup server is taken exactly at the session's first counted failure that asks for it |
| DetectionChecks.RejectionHoldsIff | internal/detection/worker.go:305-331 | after a rejected request no inspection begins in the session exactly until a report leaves the pause unconfirmed |
| DetectionChecks.RejectionCanBeLifted | internal/detection/worker.go:86-103 | a run in which an inspection begins in the same session after a rejected request |
| DetectionChecks.SuspendedForGood | internal/detection/engine.go:216-226 | after a failure that ends the account its worker never begins an inspection again |
| DetectionChecks.SuspensionAllowsOneMore | internal/detection/worker.go:203-207 | once the account is suspended, by whichever printer, a worker begins at most one more inspection, for which it had asked before |
| DetectionChecks.TroubleSinceIs | internal/detection/worker.go:314-320 | an open interruption is dated by the counted failure that opened it |
| DetectionChecks.SessionBeginsIff | internal/detection/worker.go:115-125 | a report of the store begins a session exactly when it begins a job or first shows a printer printing, paused or preparing |
| DetectionChecks.ToggleIff | internal/detection/engine.go:260-305 | turning on is always accepted; turning off exactly when detection is available and the token is the number of the active print shown, or blank when none is; which error refuses it otherwise |
| DetectionChecks.StaleClientIsRefused | internal/detection/engine.go:272-280 | a token of one print does not turn off a later one |
| DetectionTheorems.StepKeepsToggle | internal/detection/worker.go:390-490 | every step keeps the toggles in line with what happened and every command allowed |
| DetectionTheorems.TurnedOffStaysQuiet | internal/detection/engine.go:260-305 | after a completed turn-off no pause or light is sent until turned on or, for the per-print off, a session reset or an inactive report, in every interleaving |
| DetectionTheorems.OnePausePerPrint | internal/detection/worker.go:432-445 | for each print counter at most one pause is attempted |
| DetectionTheorems.PauseSettlesOnce | internal/detection/worker.go:86-103 | the status of a pause, once confirmed or unconfirmed, stays so until the session resets |
| PauseOutcomes.OneOutcomeIff | internal/detection/worker.go:86-109 | a pause has at most two outcomes recorded, and at most one exactly when its command was not recorded as failed after a report had settled it |
| PauseOutcomes.FailureIsOnlyOutcomeIff | internal/detection/worker.go:451-459 | within its session the record of a failed command is the only outcome exactly when the pause is still pending |
| PauseOutcomes.PauseCanGetTwoOutcomes | internal/detection/worker.go:451-459 | a reachable state in which one pause is queued as confirmed by a report and then recorded as failed |
| DetectionTheorems.CounterBetween | internal/detection/worker.go:71-85 | the print counter never falls and moves exactly at session resets |
| DetectionTheorems.PauseReachesItsPrintIff | internal/detection/worker.go:390-466 | a decided pause is sent during its own print exactly when no session reset comes between |
| DetectionTheorems.PauseCanReachNextPrint | internal/detection/worker.go:390-466 | a run in which it is sent while the next print is running |
| InterruptionTheorems.FailureOpens | internal/detection/worker.go:318-324 | a failed check joins the open interruption and ends any row of successes |
| InterruptionTheorems.SuccessRecovers | internal/detection/worker.go:410-421 | an accepted answer changes the open interruption only as the third in a row, and then ends it |
| InterruptionTheorems.StepKeepsAccount | internal/detection/worker.go:291-445 | every step keeps the counters equal to the interruption read off the bare sequence of check results |
| InterruptionTheorems.InterruptionsAccounted | internal/detection/worker.go:291-355 | in every run: failures counts exactly the failed checks not yet followed by three successes in a row, troubleSince is set exactly then, ai_recovered stands exactly at each third success, the backup server stays until the session resets |
| LinkObject.Link.Connect | internal/printer/link.go:74-85 | a new connection ends the previous epoch and begins one, unless closed |
| LinkObject.Link.SetOnline | internal/printer/link.go:165-174 | online only for an epoch not cancelled on an open, unclosed link; says whether the status changed |
| LinkObject.Link.Lose | internal/printer/link.go:142-157 | a loss is ignored when the connection is open again or the link closed |
| LinkObject.Link.Close | internal/printer/link.go:188-194 | close is terminal and ends the current epoch |
| LinkTheorems.ShownAsNotified | internal/printer/link.go:181-185 | between status changes isOnline answers online exactly when the last notification was online, the socket is open and no close has begun; once a close is under way or has returned it never does |
| LinkTheorems.RunKeeps | internal/printer/link.go:74-197 | the invariants of lock holder, notifications, epochs and shutdown hold in every state of every run |
| LinkTheorems.NotificationsFollowStatus | internal/printer/link.go:165-178 | notifications alternate starting with online, and the last one is the status whenever transitions is free |
| LinkTheorems.OnlineOnlyForNewerEpochs | internal/printer/link.go:74-121 | each time the link turns online it is for the current epoch, newer than every time before and never cancelled earlier in the run |
| LinkTheorems.EndedEpochStaysOffline | internal/printer/link.go:80-162 | a connection, reconnect, loss or close that ends an epoch ends it for good: it stays cancelled and the link never turns online for it |
| LinkTheorems.CloseIsFinal | internal/printer/link.go:188-197 | once a close has returned the link is offline, the last notification was offline and none follows |
| LinkHistory.CancelledIff | internal/printer/link.go:74-197 | an epoch is cancelled exactly when a later connection, a reconnect, a real loss or a close came while it was current, or its own callback returned |
| LinkHistory.OnlineIff | internal/printer/link.go:142-178 | the link is online if and only if it was turned online for an epoch not ended by then, with the socket open and no close begun, and no later status change or real loss took that back |
| LinkHistory.SubscribedGoesOnline | internal/printer/link.go:89-109 | from every state of every run a granted subscription whose epoch nothing has ended leads within seven moves to an online link and an observer told so |
| LinkHistory.ReturnedHasEnded | internal/printer/link.go:86-121 | a connection callback that has returned has ended its epoch |
| ActivityObject.Ring.Push | internal/activity/activity.go:136-141 | the ring, overwritten in place, holds exactly the last fifty entries |
| ActivityObject.Ring.Snapshot | internal/activity/activity.go:81-92 | walking back from the write slot gives the entries above an ID, newest first |
| ActivityObject.Log.Record | internal/activity/activity.go:116-149 | a configured printer's entry gets the next ID, the wake-up channel is replaced and the observer is handed that entry; other serials change nothing |
| ActivityObject.Log.RecordedIs | internal/activity/activity.go:116-145 | so the log of all printers changes as recording one entry does |
| ActivityObject.Log.Recent | internal/activity/activity.go:183-194 | everything the ring still has, or nothing for an unknown serial |
| ActivityObject.Log.Look | internal/activity/activity.go:203-212 | what a waiter takes under the lock: newer entries and the channel in use |
| ActivityTheorems.NewestIsReversed | internal/activity/activity.go:81-92 | the snapshot is the reverse of the history above both the ring's start and the ID asked for |
| ActivityTheorems.RecentIsNewest | internal/activity/activity.go:183-194 | Recent is the newest min(n, 50) entries in reverse with strictly decreasing IDs |
| ActivityTheorems.RecordKeeps | internal/activity/activity.go:116-145 | recording keeps IDs strictly increasing and only ever appends |
| ActivityTheorems.AdvanceCursor | internal/mcpserver/tools.go:232-236 | the tool's loop returns the largest ID seen, at least the one asked with |
| ActivityTheorems.ClientGetsEverythingIff | internal/mcpserver/tools.go:219-239 | a client polling with the returned ID has every newer entry once and in order if and only if at most fifty were unread at each read |
| ActivityTheorems.PollCanMiss | internal/mcpserver/tools.go:219-239 | a client that asks for everything when fifty-one entries are unread misses one |
| ActivityTheorems.ArrivalsBoundUnread | internal/mcpserver/tools.go:219-239 | what is unread is at most what arrived since the previous read |
| ActivityTheorems.NeverTwice | internal/mcpserver/tools.go:219-239 | even when entries are missed, none is received twice or out of order |
| ActivityTheorems.NoMissedWakeup | internal/activity/activity.go:198-221 | a blocked waiter is enabled as soon as an entry newer than asked for exists |
| ActivityTheorems.ClosesOnce | internal/activity/activity.go:142-143 | each wake-up channel is closed at most once |
| NotificationObject.Service.NextWake | internal/notification/service.go:97-105 | the timer is set for the earliest deadline, and only while there is one |
| NotificationObject.Service.Arrive | internal/notification/service.go:110-118 | the first event of a batch fixes its deadline; a repeated event is not added |
| NotificationObject.Service.Tick | internal/notification/service.go:119-127 | exactly the due batches are delivered and removed, in whatever order the map is ranged over |
| NotificationObject.Service.Choose | internal/notification/service.go:148-157 | the summaries of a delivered batch |
| NotificationTheorems.BatcherIsWindows | internal/notification/service.go:89-130 | the two shared maps behave, for each printer, as one window at a time of that printer alone |
| NotificationTheorems.WindowsPartition | internal/notification/service.go:89-130 | windows and what is pending are exactly the arrivals in order: none lost, none in two |
| NotificationTheorems.DistinctIsSet | internal/notification/service.go:115-117 | a batch holds each value of its window once and nothing else |
| NotificationTheorems.DistinctInOrder | internal/notification/service.go:115-117 | in the order of first arrival |
| NotificationTheorems.BatchesAreSound | internal/notification/service.go:89-130 | both maps always have the same keys, with batches nonempty and free of repetition |
| NotificationTheorems.NotEarly | internal/notification/service.go:112-122 | no window ends before two seconds after its first event, however many follow |
| NotificationTheorems.DeliveriesConserve | internal/notification/service.go:89-130 | each delivery is the distinct events of one window, not before that window's fixed deadline, and all arrivals are in some window or pending |
| NotificationTheorems.TimerEmpties | internal/notification/service.go:119-127 | a timer at or past a deadline leaves nothing pending for that printer |
| NotificationTheorems.SummariesAre | internal/notification/service.go:148-157 | a delivery says exactly the distinct summaries of the events that count |
| NotificationTheorems.SummariesInOrder | internal/notification/service.go:148-157 | in the order of first arrival |
| NotificationTheorems.SilentIff | internal/notification/service.go:158-160 | it is silent exactly when it holds only pauses and the printer shows no problem |
| CameraWire.Reader.ReadFull | internal/camera/protocol.go:108-120 | reads exactly the bytes asked for, or consumes the rest and fails |
| CameraWire.Reader.ReadFrame | internal/camera/protocol.go:108-127 | header, length check, payload, JPEG check, each with its own failure and what is left unread |
| CameraWire.ReadsIff | internal/camera/protocol.go:108-133 | reading succeeds exactly on streams that begin with an encoded frame, and yields that frame |
| CameraWire.ReadingIs | internal/camera/protocol.go:108-133 | what reading does with every stream, byte by byte: the first fault met and how much is used up by it |
| CameraWire.PartIsNotRead | internal/camera/protocol.go:108-120 | a frame cut off anywhere is never read |
| CameraWire.StreamReadsBack | internal/camera/protocol.go:108-127 | any number of frames followed by any bytes is read back as those frames and those bytes |
| CameraWire.CopyField | internal/camera/protocol.go:47-48 | a field is the value cut to 32 bytes or padded with NULs, in place |
| CameraWire.MakeAuthPayload | internal/camera/protocol.go:43-50 | the 80-byte authentication payload |
| CameraWire.NulPaddedEqual | internal/camera/manager.go:197-210 | true exactly when the field is the value followed by NULs |
| CameraWire.OwnPayloadAdmittedIff | internal/camera/manager.go:180-210 | the proxy's own payload, for credentials of any length, passes as those of a configured printer exactly when the configured ones fit their fields and agree, up to trailing NULs, with what the fields keep of those sent |
| CameraWire.OwnCredentialsAdmittedIff | internal/camera/protocol.go:43-50 | credentials match the payload made from them exactly when both fit their fields |
| RawSession.WriteOut | internal/camera/rawserver.go:288-306 | a frame without a raw header, or a write cut short, ends the session |
| RawSession.Serve | internal/camera/rawserver.go:251-285 | the session loop over cached and awaited frames |
| RawSession.ServedIsNewer | internal/camera/capture.go:251-278 | on any run of the capture, each frame a session takes by waiting is newer than the one it asked after |
| RawSession.SessionIsSound | internal/camera/rawserver.go:251-285 | on any run of the capture the frames sent have strictly increasing sequence numbers, each at most five seconds old when checked and begun within fifteen seconds of the end of the send before it |
| RawSession.SessionSends | internal/camera/rawserver.go:264-285 | a session sends exactly the fresh frames of the turns before the first one that ends it, and is open exactly when none did; a turn ends it by a cancelled context, a spent budget, no frame, or a fresh frame not written in full |
| RawSession.OpeningSends | internal/camera/rawserver.go:251-263 | the cached frame is sent exactly when it is fresh, and awaited frames are asked after it in any case |
| RawSession.SessionIsWritten | internal/camera/rawserver.go:288-306 | what is written is the frames sent in full and, once the session is over, at most a part of one more |
| RawSession.ClientReadsWhatWasSent | internal/camera/rawserver.go:288-306 | reading frames off the written bytes gives exactly the frames sent and then no further one |
| Configuration.CheckAlias | internal/config/config.go:411-418 | aliases are one or more uppercase letters and digits |
| Configuration.Validate | internal/config/config.go:355-401 | accepts exactly nonempty distinct serials with well-formed aliases that are no serial and no other alias, and its error names such a fault |
| Topics.JoinOfSplit | internal/routing/topic.go:67-78 | joining a topic's levels gives the topic |
| Topics.SplitOfJoin | internal/routing/topic.go:67-78 | splitting joined levels gives the levels, when none contains a separator |
| Topics.SecondLevelShows | internal/routing/topic.go:76-77 | replacing the second level by another string always gives another topic |
| Routing.NewTable | internal/routing/topic.go:17-32 | the table of the serials in order |
| Routing.Arguments | cmd/bambu-mqtt-proxy/main.go:118-126 | for a valid configuration each printer's downstream ID is its alias if it has one, else its serial |
| Routing.TableHas | internal/routing/topic.go:17-32 | upstream has exactly the serials with their IDs; each downstream ID names a serial with that ID |
| Routing.TableIsInverseIff | internal/routing/topic.go:17-32 | the two maps are inverse exactly when no two serials share a downstream ID |
| Routing.ValidIsUnambiguous | internal/config/config.go:355-418 | the configuration check establishes that, and that an alias is a single level and nobody's serial |
| Routing.UpstreamOfDownstreamIff | internal/routing/topic.go:67-93 | every topic returns from downstream to upstream if and only if its second level is not an alias |
| Routing.CommandsIff | internal/routing/topic.go:56-63 | a topic commands a printer exactly when it is the request topic of its downstream ID and that ID is one level |
| Routing.OneTopicPerPrinter | internal/routing/topic.go:56-63 | two topics that command the same printer are the same topic |
| Routing.AllowedIff | internal/routing/topic.go:37-51 | a filter may be subscribed to if and only if there is a printer and it is device/#, or report, request or # under + or under one printer's ID |
| Routing.PrinterTopicIs | internal/routing/topic.go:67-93 | a printer's topics carry its ID downstream and its ID's topics its serial upstream, whatever follows that level |
| Routing.OtherTopicsPass | internal/routing/topic.go:67-93 | topics of no configured serial pass downstream unchanged, topics of no ID upstream |
| Routing.ReportsCanBeRead | internal/routing/topic.go:37-78 | the topic a printer's reports are handed on under may be subscribed to |
| Routing.SerialIsHiddenIff | internal/routing/topic.go:37-63 | no topic with an aliased printer's serial as its second level commands anything, and a filter with it is allowed exactly where it reads as a wildcard |
| Routing.WildcardSerialIsNotHidden | internal/config/config.go:355-401 | the serial + with an alias passes the configuration check and device/+/report can be subscribed to |
| Routing.SeveralLevelsAreNotCommanded | internal/config/config.go:355-401 | a serial with a separator passes the configuration check and no topic commands its printer |

## Left out

- CaptureTheorems.NoLostWakeup: goroutines of one capture; that a closed channel is eventually noticed is the scheduler's business.
- PlateTheorems.StopsOnlyObservedPrints: assumes the worker's 64-slot queue loses no event; overflow is not modelled.
- PauseOutcomes.OneOutcomeIff: the queue of sixty-four outcomes is taken to lose none, and an outcome counts when a report queues it; the loop records it later.
- DetectionTheorems.TurnedOffStaysQuiet: loop steps are those that touch the worker's state; waiting and cancelling a request in flight only delay steps the model may take at any time.
- InterruptionTheorems.InterruptionsAccounted: times are only set and compared; messages and display states (monitoring, attention, degraded) are not modelled.
- ActivityObject.Log.Record: entry ages at read and the debug line are not modelled, and IDs do not wrap.
- NotificationTheorems.DeliveriesConserve: counts the events accepted by the sixteen-slot queue; a delivery after shutdown is dropped by the code and failed sends are not retried.
- RawSession.SessionIsSound: takes from the camera reader that frames with a raw header were read off a camera; TLS, the end-of-input watcher and the 80-byte read are inputs.
- Configuration.Validate: only serials and aliases; addresses, passwords, ports, listeners and printer settings are checked by code that is not modelled.
- Backoff.GuardedIsIdeal: the attempt count itself is unbounded here; in the code it is an int.
- The counters of the capture (frames, generations) are unbounded integers; the code's are 64-bit and are taken not to wrap.
- The streaming loop is one loop with a connect and a read; the RTSPS variant, which runs FFmpeg and drains buffered parts, keeps the same fields and is not modelled separately.
- The capture's frames are their sequence numbers and capture times; their bytes are those of the camera's wire format, modelled apart.
- JSON decoding, numbers that are not finite, and conversion of huge floats to integers: documents are decoded JSON values over reals.
- Display-ready views, status texts, classification thresholds, debug images and logging.
- StoreObject.Store.Apply: the severity, message and link of a recorded transition are display text; subscribers may be added at any time in the code, here each one sees the whole order of dispatch.
- The listener and socket registry of the raw camera server, which repeats the registry's closed flag on connections.
- Job previews, chamber safety, HTTP and MCP handlers, the configuration page, the MQTT broker and TLS utilities: input and output, or smaller properties of the same kinds.
