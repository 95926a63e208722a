/**
 Every interleaving of the goroutines around one capture. A world holds the mutex-protected
 fields, the channels already closed, the capture loops, the pending idle timers and one program
 counter per goroutine; a step is one critical section, one channel operation or one decision of
 the environment (a timer, a network result, a caller). Any number of callers may be present.
 */
module CaptureProtocol {
  import opened Options
  import opened CaptureState

  /** Where a capture loop stands between two of its own actions. */
  datatype Phase =
    | Starting               // resolving the camera address
    | Top                    // about to test its context
    | Reading                // connecting, or reading a frame
    | Waking(channel: nat)   // published, about to close the replaced channel
    | Exited                 // its done channel is closed

  datatype Loop = Loop(cancelled: bool, phase: Phase)

  const SNAPSHOT_MAX_AGE: int := 5000 // milliseconds

  /** What a caller does with the interest it acquires. */
  datatype Use = Stream | WaitFor(after: nat) | Snapshot

  datatype Pc =
    | Entering(use: Use)                                            // about to call acquire
    | BlockedOn(use: Use, on: nat)                                  // <-retired inside acquire
    | Reentering(use: Use)                                          // woken, about to lock again
    | Holding(use: Use, counted: bool)                              // acquire returned
    | Selecting(use: Use, counted: bool, on: nat, seen: nat)        // blocked in select
    | Leaving(counted: bool, got: nat)                              // about to call release
    | StopFired(gen: nat) | StopCancel(loop: nat) | StopJoin(loop: nat) | StopClear | StopSignal(channel: nat)
    | CloseCalled | CloseCancel(loop: nat) | CloseJoin(loop: nat)
    | Finished

  datatype World = World(
    sh: Shared,
    shutNotify: set<nat>,    // closed notification channels
    shutRetired: set<nat>,   // closed retirement channels
    loops: map<nat, Loop>,
    timers: set<nat>,        // generations of timers neither stopped nor fired
    threads: map<nat, Pc>,
    panicked: bool,          // a closed channel was closed again
    // History: who holds a counted interest, how many were ever counted, that total when each
    // timer was armed, which goroutine owes the close of each retirement channel, and which one closed.
    holders: set<nat>, counted: nat, armedAt: map<nat, nat>, retirer: map<nat, nat>, closer: nat)

  const Start := World(Fresh, {}, {}, map[], {}, map[], false, {}, 0, map[], map[], 0)

  datatype Step =
    | Call(t: nat, use: Use) | CallClose(t: nat)
    | Enter(t: nat) | RetirementSeen(t: nat) | Reenter(t: nat)
    | Look(t: nat, now: int) | Notified(t: nat) | TimeUp(t: nat, now: int) | GiveUp(t: nat) | Leave(t: nat)
    | Fire(t: nat, gen: nat) | StopRetire(t: nat) | StopCancels(t: nat) | StopJoins(t: nat)
    | StopClears(t: nat) | StopSignals(t: nat)
    | CloseLocks(t: nat) | CloseCancels(t: nat) | CloseJoins(t: nat)
    | LoopBegin(l: nat, resolved: bool) | LoopTop(l: nat) | LoopPublish(l: nat, now: int) | LoopWake(l: nat)
    | LoopFail(l: nat, connecting: bool)

  predicate ByLoop(step: Step) {
    step.LoopBegin? || step.LoopTop? || step.LoopPublish? || step.LoopWake? || step.LoopFail?
  }

  predicate Admits(step: Step) {
    step.Enter? || step.Reenter?
  }

  predicate At(w: World, t: nat, pc: Pc) {
    t in w.threads && w.threads[t] == pc
  }

  function Goto(w: World, t: nat, pc: Pc): World {
    w.(threads := w.threads[t := pc])
  }

  predicate LoopAt(w: World, l: nat, p: Phase) {
    l in w.loops && w.loops[l].phase == p
  }

  function SetPhase(w: World, l: nat, p: Phase): World
    requires l in w.loops
  {
    w.(loops := w.loops[l := w.loops[l].(phase := p)])
  }

  predicate Enabled(w: World, step: Step) {
    match step
    case Call(t, _) => t !in w.threads
    case CallClose(t) => t !in w.threads
    case Enter(t) => t in w.threads && w.threads[t].Entering?
    case RetirementSeen(t) => t in w.threads && w.threads[t].BlockedOn? && w.threads[t].on in w.shutRetired
    case Reenter(t) => t in w.threads && w.threads[t].Reentering?
    case Look(t, _) => t in w.threads && w.threads[t].Holding? && !w.threads[t].use.Stream?
    case Notified(t) => t in w.threads && w.threads[t].Selecting? && w.threads[t].on in w.shutNotify
    case TimeUp(t, _) => t in w.threads && w.threads[t].Selecting? && w.threads[t].use.Snapshot?
    case GiveUp(t) => t in w.threads && (w.threads[t].Selecting? || (w.threads[t].Holding? && w.threads[t].use.Stream?))
    case Leave(t) => t in w.threads && w.threads[t].Leaving?
    case Fire(t, gen) => t !in w.threads && gen in w.timers
    case StopRetire(t) => t in w.threads && w.threads[t].StopFired?
    case StopCancels(t) => t in w.threads && w.threads[t].StopCancel? && w.threads[t].loop in w.loops
    case StopJoins(t) => t in w.threads && w.threads[t].StopJoin? && LoopAt(w, w.threads[t].loop, Exited)
    case StopClears(t) => t in w.threads && w.threads[t].StopClear?
    case StopSignals(t) => t in w.threads && w.threads[t].StopSignal?
    case CloseLocks(t) => t in w.threads && w.threads[t].CloseCalled?
    case CloseCancels(t) => t in w.threads && w.threads[t].CloseCancel? && w.threads[t].loop in w.loops
    case CloseJoins(t) => t in w.threads && w.threads[t].CloseJoin? && LoopAt(w, w.threads[t].loop, Exited)
    case LoopBegin(l, _) => LoopAt(w, l, Starting)
    case LoopTop(l) => LoopAt(w, l, Top)
    case LoopPublish(l, _) => LoopAt(w, l, Reading)
    case LoopWake(l) => l in w.loops && w.loops[l].phase.Waking?
    case LoopFail(l, _) => LoopAt(w, l, Reading)
  }

  function AdmittedTo(use: Use, a: Admission): Pc {
    match a
    case Blocked(on) => BlockedOn(use, on)
    case _ => Holding(use, !a.Refused?)
  }

  // The effect of one admission on the loops, the history and the goroutine.
  function Settle(w: World, t: nat, s: Shared, a: Admission): World {
    if a.Joined? || a.Started? then
      w.(sh := s, holders := w.holders + {t}, counted := w.counted + 1,
         loops := if a.Started? then w.loops[a.loop := Loop(false, Starting)] else w.loops)
    else w.(sh := s)
  }

  function Admitted(w: World, t: nat, use: Use, s: Shared, a: Admission): World {
    Goto(Settle(w, t, s, a), t, AdmittedTo(use, a))
  }

  function Unarm(timers: set<nat>, stopped: Option<nat>): set<nat> {
    if stopped.Some? then timers - {stopped.value} else timers
  }

  function DoEnter(w: World, t: nat): World
    requires Enabled(w, Enter(t))
  {
    var (s, a, stopped) := Acquire(w.sh);
    Admitted(w.(timers := Unarm(w.timers, stopped)), t, w.threads[t].use, s, a)
  }

  function DoReenter(w: World, t: nat): World
    requires Enabled(w, Reenter(t))
  {
    var (s, a) := Admit(w.sh);
    Admitted(w, t, w.threads[t].use, s, a)
  }

  predicate Good(use: Use, frame: nat, captured: int, now: int) {
    match use
    case Stream => false
    case WaitFor(after) => frame > after
    case Snapshot => frame > 0 && now - captured <= SNAPSHOT_MAX_AGE
  }

  function DoLook(w: World, t: nat, now: int): World
    requires Enabled(w, Look(t, now))
  {
    var pc := w.threads[t];
    match LookAt(w.sh)
    case Gone => Goto(w, t, Leaving(pc.counted, 0))
    case Sees(frame, captured, on) =>
      if Good(pc.use, frame, captured, now) then Goto(w, t, Leaving(pc.counted, frame))
      else Goto(w, t, Selecting(pc.use, pc.counted, on, frame))
  }

  // A snapshot whose wait has timed out looks once more.
  function DoTimeUp(w: World, t: nat, now: int): World
    requires Enabled(w, TimeUp(t, now))
  {
    var pc := w.threads[t];
    Goto(w, t, match LookAt(w.sh)
               case Gone => Leaving(pc.counted, 0)
               case Sees(frame, captured, _) =>
                 Leaving(pc.counted, if Good(pc.use, frame, captured, now) then frame else 0))
  }

  function DoLeave(w: World, t: nat): World
    requires Enabled(w, Leave(t))
  {
    var (s, armed) := CaptureState.Release(w.sh);
    var w' := w.(sh := s, holders := w.holders - {t});
    Goto(if armed.None? then w'
         else w'.(timers := w.timers + {armed.value}, armedAt := w.armedAt[armed.value := w.counted]), t, Finished)
  }

  function DoStopRetire(w: World, t: nat): World
    requires Enabled(w, StopRetire(t))
  {
    var (s, loop) := Retire(w.sh, w.threads[t].gen);
    if loop.None? then Goto(w, t, Finished)
    else Goto(w.(sh := s, retirer := w.retirer[s.retired := t]), t, StopCancel(loop.value))
  }

  function DoStopClears(w: World, t: nat): World {
    var (s, signal) := Retired(w.sh);
    Goto(w.(sh := s), t, StopSignal(signal))
  }

  function DoStopSignals(w: World, t: nat): World
    requires Enabled(w, StopSignals(t))
  {
    var ch := w.threads[t].channel;
    Goto(w.(shutRetired := w.shutRetired + {ch}, panicked := w.panicked || ch in w.shutRetired), t, Finished)
  }

  function DoCloseLocks(w: World, t: nat): World {
    var (s, c, stopped) := Close(w.sh);
    if c.Already? then Goto(w, t, Finished)
    else
      var w' := w.(sh := s, timers := Unarm(w.timers, stopped), closer := t,
                   shutNotify := w.shutNotify + {w.sh.notify},
                   panicked := w.panicked || w.sh.notify in w.shutNotify);
      Goto(w', t, match c
                  case CancelFirst(l) => CloseCancel(l)
                  case JoinOnly(l) => CloseJoin(l)
                  case _ => Finished)
  }

  function DoCancel(w: World, t: nat, l: nat, next: Pc): World
    requires l in w.loops
  {
    Goto(w.(loops := w.loops[l := w.loops[l].(cancelled := true)]), t, next)
  }

  function DoLoopPublish(w: World, l: nat, now: int): World
    requires l in w.loops
  {
    var (s, replaced) := Publish(w.sh, now);
    SetPhase(w.(sh := s), l, if replaced.None? then Top else Waking(replaced.value))
  }

  function DoLoopWake(w: World, l: nat): World
    requires l in w.loops && w.loops[l].phase.Waking?
  {
    var ch := w.loops[l].phase.channel;
    SetPhase(w.(shutNotify := w.shutNotify + {ch}, panicked := w.panicked || ch in w.shutNotify), l, Top)
  }

  // A failed read ends the loop when its context is cancelled or the capture no longer holds a cancel function;
  // a failed connection attempt always goes back to the context test after its backoff.
  function DoLoopFail(w: World, l: nat, connecting: bool): World
    requires l in w.loops
  {
    SetPhase(w, l, if !connecting && (w.loops[l].cancelled || w.sh.cancel.None?) then Exited else Top)
  }

  function Next(w: World, step: Step): World
    requires Enabled(w, step)
  {
    match step
    case Call(t, use) => Goto(w, t, Entering(use))
    case CallClose(t) => Goto(w, t, CloseCalled)
    case Enter(t) => DoEnter(w, t)
    case RetirementSeen(t) => Goto(w, t, Reentering(w.threads[t].use))
    case Reenter(t) => DoReenter(w, t)
    case Look(t, now) => DoLook(w, t, now)
    case Notified(t) => Goto(w, t, Holding(w.threads[t].use, w.threads[t].counted))
    case TimeUp(t, now) => DoTimeUp(w, t, now)
    case GiveUp(t) => Goto(w, t, Leaving(w.threads[t].counted, 0))
    case Leave(t) => DoLeave(w, t)
    case Fire(t, gen) => Goto(w.(timers := w.timers - {gen}), t, StopFired(gen))
    case StopRetire(t) => DoStopRetire(w, t)
    case StopCancels(t) => DoCancel(w, t, w.threads[t].loop, StopJoin(w.threads[t].loop))
    case StopJoins(t) => Goto(w, t, StopClear)
    case StopClears(t) => DoStopClears(w, t)
    case StopSignals(t) => DoStopSignals(w, t)
    case CloseLocks(t) => DoCloseLocks(w, t)
    case CloseCancels(t) => DoCancel(w, t, w.threads[t].loop, CloseJoin(w.threads[t].loop))
    case CloseJoins(t) => Goto(w, t, Finished)
    case LoopBegin(l, resolved) => SetPhase(w, l, if resolved then Top else Exited)
    case LoopTop(l) => SetPhase(w, l, if w.loops[l].cancelled then Exited else Reading)
    case LoopPublish(l, now) => DoLoopPublish(w, l, now)
    case LoopWake(l) => DoLoopWake(w, l)
    case LoopFail(l, connecting) => DoLoopFail(w, l, connecting)
  }

  /** ws is an execution from the start that takes the given steps. */
  ghost predicate Run(ws: seq<World>, steps: seq<Step>) {
    && |ws| == |steps| + 1
    && ws[0] == Start
    && forall i :: 0 <= i < |steps| ==> Enabled(ws[i], steps[i]) && ws[i + 1] == Next(ws[i], steps[i])
  }
}
