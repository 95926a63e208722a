/**
 The capture registry: one capture per printer behind a second lock with its own terminal flag.
 A system is the registry with the world of every capture it created.
 */
module ManagerProtocol {
  import opened Options
  import opened CaptureState
  import opened CaptureProtocol
  import opened CaptureInvariant
  import opened CaptureTheorems

  type Serial = string

  /** Where the first call of Close stands: the captures it still has to close and the one it is closing. */
  datatype Shutdown = Open | Closing(todo: set<Serial>, current: Option<(Serial, nat)>) | Returned

  datatype System = System(closed: bool, captures: map<Serial, World>, shutdown: Shutdown)

  const Boot := System(false, map[], Open)

  datatype Action =
    | Fetch(serial: Serial, t: nat, use: Use)   // get or Wait found the registry open; the caller enters the capture
    | Inside(serial: Serial, step: Step)        // anything that happens around one capture afterwards
    | CloseBegins
    | ClosePicks(serial: Serial, t: nat)
    | CloseMovesOn
    | CloseEnds

  function WorldOf(sys: System, serial: Serial): World {
    if serial in sys.captures then sys.captures[serial] else Start
  }

  predicate Allowed(sys: System, a: Action) {
    match a
    case Fetch(serial, t, use) => !sys.closed && Enabled(WorldOf(sys, serial), Call(t, use))
    case Inside(serial, step) =>
      serial in sys.captures && !step.Call? && !step.CallClose? && Enabled(sys.captures[serial], step)
    case CloseBegins => !sys.closed
    case ClosePicks(serial, t) =>
      sys.shutdown.Closing? && sys.shutdown.current.None? && serial in sys.shutdown.todo && serial in sys.captures
      && Enabled(sys.captures[serial], CallClose(t))
    case CloseMovesOn =>
      && sys.shutdown.Closing? && sys.shutdown.current.Some? && sys.shutdown.current.value.0 in sys.captures
      && At(sys.captures[sys.shutdown.current.value.0], sys.shutdown.current.value.1, Finished)
    case CloseEnds => sys.shutdown == Closing({}, None)
  }

  function After(sys: System, a: Action): System
    requires Allowed(sys, a)
  {
    match a
    case Fetch(serial, t, use) => sys.(captures := sys.captures[serial := Next(WorldOf(sys, serial), Call(t, use))])
    case Inside(serial, step) => sys.(captures := sys.captures[serial := Next(sys.captures[serial], step)])
    case CloseBegins => sys.(closed := true, shutdown := Closing(sys.captures.Keys, None))
    case ClosePicks(serial, t) =>
      sys.(captures := sys.captures[serial := Goto(sys.captures[serial], t, CloseCalled)],
           shutdown := Closing(sys.shutdown.todo - {serial}, Some((serial, t))))
    case CloseMovesOn => sys.(shutdown := Closing(sys.shutdown.todo, None))
    case CloseEnds => sys.(shutdown := Returned)
  }

  /** Nobody has called close on this capture. */
  ghost predicate Untouched(w: World) {
    !w.sh.closed && forall t :: t in w.threads ==> !w.threads[t].CloseCalled?
  }

  /** Goroutine t alone is closing this capture. */
  ghost predicate ClosedBy(w: World, t: nat) {
    if w.sh.closed then w.closer == t
    else At(w, t, CloseCalled) && forall u :: u in w.threads && w.threads[u].CloseCalled? ==> u == t
  }

  ghost predicate Fine(w: World, serial: Serial, shutdown: Shutdown) {
    match shutdown
    case Open => Untouched(w)
    case Closing(todo, current) =>
      if serial in todo then Untouched(w)
      else if current.Some? && current.value.0 == serial then ClosedBy(w, current.value.1)
      else CloseReturned(w)
    case Returned => CloseReturned(w)
  }

  ghost predicate SystemOk(sys: System) {
    && (sys.closed <==> !sys.shutdown.Open?)
    && (sys.shutdown.Closing? && sys.shutdown.current.Some? ==> sys.shutdown.current.value.0 !in sys.shutdown.todo)
    && forall serial :: serial in sys.captures ==> Sound(sys.captures[serial], serial, sys.shutdown)
  }

  ghost predicate Sound(w: World, serial: Serial, shutdown: Shutdown) {
    Inv(w) && Fine(w, serial, shutdown)
  }

  /** Only CallClose brings a goroutine to call close, and only CloseLocks closes. */
  ghost predicate SameCloseCalls(w: World, w': World) {
    && w'.sh.closed == w.sh.closed
    && (forall u :: u in w'.threads && w'.threads[u].CloseCalled? ==> u in w.threads && w.threads[u].CloseCalled?)
    && (forall u :: u in w.threads && w.threads[u].CloseCalled? ==> At(w', u, CloseCalled))
  }

  lemma EnterIsNoClose(w: World, t: nat)
    requires Enabled(w, Enter(t))
    ensures SameCloseCalls(w, DoEnter(w, t))
  {
  }

  lemma ReenterIsNoClose(w: World, t: nat)
    requires Enabled(w, Reenter(t))
    ensures SameCloseCalls(w, DoReenter(w, t))
  {
  }

  lemma LoopIsNoClose(w: World, step: Step)
    requires ByLoop(step) && Enabled(w, step)
    ensures SameCloseCalls(w, Next(w, step))
  {
  }

  lemma LookIsNoClose(w: World, t: nat, now: int)
    requires Enabled(w, Look(t, now))
    ensures SameCloseCalls(w, DoLook(w, t, now))
  {
  }

  lemma LeaveIsNoClose(w: World, t: nat)
    requires Enabled(w, Leave(t))
    ensures SameCloseCalls(w, DoLeave(w, t))
  {
  }

  lemma RetireIsNoClose(w: World, t: nat)
    requires Enabled(w, StopRetire(t))
    ensures SameCloseCalls(w, DoStopRetire(w, t))
  {
  }

  lemma MovingIsNoClose(w: World, step: Step)
    requires !Admits(step) && !step.Look? && !step.Leave? && !step.StopRetire? && !ByLoop(step)
    requires !step.CallClose? && !step.CloseLocks? && Enabled(w, step)
    ensures SameCloseCalls(w, Next(w, step))
  {
  }

  lemma StepIsNoClose(w: World, step: Step)
    requires !step.CallClose? && !step.CloseLocks? && Enabled(w, step)
    ensures SameCloseCalls(w, Next(w, step))
  {
    if step.Enter? {
      EnterIsNoClose(w, step.t);
    } else if step.Reenter? {
      ReenterIsNoClose(w, step.t);
    } else if ByLoop(step) {
      LoopIsNoClose(w, step);
    } else if step.Look? {
      LookIsNoClose(w, step.t, step.now);
    } else if step.Leave? {
      LeaveIsNoClose(w, step.t);
    } else if step.StopRetire? {
      RetireIsNoClose(w, step.t);
    } else {
      MovingIsNoClose(w, step);
    }
  }

  lemma UntouchedStays(w: World, step: Step)
    requires Untouched(w) && Enabled(w, step) && !step.CallClose?
    ensures Untouched(Next(w, step))
  {
    if !step.CloseLocks? {
      StepIsNoClose(w, step);
    }
  }

  lemma ClosedByStays(w: World, t: nat, step: Step)
    requires ClosedBy(w, t) && Enabled(w, step) && !step.CallClose?
    ensures ClosedBy(Next(w, step), t)
  {
    if w.sh.closed {
      CloserStays(w, step);
    } else if !step.CloseLocks? {
      StepIsNoClose(w, step);
    }
  }

  lemma FineStays(w: World, serial: Serial, shutdown: Shutdown, step: Step)
    requires Sound(w, serial, shutdown) && Enabled(w, step) && !step.CallClose?
    ensures Sound(Next(w, step), serial, shutdown)
  {
    StepKeeps(w, step);
    if Untouched(w) {
      UntouchedStays(w, step);
    }
    if CloseReturned(w) {
      ClosedStays(w, step);
    }
    if shutdown.Closing? && shutdown.current.Some? && ClosedBy(w, shutdown.current.value.1) {
      ClosedByStays(w, shutdown.current.value.1, step);
    }
  }

  lemma CaptureMoves(sys: System, serial: Serial, w': World)
    requires SystemOk(sys) && Sound(w', serial, sys.shutdown)
    ensures SystemOk(sys.(captures := sys.captures[serial := w']))
  {
  }

  lemma FetchKeeps(sys: System, serial: Serial, t: nat, use: Use)
    requires SystemOk(sys) && !sys.closed && Enabled(WorldOf(sys, serial), Call(t, use))
    ensures SystemOk(After(sys, Fetch(serial, t, use)))
  {
    var w := WorldOf(sys, serial);
    StartOk();
    assert Sound(w, serial, sys.shutdown);
    FineStays(w, serial, sys.shutdown, Call(t, use));
    CaptureMoves(sys, serial, Next(w, Call(t, use)));
  }

  /** Picking one capture to close leaves the promise about the others as it was. */
  lemma PickIsFine(w: World, serial: Serial, todo: set<Serial>, picked: Serial, t: nat)
    requires Fine(w, serial, Closing(todo, None)) && serial != picked
    ensures Fine(w, serial, Closing(todo - {picked}, Some((picked, t))))
  {
  }

  lemma PickedIsSound(w: World, t: nat, todo: set<Serial>, picked: Serial)
    requires Sound(w, picked, Closing(todo, None)) && picked in todo && Enabled(w, CallClose(t))
    ensures Sound(Goto(w, t, CloseCalled), picked, Closing(todo - {picked}, Some((picked, t))))
  {
    MoveKeeps(w, t, CloseCalled);
  }

  lemma PickKeeps(sys: System, serial: Serial, t: nat)
    requires SystemOk(sys) && serial in sys.captures && t !in sys.captures[serial].threads
    requires sys.shutdown.Closing? && sys.shutdown.current.None? && serial in sys.shutdown.todo
    ensures var w' := Goto(sys.captures[serial], t, CloseCalled);
            SystemOk(System(sys.closed, sys.captures[serial := w'],
                            Closing(sys.shutdown.todo - {serial}, Some((serial, t)))))
  {
    var w := sys.captures[serial];
    var todo := sys.shutdown.todo;
    assert Sound(w, serial, Closing(todo, None));
    PickedIsSound(w, t, todo, serial);
    forall other | other in sys.captures && other != serial
      ensures Sound(sys.captures[other], other, Closing(todo - {serial}, Some((serial, t))))
    {
      assert Sound(sys.captures[other], other, sys.shutdown);
      PickIsFine(sys.captures[other], other, todo, serial, t);
    }
  }

  /** A closer that has finished leaves its capture closed for good. */
  lemma MovedOnIsFine(w: World, serial: Serial, todo: set<Serial>, current: (Serial, nat))
    requires Fine(w, serial, Closing(todo, Some(current))) && current.0 !in todo
    requires serial == current.0 ==> At(w, current.1, Finished)
    ensures Fine(w, serial, Closing(todo, None))
  {
  }

  lemma MovesOnKeeps(sys: System)
    requires SystemOk(sys) && Allowed(sys, CloseMovesOn)
    ensures SystemOk(After(sys, CloseMovesOn))
  {
    forall serial | serial in sys.captures
      ensures Sound(sys.captures[serial], serial, Closing(sys.shutdown.todo, None))
    {
      assert Sound(sys.captures[serial], serial, sys.shutdown);
      MovedOnIsFine(sys.captures[serial], serial, sys.shutdown.todo, sys.shutdown.current.value);
    }
  }

  lemma ActionKeeps(sys: System, a: Action)
    requires SystemOk(sys) && Allowed(sys, a)
    ensures SystemOk(After(sys, a))
  {
    match a {
      case Fetch(serial, t, use) => FetchKeeps(sys, serial, t, use);
      case Inside(serial, step) =>
        assert Sound(sys.captures[serial], serial, sys.shutdown);
        FineStays(sys.captures[serial], serial, sys.shutdown, step);
        CaptureMoves(sys, serial, Next(sys.captures[serial], step));
      case CloseBegins =>
      case ClosePicks(serial, t) => PickKeeps(sys, serial, t);
      case CloseMovesOn => MovesOnKeeps(sys);
      case CloseEnds =>
    }
  }

  ghost predicate SystemRun(ss: seq<System>, actions: seq<Action>) {
    && |ss| == |actions| + 1 && ss[0] == Boot
    && forall i :: 0 <= i < |actions| ==> Allowed(ss[i], actions[i]) && ss[i + 1] == After(ss[i], actions[i])
  }

  lemma {:induction false} SystemRunKeeps(ss: seq<System>, actions: seq<Action>, i: nat)
    requires SystemRun(ss, actions) && i < |ss|
    ensures SystemOk(ss[i])
  {
    if i > 0 {
      SystemRunKeeps(ss, actions, i - 1);
      ActionKeeps(ss[i - 1], actions[i - 1]);
    }
  }

  lemma ReturnedAction(sys: System, a: Action)
    requires SystemOk(sys) && sys.shutdown.Returned? && Allowed(sys, a)
    ensures a.Inside?
    ensures After(sys, a) == sys.(captures := sys.captures[a.serial := Next(sys.captures[a.serial], a.step)])
    ensures Next(sys.captures[a.serial], a.step).loops.Keys == sys.captures[a.serial].loops.Keys
  {
    assert a.Inside?;
    assert Sound(sys.captures[a.serial], a.serial, sys.shutdown);
    ReturnedStays(sys.captures[a.serial], a.step);
  }

  /** The same captures with the same loops ever started. */
  ghost predicate SameLoops(sys: System, sys': System) {
    && sys'.captures.Keys == sys.captures.Keys
    && forall serial :: serial in sys.captures ==>
         serial in sys'.captures && sys'.captures[serial].loops.Keys == sys.captures[serial].loops.Keys
  }

  lemma OneCaptureSameLoops(sys: System, serial: Serial, w': World)
    requires serial in sys.captures && w'.loops.Keys == sys.captures[serial].loops.Keys
    ensures SameLoops(sys, sys.(captures := sys.captures[serial := w']))
  {
  }

  lemma ReturnedActionKeeps(sys: System, a: Action)
    requires SystemOk(sys) && sys.shutdown.Returned? && Allowed(sys, a)
    ensures After(sys, a).shutdown.Returned? && SameLoops(sys, After(sys, a))
  {
    ReturnedAction(sys, a);
    OneCaptureSameLoops(sys, a.serial, Next(sys.captures[a.serial], a.step));
  }

  lemma RunKeepsReturned(ss: seq<System>, actions: seq<Action>, k: nat)
    requires SystemRun(ss, actions) && k < |actions| && ss[k].shutdown.Returned?
    ensures ss[k + 1].shutdown.Returned? && SameLoops(ss[k], ss[k + 1])
  {
    SystemRunKeeps(ss, actions, k);
    ReturnedActionKeeps(ss[k], actions[k]);
  }

  lemma SameLoopsFollow(a: System, b: System, c: System)
    requires SameLoops(a, b) && SameLoops(b, c)
    ensures SameLoops(a, c)
  {
  }

  lemma {:induction false} ClosedManagerStays(ss: seq<System>, actions: seq<Action>, i: nat, j: nat)
    requires SystemRun(ss, actions) && i <= j < |ss| && ss[i].shutdown.Returned?
    ensures ss[j].shutdown.Returned? && SameLoops(ss[i], ss[j])
  {
    if i < j {
      ClosedManagerStays(ss, actions, i, j - 1);
      RunKeepsReturned(ss, actions, j - 1);
      SameLoopsFollow(ss[i], ss[j - 1], ss[j]);
    }
  }

  /**
   After Close has returned no capture has a live loop, no capture is created and no loop ever starts,
   even for callers that had fetched their capture before the close.
   */
  lemma ClosedManagerIsQuiet(ss: seq<System>, actions: seq<Action>, i: nat, j: nat)
    requires SystemRun(ss, actions) && i <= j < |ss| && ss[i].shutdown.Returned?
    ensures SameLoops(ss[i], ss[j])
    ensures forall serial, l :: serial in ss[j].captures ==> !Live(ss[j].captures[serial], l)
  {
    ClosedManagerStays(ss, actions, i, j);
    SystemRunKeeps(ss, actions, j);
    forall serial, l | serial in ss[j].captures
      ensures !Live(ss[j].captures[serial], l)
    {
      assert Sound(ss[j].captures[serial], serial, ss[j].shutdown);
      ReturnedIsQuiet(ss[j].captures[serial]);
    }
  }
}

/** The registry object. */
module ManagerObject {
  import opened CaptureObject
  import CaptureState

  class Manager {
    var closed: bool
    var captures: map<string, Capture>

    constructor ()
      ensures !closed && captures == map[]
    {
      closed, captures := false, map[];
    }

    method Get(serial: string) returns (c: Capture?)
      modifies this
      ensures closed == old(closed)
      ensures closed ==> c == null && captures == old(captures)
      ensures !closed && serial in old(captures) ==> c == old(captures)[serial] && captures == old(captures)
      ensures !closed && serial !in old(captures) ==>
                c != null && fresh(c) && c.Fields() == CaptureState.Fresh && captures == old(captures)[serial := c]
    {
      if closed {
        return null;
      }
      if serial in captures {
        return captures[serial];
      }
      var made := new Capture();
      captures := captures[serial := made];
      c := made;
    }

    /** Close's section: only the first call gets the captures to shut down. */
    method BeginClose() returns (owner: bool, toClose: set<Capture>)
      modifies this
      ensures closed && captures == old(captures) && owner == !old(closed)
      ensures toClose == if owner then captures.Values else {}
    {
      owner, toClose := !closed, {};
      if closed {
        return;
      }
      closed := true;
      toClose := captures.Values;
    }
  }
}
