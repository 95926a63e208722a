/** The registry's shutdown can always come to its end. */
module ManagerLiveness {
  import opened Options
  import opened CaptureProtocol
  import opened CaptureInvariant
  import opened CaptureTheorems
  import opened ManagerProtocol
  import CaptureLiveness

  /** What is still to be closed, or being closed, is a capture of the registry. */
  predicate PendingOk(sys: System) {
    sys.shutdown.Closing? ==>
      && sys.shutdown.todo <= sys.captures.Keys
      && (sys.shutdown.current.Some? ==> sys.shutdown.current.value.0 in sys.captures)
  }

  lemma ActionKeepsPending(sys: System, a: Action)
    requires PendingOk(sys) && Allowed(sys, a)
    ensures PendingOk(After(sys, a))
  {
  }

  ghost predicate Healthy(sys: System) { SystemOk(sys) && PendingOk(sys) }

  lemma {:induction false} RunIsHealthy(ss: seq<System>, actions: seq<Action>, i: nat)
    requires SystemRun(ss, actions) && i < |ss|
    ensures Healthy(ss[i])
  {
    SystemRunKeeps(ss, actions, i);
    if i > 0 {
      RunIsHealthy(ss, actions, i - 1);
      ActionKeepsPending(ss[i - 1], actions[i - 1]);
    }
  }

  /** ss goes on from its first state by the given actions. */
  ghost predicate SystemPath(ss: seq<System>, actions: seq<Action>) {
    && |ss| == |actions| + 1
    && forall i :: 0 <= i < |actions| ==> Allowed(ss[i], actions[i]) && ss[i + 1] == After(ss[i], actions[i])
  }

  /** sys can reach sys' by at most n actions. */
  ghost predicate Reaches(sys: System, sys': System, n: nat) {
    exists ss, actions :: SystemPath(ss, actions) && ss[0] == sys && ss[|actions|] == sys' && |actions| <= n
  }

  lemma HealthyNext(sys: System, a: Action)
    requires Healthy(sys) && Allowed(sys, a)
    ensures Healthy(After(sys, a))
  {
    ActionKeeps(sys, a);
    ActionKeepsPending(sys, a);
  }

  lemma {:induction false} HealthyStays(ss: seq<System>, i: nat)
    requires i < |ss| && Healthy(ss[0]) && forall k: nat :: k < i && Healthy(ss[k]) ==> Healthy(ss[k + 1])
    ensures Healthy(ss[i])
  {
    if i > 0 {
      HealthyStays(ss, i - 1);
    }
  }

  lemma PathKeeps(ss: seq<System>, actions: seq<Action>, i: nat)
    requires SystemPath(ss, actions) && Healthy(ss[0]) && i < |ss|
    ensures Healthy(ss[i])
  {
    forall k: nat | k < i && Healthy(ss[k]) ensures Healthy(ss[k + 1]) {
      HealthyNext(ss[k], actions[k]);
    }
    HealthyStays(ss, i);
  }

  lemma ReachesKeeps(sys: System, sys': System, n: nat)
    requires Healthy(sys) && Reaches(sys, sys', n)
    ensures Healthy(sys')
  {
    var ss, actions :| SystemPath(ss, actions) && ss[0] == sys && ss[|actions|] == sys' && |actions| <= n;
    PathKeeps(ss, actions, |actions|);
  }

  lemma OneAction(sys: System, a: Action)
    requires Allowed(sys, a)
    ensures Reaches(sys, After(sys, a), 1)
  {
    assert SystemPath([sys, After(sys, a)], [a]);
  }

  lemma Join(ss: seq<System>, actions: seq<Action>, ss': seq<System>, actions': seq<Action>)
    requires SystemPath(ss, actions) && SystemPath(ss', actions') && ss[|actions|] == ss'[0]
    ensures SystemPath(ss + ss'[1..], actions + actions')
    ensures (ss + ss'[1..])[|actions + actions'|] == ss'[|actions'|]
  {
    var all, acts := ss + ss'[1..], actions + actions';
    forall i | |actions| <= i < |all| ensures all[i] == ss'[i - |actions|] {}
    forall i | 0 <= i < |acts| ensures Allowed(all[i], acts[i]) && all[i + 1] == After(all[i], acts[i]) {
      if i < |actions| {
        assert acts[i] == actions[i] && all[i] == ss[i] && all[i + 1] == ss[i + 1];
      } else {
        assert acts[i] == actions'[i - |actions|];
      }
    }
  }

  lemma Further(a: System, b: System, c: System, m: nat, n: nat)
    requires Reaches(a, b, m) && Reaches(b, c, n)
    ensures Reaches(a, c, m + n)
  {
    var ss, actions :| SystemPath(ss, actions) && ss[0] == a && ss[|actions|] == b && |actions| <= m;
    var ss', actions' :| SystemPath(ss', actions') && ss'[0] == b && ss'[|actions'|] == c && |actions'| <= n;
    Join(ss, actions, ss', actions');
    assert (ss + ss'[1..])[0] == a;
  }

  function With(sys: System, serial: Serial, w: World): System { sys.(captures := sys.captures[serial := w]) }

  /** What happens around one capture happens in the registry. */
  lemma InsideReaches(sys: System, serial: Serial, ws: seq<World>, steps: seq<Step>)
    requires serial in sys.captures && QuietPath(ws, steps) && ws[0] == sys.captures[serial]
    ensures Reaches(sys, With(sys, serial, ws[|steps|]), |steps|)
  {
    var ss := seq(|ws|, i requires 0 <= i < |ws| => With(sys, serial, ws[i]));
    var actions := seq(|steps|, i requires 0 <= i < |steps| => Inside(serial, steps[i]));
    assert sys.captures[serial := ws[0]] == sys.captures;
    forall i | 0 <= i < |actions|
      ensures Allowed(ss[i], actions[i]) && ss[i + 1] == After(ss[i], actions[i])
    {
      assert sys.captures[serial := ws[i]][serial := ws[i + 1]] == sys.captures[serial := ws[i + 1]];
    }
    assert SystemPath(ss, actions);
  }

  lemma LocksClose(w: World, t: nat)
    requires !w.sh.closed && At(w, t, CloseCalled)
    ensures DoCloseLocks(w, t).sh.closed && DoCloseLocks(w, t).closer == t
    ensures Enabled(w, CloseLocks(t)) && Next(w, CloseLocks(t)) == DoCloseLocks(w, t)
  {
  }

  lemma LocksKeep(w: World, t: nat)
    requires Inv(w) && !w.sh.closed && At(w, t, CloseCalled)
    ensures Inv(DoCloseLocks(w, t))
  {
    LocksClose(w, t);
    StepKeeps(w, CloseLocks(t));
  }

  /** A path of the capture on which nobody else calls in. */
  ghost predicate QuietPath(ws: seq<World>, steps: seq<Step>) {
    CaptureLiveness.Path(ws, steps) && forall i :: 0 <= i < |steps| ==> !steps[i].Call? && !steps[i].CallClose?
  }

  lemma QuietPrepend(w: World, step: Step, ws: seq<World>, steps: seq<Step>)
    requires QuietPath(ws, steps) && Enabled(w, step) && ws[0] == Next(w, step) && !step.Call? && !step.CallClose?
    ensures QuietPath([w] + ws, [step] + steps) && ([w] + ws)[|steps| + 1] == ws[|steps|]
  {
    CaptureLiveness.Prepend(w, step, ws, steps);
  }

  lemma CallEnds(w: World, t: nat) returns (ws: seq<World>, steps: seq<Step>)
    requires Inv(w) && !w.sh.closed && At(w, t, CloseCalled)
    ensures QuietPath(ws, steps) && ws[0] == w && |steps| <= 8 && At(ws[|steps|], t, Finished)
  {
    LocksKeep(w, t);
    LocksClose(w, t);
    var ws', steps' := CaptureLiveness.CloseReturns(DoCloseLocks(w, t));
    QuietPrepend(w, CloseLocks(t), ws', steps');
    ws, steps := [w] + ws', [CloseLocks(t)] + steps';
  }

  /** The capture being closed: at most eight steps end its close. */
  lemma CurrentEnds(w: World, t: nat) returns (ws: seq<World>, steps: seq<Step>)
    requires Inv(w) && ClosedBy(w, t)
    ensures QuietPath(ws, steps) && ws[0] == w && |steps| <= 8 && At(ws[|steps|], t, Finished)
  {
    if w.sh.closed {
      ws, steps := CaptureLiveness.CloseReturns(w);
    } else {
      ws, steps := CallEnds(w, t);
    }
  }

  lemma CurrentReaches(sys: System) returns (sys': System)
    requires Healthy(sys) && sys.shutdown.Closing? && sys.shutdown.current.Some?
    ensures Reaches(sys, sys', 9) && Healthy(sys')
    ensures sys'.shutdown == Closing(sys.shutdown.todo, None)
  {
    var (serial, t) := sys.shutdown.current.value;
    assert Sound(sys.captures[serial], serial, sys.shutdown);
    var ws, steps := CurrentEnds(sys.captures[serial], t);
    InsideReaches(sys, serial, ws, steps);
    var mid := With(sys, serial, ws[|steps|]);
    OneAction(mid, CloseMovesOn);
    sys' := After(mid, CloseMovesOn);
    Further(sys, mid, sys', |steps|, 1);
    ReachesKeeps(sys, sys', 9);
  }

  /** Goroutines are finitely many, so there is always room for another. */
  lemma {:induction false} AnotherNumber(s: set<nat>) returns (t: nat)
    ensures forall x :: x in s ==> x < t
  {
    if s == {} {
      t := 0;
    } else {
      var x :| x in s;
      var u := AnotherNumber(s - {x});
      t := if u <= x then x + 1 else u;
      assert forall y :: y in s ==> y == x || y in s - {x};
    }
  }

  lemma PickIs(sys: System, serial: Serial, t: nat)
    requires PendingOk(sys) && sys.shutdown.Closing? && sys.shutdown.current.None? && serial in sys.shutdown.todo
    requires t !in sys.captures[serial].threads
    ensures Allowed(sys, ClosePicks(serial, t))
    ensures After(sys, ClosePicks(serial, t)).shutdown == Closing(sys.shutdown.todo - {serial}, Some((serial, t)))
  {
  }

  lemma Picks(sys: System, serial: Serial) returns (sys': System)
    requires PendingOk(sys) && sys.shutdown.Closing? && sys.shutdown.current.None? && serial in sys.shutdown.todo
    ensures Reaches(sys, sys', 1)
    ensures sys'.shutdown.Closing? && sys'.shutdown.todo == sys.shutdown.todo - {serial} && sys'.shutdown.current.Some?
  {
    var t := AnotherNumber(sys.captures[serial].threads.Keys);
    PickIs(sys, serial, t);
    OneAction(sys, ClosePicks(serial, t));
    sys' := After(sys, ClosePicks(serial, t));
  }

  lemma PickReaches(sys: System, serial: Serial) returns (sys': System)
    requires Healthy(sys) && sys.shutdown.Closing? && sys.shutdown.current.None? && serial in sys.shutdown.todo
    ensures Reaches(sys, sys', 10) && Healthy(sys')
    ensures sys'.shutdown == Closing(sys.shutdown.todo - {serial}, None)
  {
    var mid := Picks(sys, serial);
    ReachesKeeps(sys, mid, 1);
    sys' := CurrentReaches(mid);
    Further(sys, mid, sys', 1, 9);
    ReachesKeeps(sys, sys', 10);
  }

  function Remaining(sys: System): nat
    requires sys.shutdown.Closing?
  {
    10 * |sys.shutdown.todo| + (if sys.shutdown.current.Some? then 9 else 0) + 1
  }

  lemma LessRemains(sys: System, mid: System, serial: Serial)
    requires sys.shutdown.Closing?
    ensures sys.shutdown.current.Some? && mid.shutdown == Closing(sys.shutdown.todo, None) ==>
            Remaining(mid) == Remaining(sys) - 9
    ensures && sys.shutdown.current.None? && serial in sys.shutdown.todo
            && mid.shutdown == Closing(sys.shutdown.todo - {serial}, None) ==>
              Remaining(mid) == Remaining(sys) - 10
  {
  }

  /** One stretch of the shutdown: the capture being closed ends, or the next one is closed. */
  lemma Stretch(sys: System) returns (mid: System, n: nat)
    requires Healthy(sys) && sys.shutdown.Closing? && sys.shutdown != Closing({}, None)
    ensures Healthy(mid) && mid.shutdown.Closing? && n > 0 && Remaining(mid) == Remaining(sys) - n
    ensures Reaches(sys, mid, n)
  {
    if sys.shutdown.current.Some? {
      mid := CurrentReaches(sys);
      LessRemains(sys, mid, "");
      n := 9;
    } else {
      var serial :| serial in sys.shutdown.todo;
      mid := PickReaches(sys, serial);
      LessRemains(sys, mid, serial);
      n := 10;
    }
  }

  lemma Ends(sys: System)
    requires sys.shutdown == Closing({}, None)
    ensures Allowed(sys, CloseEnds) && After(sys, CloseEnds).shutdown.Returned?
  {
  }

  /** From every state of every run, a shutdown under way can return within so many actions. */
  lemma {:induction false} CloseCanReturn(sys: System) returns (sys': System)
    requires Healthy(sys) && sys.shutdown.Closing?
    ensures Reaches(sys, sys', Remaining(sys)) && sys'.shutdown.Returned?
    decreases Remaining(sys)
  {
    if sys.shutdown == Closing({}, None) {
      Ends(sys);
      OneAction(sys, CloseEnds);
      sys' := After(sys, CloseEnds);
    } else {
      var mid, n := Stretch(sys);
      sys' := CloseCanReturn(mid);
      Further(sys, mid, sys', n, Remaining(mid));
    }
  }
}
