/** The guarantees of one capture, over every run. */
module CaptureTheorems {
  import opened Options
  import opened CaptureState
  import opened CaptureProtocol
  import opened CaptureInvariant

  /** The printer allows one camera connection: at most one capture loop is live. */
  lemma AtMostOneLoop(ws: seq<World>, steps: seq<Step>, i: nat)
    requires Run(ws, steps) && i < |ws|
    ensures forall l, m :: Live(ws[i], l) && Live(ws[i], m) ==> l == m
    ensures !ws[i].sh.closed && ws[i].sh.consumers > 0 ==> ws[i].sh.cancel.Some?
    ensures !ws[i].sh.closed ==> ws[i].sh.consumers == |ws[i].holders|
  {
    RunKeeps(ws, steps, i);
    assert LoopsOk(ws[i]) && CountOk(ws[i]);
  }

  /** A loop starts only after every earlier loop has closed its done channel. */
  lemma LoopStartsAlone(ws: seq<World>, steps: seq<Step>, i: nat, l: nat)
    requires Run(ws, steps) && i < |steps|
    requires l in ws[i + 1].loops && l !in ws[i].loops
    ensures forall m :: !Live(ws[i], m)
    ensures Live(ws[i + 1], l) && !ws[i].sh.closed
  {
    RunKeeps(ws, steps, i);
    StepStartsAlone(ws[i], steps[i], l);
  }

  /** Only an admission starts loops or counts interests, and only on a capture that has no loop left. */
  lemma AdmissionEffect(w: World, t: nat, use: Use)
    ensures AdmissionOnly(w, Admitted(w, t, use, Admit(w.sh).0, Admit(w.sh).1))
  {
  }

  /** Loops and arming after an admission from w to w'. */
  ghost predicate AdmissionOnly(w: World, w': World) {
    && w'.armedAt == w.armedAt && w.counted <= w'.counted
    && (w'.loops == w.loops
        || (w.sh.cancel.None? && !w.sh.stopping && !w.sh.closed
            && w'.loops == w.loops[w.sh.done + 1 := Loop(false, Starting)]))
  }

  lemma EnterEffect(w: World, t: nat)
    requires Enabled(w, Enter(t))
    ensures AdmissionOnly(w, DoEnter(w, t))
  {
    if !w.sh.closed {
      EnterIs(w, t);
      AdmissionEffect(WithoutTimer(w), t, w.threads[t].use);
    }
  }

  lemma AdmitsEffect(w: World, step: Step)
    requires Admits(step) && Enabled(w, step)
    ensures AdmissionOnly(w, Next(w, step))
  {
    if step.Enter? {
      EnterEffect(w, step.t);
    } else {
      AdmissionEffect(w, step.t, w.threads[step.t].use);
    }
  }

  lemma LoopEffect(w: World, step: Step)
    requires (ByLoop(step) || step.StopCancels? || step.CloseCancels?) && Enabled(w, step)
    ensures var w' := Next(w, step); w'.loops.Keys == w.loops.Keys && w'.counted == w.counted && w'.armedAt == w.armedAt
  {
  }

  predicate Tears(step: Step) {
    || step.Fire? || step.StopRetire? || step.StopJoins? || step.StopClears? || step.StopSignals?
    || step.CloseLocks? || step.CloseJoins?
  }

  lemma TeardownEffect(w: World, step: Step)
    requires Tears(step) && Enabled(w, step)
    ensures var w' := Next(w, step); w'.loops == w.loops && w'.counted == w.counted && w'.armedAt == w.armedAt
  {
  }

  lemma LeaveEffect(w: World, t: nat)
    requires Enabled(w, Leave(t))
    ensures var w' := DoLeave(w, t);
            && w'.loops == w.loops && w'.counted == w.counted
            && (w'.armedAt == w.armedAt
                || (w'.sh.idleGen == w.sh.idleGen + 1 && w'.armedAt == w.armedAt[w'.sh.idleGen := w.counted]))
  {
  }

  lemma MoveEffect(w: World, step: Step)
    requires || step.Call? || step.CallClose? || step.RetirementSeen? || step.Look? || step.Notified? || step.TimeUp?
             || step.GiveUp?
    requires Enabled(w, step)
    ensures var w' := Next(w, step); w'.loops == w.loops && w'.counted == w.counted && w'.armedAt == w.armedAt
  {
  }

  lemma CallerEffect(w: World, step: Step)
    requires || step.Call? || step.CallClose? || step.RetirementSeen? || step.Look? || step.Notified? || step.TimeUp?
             || step.GiveUp? || step.Leave?
    requires Enabled(w, step)
    ensures var w' := Next(w, step);
            && w'.loops == w.loops && w'.counted == w.counted
            && (w'.armedAt == w.armedAt
                || (step.Leave? && w'.sh.idleGen == w.sh.idleGen + 1
                    && w'.armedAt == w.armedAt[w'.sh.idleGen := w.counted]))
  {
    if step.Leave? {
      LeaveEffect(w, step.t);
    } else {
      MoveEffect(w, step);
    }
  }

  lemma OthersEffect(w: World, step: Step)
    requires !Admits(step) && Enabled(w, step)
    ensures var w' := Next(w, step);
            && w'.loops.Keys == w.loops.Keys && w'.counted == w.counted
            && (w'.armedAt == w.armedAt
                || (step.Leave? && w'.sh.idleGen == w.sh.idleGen + 1
                    && w'.armedAt == w.armedAt[w'.sh.idleGen := w.counted]))
  {
    if ByLoop(step) || step.StopCancels? || step.CloseCancels? {
      LoopEffect(w, step);
    } else if Tears(step) {
      TeardownEffect(w, step);
    } else {
      CallerEffect(w, step);
    }
  }

  lemma StepStartsAlone(w: World, step: Step, l: nat)
    requires LoopsOk(w) && Enabled(w, step)
    requires l in Next(w, step).loops && l !in w.loops
    ensures !w.sh.closed
    ensures forall m :: !Live(w, m)
    ensures Live(Next(w, step), l)
  {
    if Admits(step) {
      AdmitsEffect(w, step);
    } else {
      OthersEffect(w, step);
    }
  }

  // Whether a held capture has a live loop.

  /** The loop whose cancel function is held was still starting or already held before this step. */
  lemma HeldBefore(w: World, step: Step, l: nat)
    requires LoopsOk(w) && Enabled(w, step) && Next(w, step).sh.cancel == Some(l)
    ensures w.sh.cancel == Some(l) || (l !in w.loops && LoopAt(Next(w, step), l, Starting))
  {
    if Admits(step) {
      AdmissionHolds(w, step, l);
    } else {
      OthersHold(w, step, l);
    }
  }

  lemma AdmissionHolds(w: World, step: Step, l: nat)
    requires LoopsOk(w) && Enabled(w, step) && Admits(step) && Next(w, step).sh.cancel == Some(l)
    ensures w.sh.cancel == Some(l) || (l !in w.loops && LoopAt(Next(w, step), l, Starting))
  {
  }

  lemma LoopsHold(w: World, step: Step, l: nat)
    requires Enabled(w, step) && (ByLoop(step) || step.StopCancels? || step.CloseCancels?)
    ensures Next(w, step).sh.cancel == w.sh.cancel
  {
  }

  lemma TeardownHolds(w: World, step: Step, l: nat)
    requires Enabled(w, step) && Tears(step) && Next(w, step).sh.cancel == Some(l)
    ensures w.sh.cancel == Some(l)
  {
  }

  lemma LeaveHolds(w: World, t: nat)
    requires Enabled(w, Leave(t))
    ensures DoLeave(w, t).sh.cancel == w.sh.cancel
  {
  }

  lemma CallersHold(w: World, step: Step, l: nat)
    requires || step.Call? || step.CallClose? || step.RetirementSeen? || step.Look? || step.Notified? || step.TimeUp?
             || step.GiveUp? || step.Leave?
    requires Enabled(w, step)
    ensures Next(w, step).sh.cancel == w.sh.cancel
  {
    if step.Leave? {
      LeaveHolds(w, step.t);
    } else {
      MovesHold(w, step);
    }
  }

  lemma MovesHold(w: World, step: Step)
    requires || step.Call? || step.CallClose? || step.RetirementSeen? || step.Look? || step.Notified? || step.TimeUp?
             || step.GiveUp?
    requires Enabled(w, step)
    ensures Next(w, step).sh == w.sh
  {
  }

  lemma OthersHold(w: World, step: Step, l: nat)
    requires LoopsOk(w) && Enabled(w, step) && !Admits(step) && Next(w, step).sh.cancel == Some(l)
    ensures w.sh.cancel == Some(l)
  {
    if ByLoop(step) || step.StopCancels? || step.CloseCancels? {
      LoopsHold(w, step, l);
    } else if Tears(step) {
      TeardownHolds(w, step, l);
    } else {
      CallersHold(w, step, l);
    }
  }

  /** While its cancel function is held a loop ends in one way only: its camera address did not resolve. */
  lemma HeldLoopEnds(w: World, step: Step, l: nat)
    requires LoopsOk(w) && Enabled(w, step) && w.sh.cancel == Some(l)
    requires !LoopAt(w, l, Exited) && LoopAt(Next(w, step), l, Exited)
    ensures step == LoopBegin(l, false)
  {
    if ByLoop(step) {
    } else if Admits(step) {
      AdmitsEffect(w, step);
    } else if !step.StopCancels? && !step.CloseCancels? {
      OthersEffect(w, step);
      LoopsOnlyByLoops(w, step);
    }
  }

  lemma LoopsOnlyByLoops(w: World, step: Step)
    requires Enabled(w, step) && !ByLoop(step) && !Admits(step) && !step.StopCancels? && !step.CloseCancels?
    ensures Next(w, step).loops == w.loops
  {
    if Tears(step) {
      TeardownEffect(w, step);
    } else {
      CallerEffect(w, step);
    }
  }

  lemma ExitedStays(w: World, step: Step, l: nat)
    requires LoopsOk(w) && Enabled(w, step) && LoopAt(w, l, Exited)
    ensures LoopAt(Next(w, step), l, Exited)
  {
    if ByLoop(step) || step.StopCancels? || step.CloseCancels? {
    } else if Admits(step) {
      AdmitsEffect(w, step);
    } else {
      LoopsOnlyByLoops(w, step);
    }
  }

  /** Before state i, loop l gave up because the camera's address did not resolve. */
  predicate Unresolved(steps: seq<Step>, i: nat, l: nat)
    requires i <= |steps|
  {
    exists k :: 0 <= k < i && steps[k] == LoopBegin(l, false)
  }

  lemma {:induction false} UnresolvedIsExited(ws: seq<World>, steps: seq<Step>, k: nat, i: nat, l: nat)
    requires Run(ws, steps) && k < i < |ws| && steps[k] == LoopBegin(l, false)
    ensures LoopAt(ws[i], l, Exited)
  {
    if k < i - 1 {
      UnresolvedIsExited(ws, steps, k, i - 1, l);
      RunKeeps(ws, steps, i - 1);
      ExitedStays(ws[i - 1], steps[i - 1], l);
    }
  }

  lemma {:induction false} ExitedIsUnresolved(ws: seq<World>, steps: seq<Step>, i: nat, l: nat)
    requires Run(ws, steps) && i < |ws| && ws[i].sh.cancel == Some(l) && LoopAt(ws[i], l, Exited)
    ensures Unresolved(steps, i, l)
  {
    if i > 0 {
      RunKeeps(ws, steps, i - 1);
      HeldBefore(ws[i - 1], steps[i - 1], l);
      if LoopAt(ws[i - 1], l, Exited) {
        ExitedIsUnresolved(ws, steps, i - 1, l);
      } else {
        HeldLoopEnds(ws[i - 1], steps[i - 1], l);
      }
    }
  }

  /**
   acquire joins a live loop unless that loop has given up: an open capture with consumers has a live loop if and
   only if the camera's address did not fail to resolve for its newest loop.
   */
  lemma ConsumersHaveLoopIff(ws: seq<World>, steps: seq<Step>, i: nat)
    requires Run(ws, steps) && i < |ws| && !ws[i].sh.closed && ws[i].sh.consumers > 0
    ensures (exists l :: Live(ws[i], l)) <==> !Unresolved(steps, i, ws[i].sh.done)
  {
    RunKeeps(ws, steps, i);
    var w, l := ws[i], ws[i].sh.done;
    assert LoopsOk(w) && CountOk(w) && w.sh.cancel == Some(l);
    assert (exists m :: Live(w, m)) <==> Live(w, l);
    if Unresolved(steps, i, l) {
      var k :| 0 <= k < i && steps[k] == LoopBegin(l, false);
      UnresolvedIsExited(ws, steps, k, i, l);
    } else if LoopAt(w, l, Exited) {
      ExitedIsUnresolved(ws, steps, i, l);
    }
  }

  /**
   No wake-up is lost: a goroutine blocked in select waits on a closed channel, or on one that exactly
   the live loop is about to close, or on the current channel of an open capture whose newest frame it
   has already seen. And no channel is ever closed twice.
   */
  lemma NoLostWakeup(ws: seq<World>, steps: seq<Step>, i: nat, t: nat)
    requires Run(ws, steps) && i < |ws|
    ensures !ws[i].panicked
    ensures t in ws[i].threads && ws[i].threads[t].Selecting? ==>
              var pc := ws[i].threads[t];
              || pc.on in ws[i].shutNotify
              || (exists l :: LoopAt(ws[i], l, Waking(pc.on)) && forall m :: LoopAt(ws[i], m, Waking(pc.on)) ==> m == l)
              || (pc.on == ws[i].sh.notify && !ws[i].sh.closed && pc.seen == ws[i].sh.frame)
  {
    RunKeeps(ws, steps, i);
    if t in ws[i].threads && ws[i].threads[t].Selecting? {
      WaiterIsServed(ws[i], t);
    }
  }

  lemma WaiterIsServed(w: World, t: nat)
    requires NotifyOk(w) && LoopsOk(w) && t in w.threads && w.threads[t].Selecting?
    ensures var pc := w.threads[t];
            || pc.on in w.shutNotify
            || (exists l :: LoopAt(w, l, Waking(pc.on)) && forall m :: LoopAt(w, m, Waking(pc.on)) ==> m == l)
            || (pc.on == w.sh.notify && !w.sh.closed && pc.seen == w.sh.frame)
  {
    var n := w.threads[t].on;
    if n != w.sh.notify && n !in w.shutNotify {
      assert LoopAt(w, w.sh.done, Waking(n));
    }
  }

  /** wait hands out only frames newer than the one asked for, and nothing once the capture closed. */
  lemma WaitReturnsNewer(w: World, t: nat, now: int, after: nat)
    requires t in w.threads && w.threads[t].Holding? && w.threads[t].use == WaitFor(after)
    ensures var pc := DoLook(w, t, now).threads[t];
            pc.Leaving? && pc.got > 0 <==> !w.sh.closed && w.sh.frame > after
    ensures var pc := DoLook(w, t, now).threads[t];
            && (pc.Leaving? && pc.got > 0 ==> pc.got == w.sh.frame)
            && (pc.Selecting? ==> !w.sh.closed && w.sh.frame <= after)
  {
  }

  // The idle generation.

  lemma StepCounts(w: World, step: Step)
    requires TimersOk(w) && Enabled(w, step)
    ensures var w' := Next(w, step);
            && w.counted <= w'.counted
            && (forall g :: g in w.armedAt ==> g in w'.armedAt && w'.armedAt[g] == w.armedAt[g])
            && (forall g :: g in w'.armedAt && g !in w.armedAt ==>
                  step.Leave? && g == w.sh.idleGen + 1 == w'.sh.idleGen && w'.armedAt[g] == w'.counted)
  {
    if Admits(step) {
      AdmitsEffect(w, step);
    } else {
      OthersEffect(w, step);
    }
  }

  lemma CountedStep(ws: seq<World>, steps: seq<Step>, k: nat)
    requires Run(ws, steps) && k < |steps|
    ensures ws[k].counted <= ws[k + 1].counted
  {
    RunKeeps(ws, steps, k);
    StepCounts(ws[k], steps[k]);
  }

  lemma {:induction false} NeverFewer(ws: seq<World>, i: nat, j: nat)
    requires i <= j < |ws| && forall k: nat :: i <= k < j ==> ws[k].counted <= ws[k + 1].counted
    ensures ws[i].counted <= ws[j].counted
  {
    if i < j {
      NeverFewer(ws, i, j - 1);
    }
  }

  lemma CountedGrows(ws: seq<World>, steps: seq<Step>, i: nat, j: nat)
    requires Run(ws, steps) && i <= j < |ws|
    ensures ws[i].counted <= ws[j].counted
  {
    forall k: nat | i <= k < j ensures ws[k].counted <= ws[k + 1].counted {
      CountedStep(ws, steps, k);
    }
    NeverFewer(ws, i, j);
  }

  /** Step i of the run is the release that armed generation g. */
  ghost predicate Arms(ws: seq<World>, steps: seq<Step>, i: nat, g: nat) {
    i < |steps| && i + 1 < |ws| && steps[i].Leave? && g == ws[i].sh.idleGen + 1 == ws[i + 1].sh.idleGen
  }

  lemma {:induction false} ArmedSomewhere(ws: seq<World>, steps: seq<Step>, j: nat, g: nat) returns (i: nat)
    requires Run(ws, steps) && j < |ws| && g in ws[j].armedAt
    ensures i < j && Arms(ws, steps, i, g) && ws[i + 1].counted == ws[j].armedAt[g]
  {
    if j > 0 {
      RunKeeps(ws, steps, j - 1);
      StepCounts(ws[j - 1], steps[j - 1]);
      if g in ws[j - 1].armedAt {
        i := ArmedSomewhere(ws, steps, j - 1, g);
      } else {
        i := j - 1;
      }
    }
  }

  /**
   A timer callback retires the loop only if no acquire was counted between the release that armed
   its generation and the retirement, whatever other timers are still pending.
   */
  lemma RetiresOnlyUnused(ws: seq<World>, steps: seq<Step>, j: nat, t: nat)
    requires Run(ws, steps) && j < |ws| && MayRetire(ws[j], t)
    ensures exists i :: 0 <= i < j && Arms(ws, steps, i, ws[j].threads[t].gen)
              && forall k :: i < k <= j ==> ws[k].counted == ws[i + 1].counted
  {
    RunKeeps(ws, steps, j);
    var g := ws[j].threads[t].gen;
    assert IdleOk(ws[j]) && TimersOk(ws[j]);
    var i := ArmedSomewhere(ws, steps, j, g);
    forall k | i < k <= j
      ensures ws[k].counted == ws[i + 1].counted
    {
      CountedGrows(ws, steps, i + 1, k);
      CountedGrows(ws, steps, k, j);
    }
  }

  // Shutdown.

  /** The effective close has returned. */
  predicate CloseReturned(w: World) {
    w.sh.closed && w.closer in w.threads && w.threads[w.closer].Finished?
  }

  lemma ReturnedIsQuiet(w: World)
    requires Inv(w) && CloseReturned(w)
    ensures forall l :: !Live(w, l)
  {
    assert LoopsOk(w) && CloseOk(w) && Quiet(w);
  }

  lemma ReturnedStays(w: World, step: Step)
    requires Inv(w) && CloseReturned(w) && Enabled(w, step)
    ensures CloseReturned(Next(w, step)) && Next(w, step).loops.Keys == w.loops.Keys
  {
    if Admits(step) {
      AdmitsEffect(w, step);
    } else {
      OthersEffect(w, step);
    }
    ClosedStays(w, step);
  }

  lemma AdmissionSparesFinished(w: World, step: Step, t: nat)
    requires Admits(step) && Enabled(w, step) && At(w, t, Finished)
    ensures At(Next(w, step), t, Finished)
  {
  }

  lemma LoopSparesFinished(w: World, step: Step, t: nat)
    requires ByLoop(step) && Enabled(w, step) && At(w, t, Finished)
    ensures At(Next(w, step), t, Finished)
  {
  }

  lemma TeardownSparesFinished(w: World, step: Step, t: nat)
    requires (Tears(step) || step.StopCancels? || step.CloseCancels?) && Enabled(w, step) && At(w, t, Finished)
    ensures At(Next(w, step), t, Finished)
  {
  }

  lemma CallersSpareFinished(w: World, step: Step, t: nat)
    requires !Admits(step) && !ByLoop(step) && !Tears(step) && !step.StopCancels? && !step.CloseCancels?
    requires Enabled(w, step) && At(w, t, Finished)
    ensures At(Next(w, step), t, Finished)
  {
  }

  lemma FinishedStays(w: World, step: Step, t: nat)
    requires Enabled(w, step) && At(w, t, Finished)
    ensures At(Next(w, step), t, Finished)
  {
    if Admits(step) {
      AdmissionSparesFinished(w, step, t);
    } else if ByLoop(step) {
      LoopSparesFinished(w, step, t);
    } else if Tears(step) || step.StopCancels? || step.CloseCancels? {
      TeardownSparesFinished(w, step, t);
    } else {
      CallersSpareFinished(w, step, t);
    }
  }

  lemma CloserStays(w: World, step: Step)
    requires w.sh.closed && Enabled(w, step)
    ensures Next(w, step).sh.closed && Next(w, step).closer == w.closer
  {
  }

  /** A finished goroutine stays finished, and the effective close stays the only one. */
  lemma ClosedStays(w: World, step: Step)
    requires Enabled(w, step) && CloseReturned(w)
    ensures CloseReturned(Next(w, step))
  {
    FinishedStays(w, step, w.closer);
    CloserStays(w, step);
  }

  lemma {:induction false} ReturnedPersists(ws: seq<World>, steps: seq<Step>, i: nat, j: nat)
    requires Run(ws, steps) && i <= j < |ws| && CloseReturned(ws[i])
    ensures CloseReturned(ws[j]) && ws[j].loops.Keys == ws[i].loops.Keys
  {
    if i < j {
      ReturnedPersists(ws, steps, i, j - 1);
      RunKeeps(ws, steps, j - 1);
      ReturnedStays(ws[j - 1], steps[j - 1]);
    }
  }

  /** Once the effective close has returned no loop is live and none ever starts, whoever still calls in. */
  lemma ClosedForGood(ws: seq<World>, steps: seq<Step>, i: nat, j: nat)
    requires Run(ws, steps) && i <= j < |ws| && CloseReturned(ws[i])
    ensures ws[j].loops.Keys == ws[i].loops.Keys
    ensures forall l :: !Live(ws[j], l)
  {
    ReturnedPersists(ws, steps, i, j);
    RunKeeps(ws, steps, j);
    ReturnedIsQuiet(ws[j]);
  }

  // Two idle timers can be pending at once.

  ghost predicate Reachable(w: World) {
    exists ws, steps :: Run(ws, steps) && ws[|steps|] == w
  }

  lemma ReachableStart()
    ensures Reachable(Start)
  {
    assert Run([Start], []);
  }

  lemma ReachableNext(w: World, step: Step)
    requires Reachable(w) && Enabled(w, step)
    ensures Reachable(Next(w, step))
  {
    var ws, steps :| Run(ws, steps) && ws[|steps|] == w;
    assert Run(ws + [Next(w, step)], steps + [step]);
  }

  lemma FirstCaller() returns (w: World)
    ensures Reachable(w)
    ensures w.sh == Shared(1, 0, false, false, 0, None, 0, 0, 0, Some(1), 1, 0)
    ensures w.timers == {} && w.shutRetired == {} && w.loops == map[1 := Loop(false, Starting)]
    ensures w.threads == map[1 := Holding(Stream, true)]
  {
    ReachableStart();
    w := Start;
    ReachableNext(w, Call(1, Stream)); w := Next(w, Call(1, Stream));
    ReachableNext(w, Enter(1)); w := Next(w, Enter(1));
  }

  /** The first caller's loop ended at once: the camera's address did not resolve. */
  lemma FirstLoopGaveUp() returns (w: World)
    ensures Reachable(w)
    ensures w.sh == Shared(1, 0, false, false, 0, None, 0, 0, 0, Some(1), 1, 0)
    ensures w.loops == map[1 := Loop(false, Exited)] && w.threads == map[1 := Holding(Stream, true)]
  {
    w := FirstCaller();
    ReachableNext(w, LoopBegin(1, false));
    w := Next(w, LoopBegin(1, false));
  }

  /**
   The comment on acquire fails when the camera's address does not resolve: a consumer joins a loop that has
   ended.
   */
  lemma ConsumersCanLackLoop()
    ensures exists w :: Reachable(w) && !w.sh.closed && w.sh.consumers == 2 && forall l :: !Live(w, l)
  {
    var w := FirstLoopGaveUp();
    ReachableNext(w, Call(2, Stream)); w := Next(w, Call(2, Stream));
    ReachableNext(w, Enter(2)); w := Next(w, Enter(2));
    assert w.loops == map[1 := Loop(false, Exited)];
  }

  /** One caller came and went. */
  lemma CallerCameAndWent() returns (w: World)
    ensures Reachable(w)
    ensures w.sh == Shared(0, 0, false, false, 0, Some(1), 1, 0, 0, Some(1), 1, 0)
    ensures w.timers == {1} && w.shutRetired == {} && w.loops == map[1 := Loop(false, Starting)]
    ensures w.threads == map[1 := Finished]
  {
    w := FirstCaller();
    ReachableNext(w, GiveUp(1)); w := Next(w, GiveUp(1));
    ReachableNext(w, Leave(1)); w := Next(w, Leave(1));
  }

  lemma TimerFired() returns (w: World)
    ensures Reachable(w)
    ensures w.sh == Shared(0, 0, false, false, 0, Some(1), 1, 0, 0, Some(1), 1, 0)
    ensures w.timers == {} && w.shutRetired == {} && w.loops == map[1 := Loop(false, Starting)]
    ensures w.threads == map[1 := Finished, 2 := StopFired(1)]
  {
    w := CallerCameAndWent();
    ReachableNext(w, Fire(2, 1));
    w := Next(w, Fire(2, 1));
  }

  /** Its timer fired, and the callback is retiring the loop. */
  lemma RetirementUnderWay() returns (w: World)
    ensures Reachable(w)
    ensures w.sh == Shared(0, 0, false, true, 1, None, 1, 0, 0, None, 1, 0)
    ensures w.timers == {} && w.shutRetired == {} && w.loops == map[1 := Loop(false, Starting)]
    ensures w.threads == map[1 := Finished, 2 := StopCancel(1)]
  {
    w := TimerFired();
    ReachableNext(w, StopRetire(2));
    w := Next(w, StopRetire(2));
  }

  /** Two callers arrive during the retirement and block. */
  lemma TwoCallersBlocked() returns (w: World)
    ensures Reachable(w)
    ensures w.sh == Shared(0, 0, false, true, 1, None, 1, 0, 0, None, 1, 0)
    ensures w.timers == {} && w.shutRetired == {} && w.loops == map[1 := Loop(false, Starting)]
    ensures At(w, 2, StopCancel(1)) && At(w, 3, BlockedOn(Stream, 1)) && At(w, 4, BlockedOn(Stream, 1))
  {
    w := RetirementUnderWay();
    ReachableNext(w, Call(3, Stream)); w := Next(w, Call(3, Stream));
    ReachableNext(w, Enter(3)); w := Next(w, Enter(3));
    ReachableNext(w, Call(4, Stream)); w := Next(w, Call(4, Stream));
    ReachableNext(w, Enter(4)); w := Next(w, Enter(4));
  }

  /** The retirement completes while both still wait to be scheduled. */
  lemma TwoCallersWaited() returns (w: World)
    ensures Reachable(w)
    ensures w.sh == Shared(0, 0, false, false, 1, None, 1, 0, 0, None, 1, 0)
    ensures w.timers == {} && w.shutRetired == {1}
    ensures At(w, 3, BlockedOn(Stream, 1)) && At(w, 4, BlockedOn(Stream, 1))
  {
    w := TwoCallersBlocked();
    ReachableNext(w, StopCancels(2)); w := Next(w, StopCancels(2));
    ReachableNext(w, LoopBegin(1, false)); w := Next(w, LoopBegin(1, false));
    ReachableNext(w, StopJoins(2)); w := Next(w, StopJoins(2));
    ReachableNext(w, StopClears(2)); w := Next(w, StopClears(2));
    ReachableNext(w, StopSignals(2)); w := Next(w, StopSignals(2));
  }

  /** The first of them starts a loop. */
  lemma FirstIsAdmitted() returns (w: World)
    ensures Reachable(w)
    ensures w.sh == Shared(1, 0, false, false, 1, None, 1, 0, 0, Some(2), 2, 0)
    ensures w.timers == {} && w.shutRetired == {1}
    ensures At(w, 3, Holding(Stream, true)) && At(w, 4, BlockedOn(Stream, 1))
  {
    w := TwoCallersWaited();
    ReachableNext(w, RetirementSeen(3)); w := Next(w, RetirementSeen(3));
    ReachableNext(w, Reenter(3)); w := Next(w, Reenter(3));
  }

  /** Then it goes, arming a timer. */
  lemma OneTimerPending() returns (w: World)
    ensures Reachable(w)
    ensures w.sh == Shared(0, 0, false, false, 1, Some(2), 2, 0, 0, Some(2), 2, 0)
    ensures w.timers == {2} && w.shutRetired == {1} && At(w, 4, BlockedOn(Stream, 1))
  {
    w := FirstIsAdmitted();
    ReachableNext(w, GiveUp(3)); w := Next(w, GiveUp(3));
    ReachableNext(w, Leave(3)); w := Next(w, Leave(3));
  }

  /**
   The comment in release claims at most one pending timer. A caller that waited for a retirement does
   not stop the timer armed meanwhile, so two can be pending; RetiresOnlyUnused is what still holds.
   */
  lemma TwoTimersCanBePending()
    ensures exists w :: Reachable(w) && !w.sh.closed && w.timers == {2, 3}
  {
    var w := OneTimerPending();
    ReachableNext(w, RetirementSeen(4)); w := Next(w, RetirementSeen(4));
    ReachableNext(w, Reenter(4)); w := Next(w, Reenter(4));
    ReachableNext(w, GiveUp(4)); w := Next(w, GiveUp(4));
    ReachableNext(w, Leave(4)); w := Next(w, Leave(4));
    assert w.timers == {2, 3};
  }

  /** Every pending timer is the one the capture would stop. */
  ghost predicate NoneForgotten(w: World) {
    forall g :: g in w.timers ==> w.sh.idle == Some(g)
  }

  /** The release arms a timer while the capture's own timer is still pending. */
  predicate ArmsOver(w: World, step: Step)
    requires Enabled(w, step)
  {
    step.Leave? && CaptureState.Release(w.sh).1.Some? && w.sh.idle.Some? && w.sh.idle.value in w.timers
  }

  /** The comment fails exactly at a release that arms over a timer still pending. */
  lemma TimerForgottenIff(w: World, step: Step)
    requires TimersOk(w) && NoneForgotten(w) && Enabled(w, step)
    ensures NoneForgotten(Next(w, step)) <==> !ArmsOver(w, step)
  {
    if Admits(step) {
      AdmissionTimers(w, step);
    } else if step.Leave? || step.StopRetire? || step.CloseLocks? || step.Fire? {
      ArmTimers(w, step);
    } else {
      QuietTimers(w, step);
    }
  }

  lemma AdmissionTimers(w: World, step: Step)
    requires NoneForgotten(w) && Admits(step) && Enabled(w, step)
    ensures NoneForgotten(Next(w, step))
  {
  }

  lemma QuietTimers(w: World, step: Step)
    requires !Admits(step) && !step.Leave? && !step.StopRetire? && !step.CloseLocks? && !step.Fire? && Enabled(w, step)
    ensures Next(w, step).timers == w.timers && Next(w, step).sh.idle == w.sh.idle
  {
  }

  lemma ArmTimers(w: World, step: Step)
    requires TimersOk(w) && NoneForgotten(w) && Enabled(w, step)
    requires step.Leave? || step.StopRetire? || step.CloseLocks? || step.Fire?
    ensures NoneForgotten(Next(w, step)) <==> !ArmsOver(w, step)
  {
  }

  /** Entering an open capture and closing one stop the capture's own timer, so that none is left pending. */
  lemma TimerIsStopped(w: World, step: Step)
    requires TimersOk(w) && NoneForgotten(w) && Enabled(w, step) && !w.sh.closed && (step.Enter? || step.CloseLocks?)
    ensures Next(w, step).timers == {} && Next(w, step).sh.idle.None?
  {
  }
}
