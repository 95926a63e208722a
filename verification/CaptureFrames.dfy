/** Which frames a capture hands out, told from the steps of a run alone. */
module CaptureFrames {
  import opened Options
  import opened CaptureState
  import opened CaptureProtocol
  import opened CaptureInvariant
  import opened CaptureTheorems
  import opened CaptureLiveness

  /** Before state i some close took effect. */
  predicate CloseBegan(steps: seq<Step>, i: nat)
    requires i <= |steps|
  {
    exists j :: 0 <= j < i && steps[j].CloseLocks?
  }

  /** Step k publishes a frame: a loop has read one and no close has begun. */
  predicate Publishes(steps: seq<Step>, k: nat)
    requires k < |steps|
  {
    steps[k].LoopPublish? && !CloseBegan(steps, k)
  }

  /** How many frames were published before state i. */
  function Published(steps: seq<Step>, i: nat): nat
    requires i <= |steps|
  {
    if i == 0 then 0 else Published(steps, i - 1) + if Publishes(steps, i - 1) then 1 else 0
  }

  /** Step k published the newest frame there is in state i, captured at this time. */
  predicate Newest(steps: seq<Step>, k: nat, i: nat, captured: int)
    requires k < i <= |steps|
  {
    Publishes(steps, k) && steps[k].now == captured && forall j :: k < j < i ==> !Publishes(steps, j)
  }

  /** The closed flag and the newest frame are as before. */
  predicate SameFrame(w: World, w': World) {
    w'.sh.closed == w.sh.closed && w'.sh.frame == w.sh.frame && w'.sh.captured == w.sh.captured
  }

  lemma AdmissionSparesFrame(w: World, step: Step)
    requires Admits(step) && Enabled(w, step)
    ensures SameFrame(w, Next(w, step))
  {
  }

  lemma LoopSparesFrame(w: World, step: Step)
    requires ByLoop(step) && Enabled(w, step)
    ensures var w' := Next(w, step);
            if step.LoopPublish? && !w.sh.closed then
              !w'.sh.closed && w'.sh.frame == w.sh.frame + 1 && w'.sh.captured == step.now
            else SameFrame(w, w')
  {
  }

  lemma CloseSparesFrame(w: World, t: nat)
    requires Enabled(w, CloseLocks(t))
    ensures SameFrame(w.(sh := w.sh.(closed := true)), DoCloseLocks(w, t))
  {
  }

  lemma TeardownSparesFrame(w: World, step: Step)
    requires (Tears(step) || step.StopCancels? || step.CloseCancels?) && !step.CloseLocks? && Enabled(w, step)
    ensures SameFrame(w, Next(w, step))
  {
  }

  lemma LeaveSparesFrame(w: World, t: nat)
    requires Enabled(w, Leave(t))
    ensures SameFrame(w, DoLeave(w, t))
  {
  }

  /** Only a close closes, and only a publishing loop on an open capture makes a frame. */
  lemma FrameStep(w: World, step: Step)
    requires Enabled(w, step)
    ensures var w' := Next(w, step);
            && w'.sh.closed == (w.sh.closed || step.CloseLocks?)
            && if step.LoopPublish? && !w.sh.closed then w'.sh.frame == w.sh.frame + 1 && w'.sh.captured == step.now
               else w'.sh.frame == w.sh.frame && w'.sh.captured == w.sh.captured
  {
    if Admits(step) {
      AdmissionSparesFrame(w, step);
    } else if ByLoop(step) {
      LoopSparesFrame(w, step);
    } else if step.CloseLocks? {
      CloseSparesFrame(w, step.t);
    } else if Tears(step) || step.StopCancels? || step.CloseCancels? {
      TeardownSparesFrame(w, step);
    } else if step.Leave? {
      LeaveSparesFrame(w, step.t);
    } else {
      MovesHold(w, step);
    }
  }

  predicate NewestCaptured(steps: seq<Step>, i: nat, captured: int)
    requires i <= |steps|
  {
    exists k :: 0 <= k < i && Newest(steps, k, i, captured)
  }

  lemma OneMoreNewest(steps: seq<Step>, i: nat, captured: int)
    requires i < |steps|
    ensures Publishes(steps, i) ==> NewestCaptured(steps, i + 1, steps[i].now)
    ensures !Publishes(steps, i) && NewestCaptured(steps, i, captured) ==> NewestCaptured(steps, i + 1, captured)
  {
    if Publishes(steps, i) {
      assert Newest(steps, i, i + 1, steps[i].now);
    } else if NewestCaptured(steps, i, captured) {
      var k :| 0 <= k < i && Newest(steps, k, i, captured);
      assert Newest(steps, k, i + 1, captured);
    }
  }

  /** Frames are numbered in the order they are published, and the newest keeps its capture time. */
  lemma {:induction false} FramesNumbered(ws: seq<World>, steps: seq<Step>, i: nat)
    requires Run(ws, steps) && i < |ws|
    ensures ws[i].sh.closed <==> CloseBegan(steps, i)
    ensures ws[i].sh.frame == Published(steps, i)
    ensures Published(steps, i) > 0 ==> NewestCaptured(steps, i, ws[i].sh.captured)
  {
    if i > 0 {
      FramesNumbered(ws, steps, i - 1);
      FrameStep(ws[i - 1], steps[i - 1]);
      OneMoreNewest(steps, i - 1, ws[i].sh.captured);
    }
  }

  lemma OneNewest(steps: seq<Step>, k: nat, j: nat, i: nat, captured: int, other: int)
    requires k < i <= |steps| && j < i && Newest(steps, k, i, captured) && Newest(steps, j, i, other)
    ensures captured == other
  {
  }

  /** The newest frame in state i exists and was captured at most five seconds before now. */
  ghost predicate FreshAt(steps: seq<Step>, i: nat, now: int)
    requires i <= |steps|
  {
    exists k, captured :: 0 <= k < i && Newest(steps, k, i, captured) && now - captured <= 5000
  }

  lemma FreshIff(ws: seq<World>, steps: seq<Step>, i: nat, now: int)
    requires Run(ws, steps) && i < |ws|
    ensures FreshAt(steps, i, now) <==> ws[i].sh.frame > 0 && now - ws[i].sh.captured <= 5000
  {
    FramesNumbered(ws, steps, i);
    if Published(steps, i) > 0 {
      var k :| 0 <= k < i && Newest(steps, k, i, ws[i].sh.captured);
      if FreshAt(steps, i, now) {
        var j, captured :| 0 <= j < i && Newest(steps, j, i, captured) && now - captured <= 5000;
        OneNewest(steps, k, j, i, ws[i].sh.captured, captured);
      }
    } else if FreshAt(steps, i, now) {
      var j, captured :| 0 <= j < i && Newest(steps, j, i, captured);
      PublishedCounts(steps, j, i);
    }
  }

  lemma {:induction false} PublishedCounts(steps: seq<Step>, k: nat, i: nat)
    requires k < i <= |steps| && Publishes(steps, k)
    ensures Published(steps, i) > 0
  {
    if k < i - 1 {
      PublishedCounts(steps, k, i - 1);
    }
  }

  /**
   A snapshot that looks takes a frame if and only if no close has begun and the newest frame published so far is at
   most five seconds old, and then it takes that frame. Otherwise it waits on the current channel while the capture
   is open, and leaves with nothing when it is closed or its time is up.
   */
  lemma SnapshotServesIff(ws: seq<World>, steps: seq<Step>, i: nat)
    requires Run(ws, steps) && i < |steps| && (steps[i].Look? || steps[i].TimeUp?)
    requires ws[i].threads[steps[i].t].use.Snapshot?
    ensures var t, now := steps[i].t, steps[i].now;
            var counted := ws[i].threads[t].counted;
            t in ws[i + 1].threads
            && ws[i + 1].threads[t] ==
               if !CloseBegan(steps, i) && FreshAt(steps, i, now) then Leaving(counted, Published(steps, i))
               else if CloseBegan(steps, i) || steps[i].TimeUp? then Leaving(counted, 0)
               else Selecting(Snapshot, counted, ws[i].sh.notify, Published(steps, i))
  {
    FramesNumbered(ws, steps, i);
    FreshIff(ws, steps, i, steps[i].now);
    assert ws[i + 1] == Next(ws[i], steps[i]);
  }

  /** A wait that looks takes the newest frame exactly when no close has begun and it is newer than the one known. */
  lemma WaitServesIff(ws: seq<World>, steps: seq<Step>, i: nat, after: nat)
    requires Run(ws, steps) && i < |steps| && steps[i].Look? && ws[i].threads[steps[i].t].use == WaitFor(after)
    ensures var t := steps[i].t;
            var counted := ws[i].threads[t].counted;
            t in ws[i + 1].threads
            && ws[i + 1].threads[t] ==
               if CloseBegan(steps, i) then Leaving(counted, 0)
               else if Published(steps, i) > after then Leaving(counted, Published(steps, i))
               else Selecting(WaitFor(after), counted, ws[i].sh.notify, Published(steps, i))
  {
    FramesNumbered(ws, steps, i);
    assert ws[i + 1] == Next(ws[i], steps[i]);
  }

  // Who is admitted.

  /** Some goroutine is retiring the idle loop. */
  ghost predicate Retires(w: World) {
    exists u :: u in w.threads && Retiring(w.threads[u])
  }

  lemma AdmissionIs(w: World, step: Step)
    requires Admits(step) && Enabled(w, step)
    ensures var t := step.t;
            var use := w.threads[t].use;
            At(Next(w, step), t,
               if step.Enter? && w.sh.closed then Holding(use, false)
               else if w.sh.stopping && w.sh.cancel.None? then BlockedOn(use, w.sh.retired)
               else Holding(use, !w.sh.closed))
  {
  }

  lemma RetiresIsStopping(w: World)
    requires StopOk(w)
    ensures Retires(w) <==> w.sh.stopping && w.sh.cancel.None?
  {
  }

  /**
   A caller is counted exactly when no close has begun and no retirement is under way. A close turns it away at once,
   a retirement makes it wait, and a caller that has waited looks for the next retirement before the close.
   */
  lemma AdmittedIff(ws: seq<World>, steps: seq<Step>, i: nat)
    requires Run(ws, steps) && i < |steps| && Admits(steps[i])
    ensures var t := steps[i].t;
            var use := ws[i].threads[t].use;
            t in ws[i + 1].threads
            && ws[i + 1].threads[t] ==
               if steps[i].Enter? && CloseBegan(steps, i) then Holding(use, false)
               else if Retires(ws[i]) then BlockedOn(use, ws[i].sh.retired)
               else Holding(use, !CloseBegan(steps, i))
  {
    RunKeeps(ws, steps, i);
    FramesNumbered(ws, steps, i);
    RetiresIsStopping(ws[i]);
    AdmissionIs(ws[i], steps[i]);
  }

  lemma LeaveArms(w: World, t: nat)
    requires Enabled(w, Leave(t))
    ensures var w' := DoLeave(w, t);
            && w'.holders == w.holders - {t}
            && w'.timers == if !w.sh.closed && w.sh.consumers <= 1 && w.sh.cancel.Some?
                            then w.timers + {w.sh.idleGen + 1} else w.timers
  {
  }

  lemma LastHolder(w: World, t: nat)
    requires CountOk(w) && Enabled(w, Leave(t)) && !w.sh.closed
    ensures w.sh.consumers <= 1 <==> w.holders - {t} == {}
  {
    assert t in w.holders;
    assert |w.holders - {t}| == |w.holders| - 1;
  }

  /** A leaving caller arms a timer of a new generation exactly when it leaves nobody on an open capture with a loop. */
  lemma LastLeaverArmsIff(ws: seq<World>, steps: seq<Step>, i: nat)
    requires Run(ws, steps) && i < |steps| && steps[i].Leave?
    ensures var w, w' := ws[i], ws[i + 1];
            w'.timers == if !CloseBegan(steps, i) && w'.holders == {} && w.sh.cancel.Some?
                         then w.timers + {w.sh.idleGen + 1} else w.timers
    ensures ws[i].sh.idleGen + 1 !in ws[i].timers
  {
    RunKeeps(ws, steps, i);
    FramesNumbered(ws, steps, i);
    LeaveArms(ws[i], steps[i].t);
    if !ws[i].sh.closed {
      LastHolder(ws[i], steps[i].t);
    }
    NewGeneration(ws[i]);
  }

  lemma NewGeneration(w: World)
    requires TimersOk(w)
    ensures w.sh.idleGen + 1 !in w.timers
  {
  }

  // A published frame reaches whoever waits for it.

  /** Only waits and snapshots block for a frame, and a waiter has seen nothing newer than it asked after. */
  predicate SeenOk(w: World) {
    forall t :: t in w.threads && w.threads[t].Selecting? ==>
      match w.threads[t].use
      case Stream => false
      case WaitFor(after) => w.threads[t].seen <= after
      case Snapshot => true
  }

  lemma AdmissionKeepsSeen(w: World, step: Step)
    requires SeenOk(w) && Admits(step) && Enabled(w, step)
    ensures SeenOk(Next(w, step))
  {
  }

  lemma LoopKeepsSeen(w: World, step: Step)
    requires SeenOk(w) && ByLoop(step) && Enabled(w, step)
    ensures SeenOk(Next(w, step))
  {
    LoopKeepsThreads(w, step);
  }

  lemma LookKeepsSeen(w: World, step: Step)
    requires SeenOk(w) && (step.Look? || step.TimeUp?) && Enabled(w, step)
    ensures SeenOk(Next(w, step))
  {
  }

  lemma CloseKeepsSeen(w: World, t: nat)
    requires SeenOk(w) && Enabled(w, CloseLocks(t))
    ensures SeenOk(DoCloseLocks(w, t))
  {
  }

  lemma TeardownKeepsSeen(w: World, step: Step)
    requires SeenOk(w) && (Tears(step) || step.StopCancels? || step.CloseCancels?) && !step.CloseLocks?
    requires Enabled(w, step)
    ensures SeenOk(Next(w, step))
  {
  }

  lemma CallerKeepsSeen(w: World, step: Step)
    requires SeenOk(w) && !Admits(step) && !ByLoop(step) && !step.Look? && !step.TimeUp? && Enabled(w, step)
    requires !Tears(step) && !step.StopCancels? && !step.CloseCancels?
    ensures SeenOk(Next(w, step))
  {
  }

  lemma {:induction false} RunKeepsSeen(ws: seq<World>, steps: seq<Step>, i: nat)
    requires Run(ws, steps) && i < |ws|
    ensures SeenOk(ws[i])
  {
    if i > 0 {
      var w, step := ws[i - 1], steps[i - 1];
      RunKeepsSeen(ws, steps, i - 1);
      if Admits(step) {
        AdmissionKeepsSeen(w, step);
      } else if ByLoop(step) {
        LoopKeepsSeen(w, step);
      } else if step.Look? || step.TimeUp? {
        LookKeepsSeen(w, step);
      } else if step.CloseLocks? {
        CloseKeepsSeen(w, step.t);
      } else if Tears(step) || step.StopCancels? || step.CloseCancels? {
        TeardownKeepsSeen(w, step);
      } else {
        CallerKeepsSeen(w, step);
      }
    }
  }

  /** What a look at this time hands over: nothing once closed, the newest frame when it serves. */
  predicate Serves(w: World, use: Use, now: int) {
    !w.sh.closed && match use
                    case Stream => false
                    case WaitFor(after) => w.sh.frame > after
                    case Snapshot => w.sh.frame > 0 && now - w.sh.captured <= 5000
  }

  lemma WokenLooks(w: World, t: nat, now: int) returns (ws: seq<World>, steps: seq<Step>)
    requires t in w.threads && w.threads[t].Selecting? && !w.threads[t].use.Stream? && w.threads[t].on in w.shutNotify
    requires w.sh.closed || Serves(w, w.threads[t].use, now)
    ensures Path(ws, steps) && ws[0] == w && |steps| == 2
    ensures At(ws[2], t, Leaving(w.threads[t].counted, if w.sh.closed then 0 else w.sh.frame))
  {
    var w1 := Next(w, Notified(t));
    var w2 := Next(w1, Look(t, now));
    ws, steps := [w, w1, w2], [Notified(t), Look(t, now)];
  }

  lemma WakeSpares(w: World, l: nat, t: nat)
    requires Enabled(w, LoopWake(l)) && t in w.threads
    ensures var w' := Next(w, LoopWake(l));
            w'.sh == w.sh && w'.threads == w.threads && w'.shutNotify == w.shutNotify + {w.loops[l].phase.channel}
  {
  }

  /**
   From every state of every run: once a frame that serves it was published, or a close has begun, a blocked caller can
   be on its way out with that frame, or with nothing, after at most three steps.
   */
  lemma BlockedWaiterIsServed(ws: seq<World>, steps: seq<Step>, i: nat, t: nat, now: int)
    returns (vs: seq<World>, path: seq<Step>)
    requires Run(ws, steps) && i < |ws| && t in ws[i].threads && ws[i].threads[t].Selecting?
    requires var pc := ws[i].threads[t];
             CloseBegan(steps, i)
             || match pc.use
                case Stream => false
                case WaitFor(after) => Published(steps, i) > after
                case Snapshot => Published(steps, i) > pc.seen && FreshAt(steps, i, now)
    ensures Path(vs, path) && vs[0] == ws[i] && |path| <= 3
    ensures At(vs[|path|], t,
               Leaving(ws[i].threads[t].counted, if CloseBegan(steps, i) then 0 else Published(steps, i)))
  {
    var w := ws[i];
    FramesNumbered(ws, steps, i);
    FreshIff(ws, steps, i, now);
    RunKeepsSeen(ws, steps, i);
    NoLostWakeup(ws, steps, i, t);
    if w.threads[t].on in w.shutNotify {
      vs, path := WokenLooks(w, t, now);
    } else {
      var l :| LoopAt(w, l, Waking(w.threads[t].on));
      WakeSpares(w, l, t);
      vs, path := WokenLooks(Next(w, LoopWake(l)), t, now);
      Prepend(w, LoopWake(l), vs, path);
      vs, path := [w] + vs, [LoopWake(l)] + path;
    }
  }
}
