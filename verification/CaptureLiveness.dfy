/**
 Nobody waits for ever on a retirement or on a loop's end. Each blocked goroutine has a rank that
 no step raises, that every step of the goroutine or loop responsible for it lowers, and that is
 zero only when the awaited channel is closed; and the responsible one always has an enabled step.
 */
module CaptureLiveness {
  import opened Options
  import opened CaptureState
  import opened CaptureProtocol
  import opened CaptureInvariant
  import opened CaptureTheorems

  /** How many of its own actions a cancelled loop has left. */
  function LoopRank(w: World): nat {
    if w.sh.done !in w.loops then 0
    else
      match w.loops[w.sh.done].phase
      case Exited => 0
      case Top => 1
      case Waking(_) => 2
      case Reading => 3
      case Starting => 4
  }

  function StopRank(w: World, pc: Pc): nat {
    match pc
    case StopSignal(_) => 1
    case StopClear => 2
    case StopJoin(_) => 3 + LoopRank(w)
    case _ => 8
  }

  /** The distance of retirement channel k from being closed. */
  function RetireRank(w: World, k: nat): nat {
    if k in w.shutRetired || k !in w.retirer || w.retirer[k] !in w.threads then 0
    else StopRank(w, w.threads[w.retirer[k]])
  }

  function CloseRank(w: World): nat {
    if w.closer !in w.threads then 0
    else
      match w.threads[w.closer]
      case CloseCancel(_) => 7
      case CloseJoin(l) => if l in w.loops && w.loops[l].cancelled then 1 + LoopRank(w) else 6
      case _ => 0
  }

  /** A step the newest loop can take, preferring the way out. */
  function LoopHelps(w: World): Step
    requires w.sh.done in w.loops
  {
    match w.loops[w.sh.done].phase
    case Starting => LoopBegin(w.sh.done, true)
    case Top => LoopTop(w.sh.done)
    case Reading => LoopFail(w.sh.done, false)
    case _ => LoopWake(w.sh.done)
  }

  function StopHelps(w: World, t: nat): Step
    requires t in w.threads && w.sh.done in w.loops
  {
    match w.threads[t]
    case StopSignal(_) => StopSignals(t)
    case StopClear => StopClears(t)
    case StopJoin(_) => if LoopAt(w, w.sh.done, Exited) then StopJoins(t) else LoopHelps(w)
    case _ => StopCancels(t)
  }

  /** A step of the newest loop brings a cancelled loop closer to its end, whatever the network does. */
  lemma CancelledLoopEnds(w: World, step: Step)
    requires LoopsOk(w) && ByLoop(step) && Enabled(w, step) && w.sh.done in w.loops && w.loops[w.sh.done].cancelled
    ensures LoopRank(Next(w, step)) < LoopRank(w) && Next(w, step).loops[w.sh.done].cancelled
    ensures Next(w, step).threads == w.threads && Next(w, step).shutRetired == w.shutRetired
    ensures Next(w, step).retirer == w.retirer && Next(w, step).sh.done == w.sh.done && Next(w, step).closer == w.closer
  {
  }

  ghost predicate OthersStand(w: World, step: Step, w': World)
    requires !ByLoop(step)
  {
    forall t :: t in w.threads && t != step.t ==> t in w'.threads && w'.threads[t] == w.threads[t]
  }

  /** Steps of callers leave the loops and the retirements alone once the capture is stopping or closed. */
  ghost predicate SparesTeardown(w: World, step: Step, w': World)
    requires !ByLoop(step)
  {
    && w'.shutRetired == w.shutRetired && w'.retirer == w.retirer && w'.closer == w.closer
    && OthersStand(w, step, w')
    && ((w.sh.cancel.None? && w.sh.stopping) || w.sh.closed ==> w'.loops == w.loops && w'.sh.done == w.sh.done)
  }

  lemma AdmittedSpares(w: World, t: nat, use: Use)
    ensures var (s, a) := Admit(w.sh);
            var w' := Admitted(w, t, use, s, a);
            && w'.threads == w.threads[t := w'.threads[t]]
            && w'.shutRetired == w.shutRetired && w'.retirer == w.retirer && w'.closer == w.closer
            && (w.sh.stopping || w.sh.closed ==> w'.loops == w.loops && w'.sh.done == w.sh.done)
  {
  }

  lemma EnterSpares(w: World, t: nat)
    requires Enabled(w, Enter(t))
    ensures SparesTeardown(w, Enter(t), DoEnter(w, t))
  {
    if w.sh.closed {
    } else {
      EnterIs(w, t);
      AdmittedSpares(WithoutTimer(w), t, w.threads[t].use);
    }
  }

  lemma ReenterSpares(w: World, t: nat)
    requires Enabled(w, Reenter(t))
    ensures SparesTeardown(w, Reenter(t), DoReenter(w, t))
  {
    AdmittedSpares(w, t, w.threads[t].use);
  }

  lemma AdmissionKeepsTeardown(w: World, step: Step)
    requires Admits(step) && Enabled(w, step)
    ensures SparesTeardown(w, step, Next(w, step))
  {
    if step.Enter? {
      EnterSpares(w, step.t);
    } else {
      ReenterSpares(w, step.t);
    }
  }

  ghost predicate Undisturbed(w: World, step: Step, w': World)
    requires !ByLoop(step)
  {
    && w'.shutRetired == w.shutRetired && w'.retirer == w.retirer && w'.loops == w.loops && w'.sh.done == w.sh.done
    && OthersStand(w, step, w')
  }

  lemma MoveKeepsTeardown(w: World, step: Step)
    requires step.Call? || step.CallClose? || step.RetirementSeen? || step.Notified? || step.GiveUp?
             || step.Fire? || step.StopJoins? || step.CloseJoins?
    requires Enabled(w, step)
    ensures Undisturbed(w, step, Next(w, step))
  {
  }

  lemma LookKeepsTeardown(w: World, t: nat, now: int)
    requires Enabled(w, Look(t, now))
    ensures Undisturbed(w, Look(t, now), DoLook(w, t, now))
  {
  }

  lemma TimeUpKeepsTeardown(w: World, t: nat, now: int)
    requires Enabled(w, TimeUp(t, now))
    ensures Undisturbed(w, TimeUp(t, now), DoTimeUp(w, t, now))
  {
  }

  lemma LeaveKeepsTeardown(w: World, t: nat)
    requires Enabled(w, Leave(t))
    ensures Undisturbed(w, Leave(t), DoLeave(w, t))
  {
  }

  lemma CallerKeepsTeardown(w: World, step: Step)
    requires step.Look? || step.TimeUp? || step.Leave?
    requires Enabled(w, step)
    ensures Undisturbed(w, step, Next(w, step))
  {
    if step.Look? {
      LookKeepsTeardown(w, step.t, step.now);
    } else if step.TimeUp? {
      TimeUpKeepsTeardown(w, step.t, step.now);
    } else {
      LeaveKeepsTeardown(w, step.t);
    }
  }

  ghost predicate Forward(w: World, step: Step, w': World)
    requires !ByLoop(step)
  {
    && w.shutRetired <= w'.shutRetired
    && (forall k :: k in w.retirer ==> k in w'.retirer && w'.retirer[k] == w.retirer[k])
    && OthersStand(w, step, w')
  }

  ghost predicate LoopsForward(w: World, w': World) {
    && w'.sh.done == w.sh.done && w'.loops.Keys == w.loops.Keys
    && (forall l :: l in w.loops ==>
          w'.loops[l].phase == w.loops[l].phase && (w.loops[l].cancelled ==> w'.loops[l].cancelled))
  }

  lemma CancelMoves(w: World, step: Step)
    requires step.StopCancels? || step.CloseCancels?
    requires RetiredOk(w) && Enabled(w, step)
    ensures Forward(w, step, Next(w, step)) && LoopsForward(w, Next(w, step))
  {
  }

  lemma RetireMoves(w: World, t: nat)
    requires RetiredOk(w) && Enabled(w, StopRetire(t))
    ensures Forward(w, StopRetire(t), DoStopRetire(w, t)) && LoopsForward(w, DoStopRetire(w, t))
  {
  }

  lemma SignalMoves(w: World, step: Step)
    requires (step.StopClears? || step.StopSignals?) && Enabled(w, step)
    ensures Forward(w, step, Next(w, step)) && LoopsForward(w, Next(w, step))
  {
  }

  lemma TeardownMoves(w: World, step: Step)
    requires step.StopRetire? || step.StopClears? || step.StopSignals?
    requires RetiredOk(w) && Enabled(w, step)
    ensures Forward(w, step, Next(w, step)) && LoopsForward(w, Next(w, step))
  {
    if step.StopRetire? {
      RetireMoves(w, step.t);
    } else {
      SignalMoves(w, step);
    }
  }

  lemma CloseMoves(w: World, step: Step)
    requires step.CloseLocks? && Enabled(w, step)
    ensures Forward(w, step, Next(w, step)) && LoopsForward(w, Next(w, step))
  {
  }

  /** What no step of a goroutine undoes while the capture is stopping or closed. */
  lemma ThreadStepKeeps(w: World, step: Step)
    requires RetiredOk(w) && !ByLoop(step) && Enabled(w, step)
    ensures Forward(w, step, Next(w, step))
    ensures (w.sh.cancel.None? && w.sh.stopping) || w.sh.closed ==> LoopsForward(w, Next(w, step))
  {
    if Admits(step) {
      AdmissionKeepsTeardown(w, step);
    } else if step.StopCancels? || step.CloseCancels? {
      CancelMoves(w, step);
    } else if step.StopRetire? || step.StopClears? || step.StopSignals? {
      TeardownMoves(w, step);
    } else if step.CloseLocks? {
      CloseMoves(w, step);
    } else if step.Look? || step.TimeUp? || step.Leave? {
      CallerKeepsTeardown(w, step);
    } else {
      MoveKeepsTeardown(w, step);
    }
  }

  /** A loop the network keeps busy does not disturb the goroutines. */
  lemma LoopKeepsThreads(w: World, step: Step)
    requires ByLoop(step) && Enabled(w, step)
    ensures var w' := Next(w, step);
            && w'.threads == w.threads && w'.shutRetired == w.shutRetired && w'.retirer == w.retirer
            && w'.closer == w.closer && w'.sh.done == w.sh.done && w'.loops.Keys == w.loops.Keys
            && (forall l :: l in w.loops ==> w'.loops[l].cancelled == w.loops[l].cancelled)
  {
  }

  /** The goroutine a step belongs to, when it is not a loop's. */
  predicate By(step: Step, t: nat) {
    !ByLoop(step) && step.t == t
  }

  /** A goroutine that carries out a retirement moves to the next stage with every step. */
  lemma OwnStopStep(w: World, step: Step, t: nat)
    requires Inv(w) && Enabled(w, step) && By(step, t) && t in w.threads
    requires Retiring(w.threads[t]) || w.threads[t].StopSignal?
    ensures var w' := Next(w, step);
            || (w.threads[t].StopCancel? && w'.threads[t] == StopJoin(w.sh.done))
            || (w.threads[t].StopJoin? && w'.threads[t] == StopClear)
            || (w.threads[t].StopClear? && w'.threads[t] == StopSignal(w.sh.retired))
            || (w.threads[t].StopSignal? && w'.shutRetired == w.shutRetired + {w.threads[t].channel})
  {
  }

  /** An open retirement channel is owed by a goroutine on its way to close it. */
  lemma RetirerStage(w: World, k: nat)
    requires Inv(w) && k in w.retirer && k !in w.shutRetired
    ensures var t := w.retirer[k];
            t in w.threads && (Retiring(w.threads[t]) || w.threads[t] == StopSignal(k))
    ensures Retiring(w.threads[w.retirer[k]]) ==> k == w.sh.retired && w.sh.stopping && w.sh.done in w.loops
    ensures w.threads[w.retirer[k]].StopJoin? ==> w.loops[w.sh.done].cancelled
  {
  }

  /** Whose step brings retirement channel k closer to being closed. */
  predicate Responsible(w: World, step: Step, k: nat) {
    && k in w.retirer && w.retirer[k] in w.threads
    && (By(step, w.retirer[k]) || (ByLoop(step) && w.threads[w.retirer[k]].StopJoin?))
  }

  lemma LoopLowersRetireRank(w: World, step: Step, k: nat)
    requires Inv(w) && Enabled(w, step) && k in w.retirer && k !in w.shutRetired
    requires Responsible(w, step, k) && ByLoop(step)
    ensures RetireRank(Next(w, step), k) < RetireRank(w, k)
  {
    RetirerStage(w, k);
    CancelledLoopEnds(w, step);
  }

  /** The rank follows the stage of the goroutine that owes the channel. */
  lemma RankFollowsStage(w: World, w': World, k: nat)
    requires k in w.retirer && k in w'.retirer && w'.retirer[k] == w.retirer[k] && k !in w.shutRetired
    requires w.retirer[k] in w.threads && w.retirer[k] in w'.threads
    ensures w'.threads[w.retirer[k]] == w.threads[w.retirer[k]] && LoopRank(w') <= LoopRank(w) ==>
              RetireRank(w', k) <= RetireRank(w, k)
    ensures w'.threads[w.retirer[k]] == w.threads[w.retirer[k]] && !w.threads[w.retirer[k]].StopJoin? ==>
              RetireRank(w', k) <= RetireRank(w, k)
    ensures k in w'.shutRetired || Later(w.threads[w.retirer[k]], w'.threads[w.retirer[k]]) ==>
              RetireRank(w', k) < RetireRank(w, k)
  {
  }

  predicate Later(pc: Pc, next: Pc) {
    (pc.StopCancel? && next.StopJoin?) || (pc.StopJoin? && next.StopClear?) || (pc.StopClear? && next.StopSignal?)
  }

  lemma ThreadLowersRetireRank(w: World, step: Step, k: nat)
    requires Inv(w) && Enabled(w, step) && k in w.retirer && k !in w.shutRetired
    requires Responsible(w, step, k) && !ByLoop(step)
    ensures RetireRank(Next(w, step), k) < RetireRank(w, k)
  {
    RetirerStage(w, k);
    OwnStopStep(w, step, w.retirer[k]);
    ThreadStepKeeps(w, step);
    RankFollowsStage(w, Next(w, step), k);
  }

  lemma LoopHoldsRetireRank(w: World, step: Step, k: nat)
    requires Inv(w) && Enabled(w, step) && k in w.retirer && k !in w.shutRetired
    requires !Responsible(w, step, k) && ByLoop(step)
    ensures RetireRank(Next(w, step), k) <= RetireRank(w, k)
  {
    RetirerStage(w, k);
    LoopKeepsThreads(w, step);
    RankFollowsStage(w, Next(w, step), k);
  }

  lemma LoopRankFollows(w: World, w': World)
    requires w.sh.done in w.loops && LoopsForward(w, w')
    ensures LoopRank(w') == LoopRank(w)
  {
  }

  /** Another goroutine's step leaves the one that owes channel k where it is. */
  lemma RetirerStands(w: World, step: Step, k: nat)
    requires RetiredOk(w) && Enabled(w, step) && !ByLoop(step) && !Responsible(w, step, k)
    requires k in w.retirer && w.retirer[k] in w.threads
    ensures var w' := Next(w, step);
            && k in w'.retirer && w'.retirer[k] == w.retirer[k]
            && w.retirer[k] in w'.threads && w'.threads[w.retirer[k]] == w.threads[w.retirer[k]]
  {
    ThreadStepKeeps(w, step);
  }

  lemma JoinRankHolds(w: World, step: Step)
    requires Inv(w) && Enabled(w, step) && !ByLoop(step) && w.sh.stopping && w.sh.done in w.loops
    ensures LoopRank(Next(w, step)) <= LoopRank(w)
  {
    ThreadStepKeeps(w, step);
    LoopRankFollows(w, Next(w, step));
  }

  lemma ThreadHoldsRetireRank(w: World, step: Step, k: nat)
    requires Inv(w) && Enabled(w, step) && k in w.retirer && k !in w.shutRetired
    requires !Responsible(w, step, k) && !ByLoop(step)
    ensures RetireRank(Next(w, step), k) <= RetireRank(w, k)
  {
    RetirerStage(w, k);
    RetirerStands(w, step, k);
    if w.threads[w.retirer[k]].StopJoin? {
      JoinRankHolds(w, step);
    }
    RankFollowsStage(w, Next(w, step), k);
  }

  lemma RetireRankHolds(w: World, step: Step, k: nat)
    requires Inv(w) && Enabled(w, step) && k in w.retirer && k !in w.shutRetired && !Responsible(w, step, k)
    ensures RetireRank(Next(w, step), k) <= RetireRank(w, k)
  {
    if ByLoop(step) {
      LoopHoldsRetireRank(w, step, k);
    } else {
      ThreadHoldsRetireRank(w, step, k);
    }
  }

  /** As long as channel k is open, someone responsible for it can take a step. */
  lemma RetirementCanMove(w: World, k: nat)
    requires Inv(w) && k in w.retirer && k !in w.shutRetired
    ensures RetireRank(w, k) > 0
    ensures w.sh.done in w.loops
    ensures var step := StopHelps(w, w.retirer[k]); Enabled(w, step) && Responsible(w, step, k)
  {
    RetirerStage(w, k);
  }

  /** ws is a continuation of its first state by the given steps. */
  ghost predicate Path(ws: seq<World>, steps: seq<Step>) {
    && |ws| == |steps| + 1
    && forall i :: 0 <= i < |steps| ==> Enabled(ws[i], steps[i]) && ws[i + 1] == Next(ws[i], steps[i])
  }

  lemma Prepend(w: World, step: Step, ws: seq<World>, steps: seq<Step>)
    requires Enabled(w, step) && Path(ws, steps) && ws[0] == Next(w, step)
    ensures Path([w] + ws, [step] + steps) && ([w] + ws)[|steps| + 1] == ws[|steps|]
  {
  }

  lemma RankIsSmall(w: World, k: nat)
    ensures RetireRank(w, k) <= 8
  {
  }

  /**
   From every reachable state, letting only the responsible goroutine and loop run closes the channel a
   caller is blocked on within eight steps, with the caller still waiting for it.
   */
  lemma {:induction false} BlockedCallerIsReleased(w: World, t: nat) returns (ws: seq<World>, steps: seq<Step>)
    requires Inv(w) && t in w.threads && w.threads[t].BlockedOn?
    ensures Path(ws, steps) && ws[0] == w && |steps| <= 8
    ensures var last := ws[|steps|]; At(last, t, w.threads[t]) && Enabled(last, RetirementSeen(t))
    ensures |steps| <= RetireRank(w, w.threads[t].on)
    decreases RetireRank(w, w.threads[t].on)
  {
    var k := w.threads[t].on;
    RankIsSmall(w, k);
    assert RetiredOk(w);
    if k in w.shutRetired {
      ws, steps := [w], [];
    } else {
      RetirementCanMove(w, k);
      var step := StopHelps(w, w.retirer[k]);
      var w' := Next(w, step);
      StepKeeps(w, step);
      HelperKeepsCaller(w, step, t);
      RankFalls(w, step, k);
      ws, steps := BlockedCallerIsReleased(w', t);
      Prepend(w, step, ws, steps);
      ws, steps := [w] + ws, [step] + steps;
    }
  }

  lemma RankFalls(w: World, step: Step, k: nat)
    requires Inv(w) && Enabled(w, step) && k in w.retirer && k !in w.shutRetired && Responsible(w, step, k)
    ensures RetireRank(Next(w, step), k) < RetireRank(w, k)
  {
    if ByLoop(step) {
      LoopLowersRetireRank(w, step, k);
    } else {
      ThreadLowersRetireRank(w, step, k);
    }
  }

  lemma HelperKeepsCaller(w: World, step: Step, t: nat)
    requires Inv(w) && t in w.threads && w.threads[t].BlockedOn? && Enabled(w, step)
    requires w.threads[t].on !in w.shutRetired
    requires Responsible(w, step, w.threads[t].on)
    ensures At(Next(w, step), t, w.threads[t])
  {
    RetirerStage(w, w.threads[t].on);
    if ByLoop(step) {
      LoopKeepsThreads(w, step);
    } else {
      ThreadStepKeeps(w, step);
      assert OthersStand(w, step, Next(w, step));
    }
  }

  // The goroutine that closes the capture.

  predicate ClosePending(w: World) {
    w.sh.closed && w.closer in w.threads && !w.threads[w.closer].Finished?
  }

  lemma CloserStage(w: World)
    requires Inv(w) && ClosePending(w)
    ensures w.sh.done in w.loops
    ensures w.threads[w.closer] == CloseCancel(w.sh.done) || w.threads[w.closer] == CloseJoin(w.sh.done)
    ensures w.threads[w.closer].CloseJoin? && !w.loops[w.sh.done].cancelled ==>
              w.sh.stopping && w.sh.retired in w.retirer && At(w, w.retirer[w.sh.retired], StopCancel(w.sh.done))
  {
  }

  /** Whose step brings the pending close nearer to its return. */
  predicate CloseResponsible(w: World, step: Step)
    requires w.closer in w.threads && w.sh.done in w.loops
  {
    || By(step, w.closer)
    || (w.threads[w.closer].CloseJoin? && w.loops[w.sh.done].cancelled && ByLoop(step))
    || (w.threads[w.closer].CloseJoin? && !w.loops[w.sh.done].cancelled && step.StopCancels?)
  }

  function CloseHelps(w: World): Step
    requires w.closer in w.threads && w.sh.done in w.loops
  {
    if w.threads[w.closer].CloseCancel? then CloseCancels(w.closer)
    else if LoopAt(w, w.sh.done, Exited) then CloseJoins(w.closer)
    else if w.loops[w.sh.done].cancelled then LoopHelps(w)
    else if w.sh.retired in w.retirer then StopCancels(w.retirer[w.sh.retired])
    else LoopHelps(w)
  }

  lemma CloseCanMove(w: World)
    requires Inv(w) && ClosePending(w)
    ensures w.sh.done in w.loops && Enabled(w, CloseHelps(w)) && CloseResponsible(w, CloseHelps(w))
  {
    CloserStage(w);
  }

  lemma OwnCloseStep(w: World, step: Step)
    requires Inv(w) && ClosePending(w) && Enabled(w, step) && By(step, w.closer)
    ensures w.sh.done in w.loops
    ensures var w' := Next(w, step);
            && w'.closer == w.closer && w.closer in w'.threads
            && (w'.threads[w.closer].Finished?
                || (w.threads[w.closer].CloseCancel? && w'.threads[w.closer] == CloseJoin(w.sh.done)
                    && LoopAt(w', w.sh.done, w.loops[w.sh.done].phase) && w'.loops[w.sh.done].cancelled
                    && w'.sh.done == w.sh.done))
  {
    CloserStage(w);
  }

  lemma StopCancelsLoop(w: World, step: Step)
    requires Inv(w) && ClosePending(w) && Enabled(w, step) && step.StopCancels?
    ensures var w' := Next(w, step);
            && w'.sh.done == w.sh.done && w.sh.done in w'.loops && w'.loops[w.sh.done].cancelled
            && w'.closer == w.closer && w.closer in w'.threads && w'.threads[w.closer] == w.threads[w.closer]
  {
    CloserStage(w);
  }

  lemma OwnStepLowersCloseRank(w: World, step: Step)
    requires Inv(w) && ClosePending(w) && Enabled(w, step) && By(step, w.closer)
    ensures CloseRank(Next(w, step)) < CloseRank(w)
  {
    CloserStage(w);
    OwnCloseStep(w, step);
    assert CloseRank(Next(w, step)) <= 5;
  }

  lemma JoinRank(w: World)
    requires At(w, w.closer, CloseJoin(w.sh.done)) && w.sh.done in w.loops && w.loops[w.sh.done].cancelled
    ensures CloseRank(w) == 1 + LoopRank(w)
  {
  }

  lemma LoopLowersCloseRank(w: World, step: Step)
    requires Inv(w) && ClosePending(w) && Enabled(w, step) && ByLoop(step)
    requires w.threads[w.closer].CloseJoin? && w.sh.done in w.loops && w.loops[w.sh.done].cancelled
    ensures CloseRank(Next(w, step)) < CloseRank(w)
  {
    CloserStage(w);
    JoinRank(w);
    assert LoopsOk(w);
    CancelledLoopEnds(w, step);
    LoopKeepsThreads(w, step);
    JoinRank(Next(w, step));
  }

  lemma StopLowersCloseRank(w: World, step: Step)
    requires Inv(w) && ClosePending(w) && Enabled(w, step) && step.StopCancels?
    requires w.threads[w.closer].CloseJoin? && w.sh.done in w.loops && !w.loops[w.sh.done].cancelled
    ensures CloseRank(Next(w, step)) < CloseRank(w)
  {
    CloserStage(w);
    StopCancelsLoop(w, step);
  }

  lemma CloseRankIsSmall(w: World)
    ensures CloseRank(w) <= 7
  {
  }

  lemma OtherLowersCloseRank(w: World, step: Step)
    requires Inv(w) && ClosePending(w) && Enabled(w, step) && w.sh.done in w.loops
    requires CloseResponsible(w, step) && !By(step, w.closer)
    ensures CloseRank(Next(w, step)) < CloseRank(w)
  {
    if ByLoop(step) {
      LoopLowersCloseRank(w, step);
    } else {
      StopLowersCloseRank(w, step);
    }
  }

  /** Every responsible step lowers the rank of the pending close. */
  lemma CloseRankFalls(w: World, step: Step)
    requires Inv(w) && ClosePending(w) && Enabled(w, step)
    requires w.sh.done in w.loops && CloseResponsible(w, step)
    ensures CloseRank(Next(w, step)) < CloseRank(w) <= 7
  {
    CloseRankIsSmall(w);
    if By(step, w.closer) {
      OwnStepLowersCloseRank(w, step);
    } else {
      OtherLowersCloseRank(w, step);
    }
  }

  lemma CloseRankFollows(w: World, w': World)
    requires ClosePending(w) && w.sh.done in w.loops && w'.sh.done == w.sh.done && w'.loops.Keys == w.loops.Keys
    requires w.threads[w.closer] == CloseCancel(w.sh.done) || w.threads[w.closer] == CloseJoin(w.sh.done)
    requires w'.sh.closed && w'.closer == w.closer && At(w', w.closer, w.threads[w.closer])
    requires w.loops[w.sh.done].cancelled ==> w'.loops[w.sh.done].cancelled && LoopRank(w') <= LoopRank(w)
    ensures ClosePending(w') && CloseRank(w') <= CloseRank(w)
  {
  }

  lemma LoopHoldsCloseRank(w: World, step: Step)
    requires Inv(w) && ClosePending(w) && Enabled(w, step) && ByLoop(step)
    ensures ClosePending(Next(w, step)) && CloseRank(Next(w, step)) <= CloseRank(w)
  {
    CloserStage(w);
    CloserStays(w, step);
    LoopKeepsThreads(w, step);
    if w.loops[w.sh.done].cancelled {
      CancelledLoopEnds(w, step);
    }
    CloseRankFollows(w, Next(w, step));
  }

  lemma ThreadHoldsCloseRank(w: World, step: Step)
    requires Inv(w) && ClosePending(w) && Enabled(w, step) && !ByLoop(step) && !By(step, w.closer)
    ensures ClosePending(Next(w, step)) && CloseRank(Next(w, step)) <= CloseRank(w)
  {
    CloserStage(w);
    CloserStays(w, step);
    assert RetiredOk(w);
    ThreadStepKeeps(w, step);
    CloseRankFollows(w, Next(w, step));
  }

  /** No other step raises it. */
  lemma CloseRankHolds(w: World, step: Step)
    requires Inv(w) && ClosePending(w) && Enabled(w, step)
    requires w.sh.done in w.loops && !CloseResponsible(w, step)
    ensures ClosePending(Next(w, step)) && CloseRank(Next(w, step)) <= CloseRank(w)
  {
    if ByLoop(step) {
      LoopHoldsCloseRank(w, step);
    } else {
      ThreadHoldsCloseRank(w, step);
    }
  }

  lemma HelpIsNoCall(w: World)
    requires w.closer in w.threads && w.sh.done in w.loops
    ensures !CloseHelps(w).Call? && !CloseHelps(w).CallClose?
  {
  }

  /** One responsible step of a pending close. */
  lemma CloseAdvances(w: World) returns (step: Step, w': World)
    requires Inv(w) && ClosePending(w)
    ensures Enabled(w, step) && w' == Next(w, step) && !step.Call? && !step.CallClose?
    ensures Inv(w') && w'.sh.closed && w'.closer == w.closer && CloseRank(w') < CloseRank(w)
  {
    CloseCanMove(w);
    step := CloseHelps(w);
    w' := Next(w, step);
    HelpIsNoCall(w);
    CloseRankFalls(w, step);
    StepKeeps(w, step);
    CloserStays(w, step);
  }

  lemma PrependNoCalls(step: Step, steps: seq<Step>)
    requires !step.Call? && !step.CallClose? && forall i :: 0 <= i < |steps| ==> !steps[i].Call? && !steps[i].CallClose?
    ensures forall i :: 0 <= i < |steps| + 1 ==> !([step] + steps)[i].Call? && !([step] + steps)[i].CallClose?
  {
  }

  /** From every reachable state a pending close can return within seven steps of the responsible ones. */
  lemma {:induction false} CloseReturns(w: World) returns (ws: seq<World>, steps: seq<Step>)
    requires Inv(w) && w.sh.closed
    ensures Path(ws, steps) && ws[0] == w && |steps| <= CloseRank(w) <= 7
    ensures At(ws[|steps|], w.closer, Finished)
    ensures forall i :: 0 <= i < |steps| ==> !steps[i].Call? && !steps[i].CallClose?
    decreases CloseRank(w)
  {
    assert CloseOk(w);
    CloseRankIsSmall(w);
    if !ClosePending(w) {
      ws, steps := [w], [];
    } else {
      var step, w' := CloseAdvances(w);
      var ws', steps' := CloseReturns(w');
      Prepend(w, step, ws', steps');
      PrependNoCalls(step, steps');
      ws, steps := [w] + ws', [step] + steps';
    }
  }
}
