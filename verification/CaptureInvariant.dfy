/** What every step around a capture keeps. */
module CaptureInvariant {
  import opened Options
  import opened CaptureState
  import opened CaptureProtocol

  predicate Live(w: World, l: nat) {
    l in w.loops && !w.loops[l].phase.Exited?
  }

  /** The newest loop, if there is one, has closed its done channel. */
  predicate Quiet(w: World) {
    w.sh.done > 0 ==> LoopAt(w, w.sh.done, Exited)
  }

  ghost predicate LoopsOk(w: World) {
    && (forall l :: l in w.loops <==> 1 <= l <= w.sh.done)
    && (forall l :: l in w.loops && l < w.sh.done ==> w.loops[l].phase.Exited?)
    && (w.sh.cancel.Some? ==>
          && w.sh.cancel.value == w.sh.done && w.sh.done in w.loops && !w.loops[w.sh.done].cancelled
          && !w.sh.stopping && !w.sh.closed)
    && (w.sh.cancel.None? && !w.sh.stopping && !w.sh.closed ==> Quiet(w))
    && (w.sh.retired > 0 ==> w.sh.done > 0)
  }

  predicate Retiring(pc: Pc) {
    pc.StopCancel? || pc.StopJoin? || pc.StopClear?
  }

  /** While a retirement is under way exactly one goroutine carries it out, on the newest loop. */
  ghost predicate StopOk(w: World) {
    && (w.sh.stopping ==>
          && w.sh.cancel.None?
          && w.sh.retired in w.retirer && w.retirer[w.sh.retired] in w.threads
          && Retiring(w.threads[w.retirer[w.sh.retired]]))
    && (forall t :: t in w.threads && Retiring(w.threads[t]) ==>
          && w.sh.stopping && w.sh.retired in w.retirer && t == w.retirer[w.sh.retired] && w.sh.done in w.loops
          && (w.threads[t].StopCancel? ==> w.threads[t].loop == w.sh.done)
          && (w.threads[t].StopJoin? ==> w.threads[t].loop == w.sh.done && w.loops[w.sh.done].cancelled)
          && (w.threads[t].StopClear? ==> Quiet(w) && w.loops[w.sh.done].cancelled))
  }

  /** Every retirement channel is closed, or one goroutine owes its close. */
  ghost predicate RetiredOk(w: World) {
    && (forall k :: k in w.retirer <==> 1 <= k <= w.sh.retired)
    && (forall k :: k in w.shutRetired ==> k in w.retirer)
    && (forall k :: k in w.retirer && k !in w.shutRetired ==>
          At(w, w.retirer[k], StopSignal(k)) || (w.sh.stopping && k == w.sh.retired))
    && (w.sh.stopping ==> w.sh.retired !in w.shutRetired)
    && (forall t :: t in w.threads && w.threads[t].StopSignal? ==>
          var k := w.threads[t].channel;
          k in w.retirer && w.retirer[k] == t && k !in w.shutRetired && !(w.sh.stopping && k == w.sh.retired))
    && (forall t :: t in w.threads && w.threads[t].BlockedOn? ==> w.threads[t].on in w.retirer)
  }

  /**
   Every replaced notification channel is closed or about to be; a waiter on the current one has seen the newest
   frame.
   */
  ghost predicate NotifyOk(w: World) {
    && !w.panicked
    && (w.sh.closed <==> w.sh.notify in w.shutNotify)
    && (forall n :: n in w.shutNotify ==> n <= w.sh.notify)
    && (forall n :: 0 <= n < w.sh.notify ==> n in w.shutNotify || LoopAt(w, w.sh.done, Waking(n)))
    && (forall l :: l in w.loops && w.loops[l].phase.Waking? ==>
          w.loops[l].phase.channel < w.sh.notify && w.loops[l].phase.channel !in w.shutNotify)
    && (forall t :: t in w.threads && w.threads[t].Selecting? ==>
          && w.threads[t].on <= w.sh.notify
          && (w.threads[t].on == w.sh.notify && !w.sh.closed ==> w.threads[t].seen == w.sh.frame))
  }

  predicate Counted(pc: Pc) {
    (pc.Holding? || pc.Selecting? || pc.Leaving?) && pc.counted
  }

  /** The reference count is the number of callers that hold a counted interest. */
  ghost predicate CountOk(w: World) {
    && (forall t :: t in w.holders <==> t in w.threads && Counted(w.threads[t]))
    && (!w.sh.closed ==> w.sh.consumers == |w.holders|)
    && (!w.sh.closed && w.sh.consumers > 0 ==> w.sh.cancel.Some?)
    && (!w.sh.closed ==> forall t :: t in w.threads ==> CountedIfHolding(w.threads[t]))
  }

  predicate CountedIfHolding(pc: Pc) {
    pc.Holding? || pc.Selecting? || pc.Leaving? ==> pc.counted
  }

  /** Every pending timer the capture does not refer to is stale. */
  ghost predicate TimersOk(w: World) {
    && (forall g :: g in w.armedAt <==> 1 <= g <= w.sh.idleGen)
    && (forall g :: g in w.armedAt ==> w.armedAt[g] <= w.counted)
    && (forall g :: g in w.timers ==> g in w.armedAt)
    && (w.sh.idle.Some? ==> w.sh.idle.value == w.sh.idleGen)
    && (forall t :: t in w.threads && w.threads[t].StopFired? ==>
          w.threads[t].gen in w.armedAt && w.threads[t].gen !in w.timers)
    && (forall g :: g in w.timers ==> g < w.sh.idleGen || w.sh.idle == Some(g))
  }

  /** While a held capture has no consumer, its newest timer was armed after the last counted acquire. */
  ghost predicate IdleOk(w: World) {
    && (!w.sh.closed && w.sh.consumers == 0 && w.sh.cancel.Some? ==>
          w.sh.idleGen in w.armedAt && w.armedAt[w.sh.idleGen] == w.counted)
  }

  /** After close, its one effective caller is still tearing down, or the newest loop is gone. */
  ghost predicate CloseOk(w: World) {
    && (w.sh.closed ==> w.sh.cancel.None? && w.closer in w.threads)
    && (w.sh.closed ==>
          || (w.threads[w.closer].Finished? && Quiet(w))
          || (w.threads[w.closer].CloseCancel? && !w.sh.stopping)
          || w.threads[w.closer].CloseJoin?)
    && (forall t :: t in w.threads && w.threads[t].CloseCancel? ==>
          w.sh.closed && t == w.closer && w.threads[t].loop == w.sh.done && w.sh.done in w.loops)
    && (forall t :: t in w.threads && w.threads[t].CloseJoin? ==>
          && w.sh.closed && t == w.closer && w.threads[t].loop == w.sh.done && w.sh.done in w.loops
          && (w.loops[w.sh.done].cancelled
              || (w.sh.stopping && w.sh.retired in w.retirer && At(w, w.retirer[w.sh.retired], StopCancel(w.sh.done)))))
  }

  ghost predicate Core(w: World) {
    LoopsOk(w) && StopOk(w) && RetiredOk(w) && NotifyOk(w) && CountOk(w) && CloseOk(w)
  }

  ghost predicate Base(w: World) {
    Core(w) && TimersOk(w)
  }

  ghost predicate Inv(w: World) {
    Base(w) && IdleOk(w)
  }

  lemma StartOk()
    ensures Inv(Start)
  {
  }

  // Moves of a goroutine that touch nothing shared.

  predicate Plain(pc: Pc) {
    !Retiring(pc) && !pc.StopSignal? && !pc.CloseCancel? && !pc.CloseJoin?
  }

  /** pc is a place a goroutine may be in without owing anything to the others. */
  predicate Fits(w: World, pc: Pc) {
    && Plain(pc)
    && (pc.BlockedOn? ==> pc.on in w.retirer)
    && (pc.Selecting? ==> pc.on <= w.sh.notify && (pc.on == w.sh.notify && !w.sh.closed ==> pc.seen == w.sh.frame))
    && (pc.StopFired? ==> pc.gen in w.armedAt && pc.gen !in w.timers)
    && (w.sh.closed || CountedIfHolding(pc))
  }

  predicate MayMove(w: World, t: nat, pc: Pc) {
    && Fits(w, pc)
    && (t in w.threads ==> Plain(w.threads[t]) && (w.threads[t].Finished? ==> pc.Finished?))
    && (Counted(pc) <==> t in w.threads && Counted(w.threads[t]))
  }

  lemma MoveKeepsLoops(w: World, t: nat, pc: Pc)
    requires Inv(w) && MayMove(w, t, pc)
    ensures LoopsOk(Goto(w, t, pc)) && StopOk(Goto(w, t, pc)) && RetiredOk(Goto(w, t, pc))
  {
  }

  lemma MoveKeepsChannels(w: World, t: nat, pc: Pc)
    requires Inv(w) && MayMove(w, t, pc)
    ensures NotifyOk(Goto(w, t, pc)) && TimersOk(Goto(w, t, pc)) && IdleOk(Goto(w, t, pc))
  {
  }

  lemma MoveKeepsRest(w: World, t: nat, pc: Pc)
    requires Inv(w) && MayMove(w, t, pc)
    ensures CountOk(Goto(w, t, pc)) && CloseOk(Goto(w, t, pc))
  {
  }

  lemma MoveKeeps(w: World, t: nat, pc: Pc)
    requires Inv(w) && MayMove(w, t, pc)
    ensures Inv(Goto(w, t, pc))
  {
    MoveKeepsLoops(w, t, pc);
    MoveKeepsChannels(w, t, pc);
    MoveKeepsRest(w, t, pc);
  }

  // Callers.

  predicate InAcquire(w: World, t: nat) {
    t in w.threads && (w.threads[t].Entering? || w.threads[t].Reentering?)
  }

  /** A goroutine inside acquire is counted and joins the loop the capture holds. */
  function Join(w: World, t: nat, use: Use): World {
    Goto(w.(sh := w.sh.(consumers := w.sh.consumers + 1), holders := w.holders + {t}, counted := w.counted + 1),
         t, Holding(use, true))
  }

  /** A new loop on a capture that holds none. */
  function Spawn(w: World): World {
    w.(sh := w.sh.(cancel := Some(w.sh.done + 1), done := w.sh.done + 1),
       loops := w.loops[w.sh.done + 1 := Loop(false, Starting)])
  }

  lemma JoinKeepsOthers(w: World, t: nat, use: Use)
    requires Base(w) && InAcquire(w, t) && w.sh.cancel.Some?
    ensures LoopsOk(Join(w, t, use)) && StopOk(Join(w, t, use))
  {
  }

  lemma JoinKeepsClosers(w: World, t: nat, use: Use)
    requires Base(w) && InAcquire(w, t) && w.sh.cancel.Some?
    ensures RetiredOk(Join(w, t, use))
  {
  }

  lemma JoinKeepsClose(w: World, t: nat, use: Use)
    requires Base(w) && InAcquire(w, t) && w.sh.cancel.Some?
    ensures CloseOk(Join(w, t, use))
  {
  }

  lemma JoinKeepsCounts(w: World, t: nat, use: Use)
    requires Base(w) && InAcquire(w, t) && w.sh.cancel.Some?
    ensures NotifyOk(Join(w, t, use)) && CountOk(Join(w, t, use))
  {
  }

  lemma JoinKeepsTimers(w: World, t: nat, use: Use)
    requires Base(w) && InAcquire(w, t) && w.sh.cancel.Some?
    ensures TimersOk(Join(w, t, use)) && IdleOk(Join(w, t, use))
  {
  }

  lemma JoinKeeps(w: World, t: nat, use: Use)
    requires Base(w) && InAcquire(w, t) && w.sh.cancel.Some?
    ensures Inv(Join(w, t, use))
  {
    JoinKeepsOthers(w, t, use);
    JoinKeepsClosers(w, t, use);
    JoinKeepsClose(w, t, use);
    JoinKeepsCounts(w, t, use);
    JoinKeepsTimers(w, t, use);
  }

  lemma SpawnKeepsLoops(w: World)
    requires Base(w) && w.sh.cancel.None? && !w.sh.stopping && !w.sh.closed
    ensures var w' := Spawn(w); LoopsOk(w') && StopOk(w')
  {
  }

  lemma SpawnKeepsClosers(w: World)
    requires Base(w) && w.sh.cancel.None? && !w.sh.stopping && !w.sh.closed
    ensures var w' := Spawn(w); RetiredOk(w') && CloseOk(w')
  {
  }

  lemma SpawnKeepsBase(w: World)
    requires Base(w) && w.sh.cancel.None? && !w.sh.stopping && !w.sh.closed
    ensures Base(Spawn(w))
  {
    SpawnKeepsLoops(w);
    SpawnKeepsClosers(w);
    assert NotifyOk(Spawn(w)) && CountOk(Spawn(w)) && TimersOk(Spawn(w));
  }

  lemma SpawnJoinKeeps(w: World, t: nat, use: Use)
    requires Inv(w) && InAcquire(w, t) && w.sh.cancel.None? && !w.sh.stopping && !w.sh.closed
    ensures Inv(Join(Spawn(w), t, use))
  {
    SpawnKeepsBase(w);
    JoinKeeps(Spawn(w), t, use);
  }

  lemma TurnedAwayIs(w: World, t: nat, use: Use)
    requires var a := Admit(w.sh).1; a.Refused? || a.Blocked?
    ensures var (s, a) := Admit(w.sh);
            Admitted(w, t, use, s, a) ==
            if a.Refused? then Goto(w, t, Holding(use, false)) else Goto(w, t, BlockedOn(use, w.sh.retired))
  {
  }

  lemma LetInIs(w: World, t: nat, use: Use)
    requires var a := Admit(w.sh).1; a.Joined? || a.Started?
    ensures var (s, a) := Admit(w.sh);
            Admitted(w, t, use, s, a) == if a.Joined? then Join(w, t, use) else Join(Spawn(w), t, use)
  {
  }

  lemma TurnedAwayKeeps(w: World, t: nat, use: Use)
    requires Inv(w) && InAcquire(w, t) && (Admit(w.sh).1.Refused? || Admit(w.sh).1.Blocked?)
    ensures Inv(Admitted(w, t, use, Admit(w.sh).0, Admit(w.sh).1))
  {
    TurnedAwayIs(w, t, use);
    if Admit(w.sh).1.Refused? {
      MoveKeeps(w, t, Holding(use, false));
    } else {
      MoveKeeps(w, t, BlockedOn(use, w.sh.retired));
    }
  }

  lemma LetInKeeps(w: World, t: nat, use: Use)
    requires Inv(w) && InAcquire(w, t) && (Admit(w.sh).1.Joined? || Admit(w.sh).1.Started?)
    ensures Inv(Admitted(w, t, use, Admit(w.sh).0, Admit(w.sh).1))
  {
    LetInIs(w, t, use);
    if Admit(w.sh).1.Joined? {
      JoinKeeps(w, t, use);
    } else {
      SpawnJoinKeeps(w, t, use);
    }
  }

  lemma AdmittedKeeps(w: World, t: nat, use: Use)
    requires Inv(w) && InAcquire(w, t)
    ensures Inv(Admitted(w, t, use, Admit(w.sh).0, Admit(w.sh).1))
  {
    if Admit(w.sh).1.Refused? || Admit(w.sh).1.Blocked? {
      TurnedAwayKeeps(w, t, use);
    } else {
      LetInKeeps(w, t, use);
    }
  }

  /** The timers may change without disturbing anything else. */
  function WithTimers(w: World, idle: Option<nat>, idleGen: nat, timers: set<nat>, armedAt: map<nat, nat>): World {
    w.(sh := w.sh.(idle := idle, idleGen := idleGen), timers := timers, armedAt := armedAt)
  }

  /** The idle timer is forgotten and stopped. */
  function WithoutTimer(w: World): World {
    WithTimers(w, None, w.sh.idleGen, Unarm(w.timers, w.sh.idle), w.armedAt)
  }

  lemma TimersAsideLoops(w: World, idle: Option<nat>, idleGen: nat, timers: set<nat>, armedAt: map<nat, nat>)
    requires LoopsOk(w) && StopOk(w) && RetiredOk(w)
    ensures var w' := WithTimers(w, idle, idleGen, timers, armedAt); LoopsOk(w') && StopOk(w') && RetiredOk(w')
  {
  }

  lemma TimersAsideRest(w: World, idle: Option<nat>, idleGen: nat, timers: set<nat>, armedAt: map<nat, nat>)
    requires NotifyOk(w) && CountOk(w) && CloseOk(w)
    ensures var w' := WithTimers(w, idle, idleGen, timers, armedAt); NotifyOk(w') && CountOk(w') && CloseOk(w')
  {
  }

  lemma TimersAside(w: World, idle: Option<nat>, idleGen: nat, timers: set<nat>, armedAt: map<nat, nat>)
    requires Core(w)
    ensures Core(WithTimers(w, idle, idleGen, timers, armedAt))
  {
    TimersAsideLoops(w, idle, idleGen, timers, armedAt);
    TimersAsideRest(w, idle, idleGen, timers, armedAt);
  }

  lemma UnarmKeeps(w: World)
    requires Inv(w) && !w.sh.closed
    ensures Inv(WithoutTimer(w))
  {
    TimersAside(w, None, w.sh.idleGen, Unarm(w.timers, w.sh.idle), w.armedAt);
    assert TimersOk(WithoutTimer(w)) && IdleOk(WithoutTimer(w));
  }

  lemma EnterIs(w: World, t: nat)
    requires t in w.threads && w.threads[t].Entering? && !w.sh.closed
    ensures var w0 := WithoutTimer(w);
            DoEnter(w, t) == Admitted(w0, t, w.threads[t].use, Admit(w0.sh).0, Admit(w0.sh).1)
  {
  }

  lemma EnterKeeps(w: World, t: nat)
    requires Inv(w) && t in w.threads && w.threads[t].Entering?
    ensures Inv(DoEnter(w, t))
  {
    if w.sh.closed {
      MoveKeeps(w, t, Holding(w.threads[t].use, false));
    } else {
      UnarmKeeps(w);
      EnterIs(w, t);
      AdmittedKeeps(WithoutTimer(w), t, w.threads[t].use);
    }
  }

  lemma LookKeeps(w: World, t: nat, now: int)
    requires Inv(w) && t in w.threads && w.threads[t].Holding? && !w.threads[t].use.Stream?
    ensures Inv(DoLook(w, t, now))
  {
    MoveKeeps(w, t, DoLook(w, t, now).threads[t]);
  }

  lemma TimeUpKeeps(w: World, t: nat, now: int)
    requires Inv(w) && Enabled(w, TimeUp(t, now))
    ensures Inv(DoTimeUp(w, t, now))
  {
    MoveKeeps(w, t, DoTimeUp(w, t, now).threads[t]);
  }

  predicate MayLeave(w: World, t: nat) {
    t in w.threads && w.threads[t].Leaving?
  }

  /** A caller is no longer counted. */
  function Drop(w: World, t: nat): World {
    var sh := if w.sh.consumers > 0 then w.sh.(consumers := w.sh.consumers - 1) else w.sh;
    Goto(w.(sh := sh, holders := w.holders - {t}), t, Finished)
  }

  /** A timer of a new generation is armed. */
  function Arm(w: World): World {
    var gen := w.sh.idleGen + 1;
    WithTimers(w, Some(gen), gen, w.timers + {gen}, w.armedAt[gen := w.counted])
  }

  lemma LeaveIs(w: World, t: nat)
    requires MayLeave(w, t)
    ensures DoLeave(w, t) ==
            var w1 := Drop(w, t);
            if w1.sh.consumers == 0 && w1.sh.cancel.Some? && !w1.sh.closed then Arm(w1) else w1
  {
  }

  lemma DropKeepsLoops(w: World, t: nat)
    requires Inv(w) && MayLeave(w, t)
    ensures var w' := Drop(w, t); LoopsOk(w') && StopOk(w') && CloseOk(w')
  {
  }

  lemma DropKeepsRetired(w: World, t: nat)
    requires Inv(w) && MayLeave(w, t)
    ensures RetiredOk(Drop(w, t))
  {
  }

  lemma DropKeepsRest(w: World, t: nat)
    requires Inv(w) && MayLeave(w, t)
    ensures var w' := Drop(w, t); NotifyOk(w') && CountOk(w') && TimersOk(w')
    ensures var s := Drop(w, t).sh; s.consumers > 0 || s.cancel.None? || s.closed ==> IdleOk(Drop(w, t))
  {
  }

  lemma ArmRenewsTimers(w: World)
    requires TimersOk(w)
    ensures TimersOk(Arm(w)) && IdleOk(Arm(w))
  {
  }

  lemma ArmKeepsLoops(w: World)
    requires LoopsOk(w) && StopOk(w) && RetiredOk(w)
    ensures LoopsOk(Arm(w)) && StopOk(Arm(w)) && RetiredOk(Arm(w))
  {
    var gen := w.sh.idleGen + 1;
    TimersAsideLoops(w, Some(gen), gen, w.timers + {gen}, w.armedAt[gen := w.counted]);
  }

  lemma ArmKeepsRest(w: World)
    requires NotifyOk(w) && CountOk(w) && CloseOk(w)
    ensures NotifyOk(Arm(w)) && CountOk(Arm(w)) && CloseOk(Arm(w))
  {
    var gen := w.sh.idleGen + 1;
    TimersAsideRest(w, Some(gen), gen, w.timers + {gen}, w.armedAt[gen := w.counted]);
  }

  lemma ArmKeeps(w: World)
    requires Base(w)
    ensures Inv(Arm(w))
  {
    ArmKeepsLoops(w);
    ArmKeepsRest(w);
    ArmRenewsTimers(w);
  }

  lemma LeaveKeeps(w: World, t: nat)
    requires Inv(w) && MayLeave(w, t)
    ensures Inv(DoLeave(w, t))
  {
    LeaveIs(w, t);
    DropKeepsLoops(w, t);
    DropKeepsRetired(w, t);
    DropKeepsRest(w, t);
    ArmKeeps(Drop(w, t));
  }

  // The idle stop.

  lemma ExpireKeeps(w: World, gen: nat)
    requires Inv(w)
    ensures Inv(WithTimers(w, w.sh.idle, w.sh.idleGen, w.timers - {gen}, w.armedAt))
  {
    TimersAside(w, w.sh.idle, w.sh.idleGen, w.timers - {gen}, w.armedAt);
  }

  lemma FireKeeps(w: World, t: nat, gen: nat)
    requires Inv(w) && t !in w.threads && gen in w.timers
    ensures Inv(Goto(w.(timers := w.timers - {gen}), t, StopFired(gen)))
  {
    ExpireKeeps(w, gen);
    MoveKeeps(WithTimers(w, w.sh.idle, w.sh.idleGen, w.timers - {gen}, w.armedAt), t, StopFired(gen));
  }

  predicate MayRetire(w: World, t: nat) {
    && t in w.threads && w.threads[t].StopFired?
    && Retire(w.sh, w.threads[t].gen).1.Some?
  }

  lemma RetireKeepsLoops(w: World, t: nat)
    requires Inv(w) && MayRetire(w, t)
    ensures var w' := DoStopRetire(w, t); LoopsOk(w') && StopOk(w') && RetiredOk(w')
  {
  }

  lemma RetireKeepsRest(w: World, t: nat)
    requires Inv(w) && MayRetire(w, t)
    ensures var w' := DoStopRetire(w, t); NotifyOk(w') && CountOk(w') && TimersOk(w') && IdleOk(w') && CloseOk(w')
  {
  }

  lemma RetireKeeps(w: World, t: nat)
    requires Inv(w) && MayRetire(w, t)
    ensures Inv(DoStopRetire(w, t))
  {
    RetireKeepsLoops(w, t);
    RetireKeepsRest(w, t);
  }

  /** A loop's context is cancelled by a goroutine that then joins it. */
  predicate MayCancel(w: World, t: nat, next: Pc) {
    && t in w.threads && w.sh.done in w.loops
    && ((w.threads[t] == StopCancel(w.sh.done) && next == StopJoin(w.sh.done))
        || (w.threads[t] == CloseCancel(w.sh.done) && next == CloseJoin(w.sh.done)))
  }

  lemma CancelKeepsLoops(w: World, t: nat, next: Pc)
    requires Inv(w) && MayCancel(w, t, next)
    ensures var w' := DoCancel(w, t, w.sh.done, next); LoopsOk(w') && StopOk(w')
  {
  }

  lemma CancelKeepsClosers(w: World, t: nat, next: Pc)
    requires Inv(w) && MayCancel(w, t, next)
    ensures var w' := DoCancel(w, t, w.sh.done, next); RetiredOk(w') && CloseOk(w')
  {
  }

  lemma CancelKeepsRest(w: World, t: nat, next: Pc)
    requires Inv(w) && MayCancel(w, t, next)
    ensures var w' := DoCancel(w, t, w.sh.done, next); NotifyOk(w') && CountOk(w')
  {
  }

  lemma CancelKeepsTimers(w: World, t: nat, next: Pc)
    requires Inv(w) && MayCancel(w, t, next)
    ensures var w' := DoCancel(w, t, w.sh.done, next); TimersOk(w') && IdleOk(w')
  {
  }

  lemma CancelKeeps(w: World, t: nat, next: Pc)
    requires Inv(w) && MayCancel(w, t, next)
    ensures Inv(DoCancel(w, t, w.sh.done, next))
  {
    CancelKeepsLoops(w, t, next);
    CancelKeepsClosers(w, t, next);
    CancelKeepsRest(w, t, next);
    CancelKeepsTimers(w, t, next);
  }

  /** A goroutine has seen done closed. */
  predicate MayFinishJoin(w: World, t: nat, next: Pc) {
    && t in w.threads && Quiet(w)
    && ((w.threads[t] == StopJoin(w.sh.done) && next == StopClear)
        || (w.threads[t] == CloseJoin(w.sh.done) && next == Finished))
  }

  lemma JoinedKeepsLoops(w: World, t: nat, next: Pc)
    requires Inv(w) && MayFinishJoin(w, t, next)
    ensures var w' := Goto(w, t, next); LoopsOk(w') && StopOk(w')
  {
  }

  lemma JoinedKeepsClosers(w: World, t: nat, next: Pc)
    requires Inv(w) && MayFinishJoin(w, t, next)
    ensures var w' := Goto(w, t, next); RetiredOk(w') && CloseOk(w')
  {
  }

  lemma JoinedKeepsRest(w: World, t: nat, next: Pc)
    requires Inv(w) && MayFinishJoin(w, t, next)
    ensures var w' := Goto(w, t, next); NotifyOk(w') && CountOk(w')
  {
  }

  lemma JoinedKeepsTimers(w: World, t: nat, next: Pc)
    requires Inv(w) && MayFinishJoin(w, t, next)
    ensures var w' := Goto(w, t, next); TimersOk(w') && IdleOk(w')
  {
  }

  lemma JoinedKeeps(w: World, t: nat, next: Pc)
    requires Inv(w) && MayFinishJoin(w, t, next)
    ensures Inv(Goto(w, t, next))
  {
    JoinedKeepsLoops(w, t, next);
    JoinedKeepsClosers(w, t, next);
    JoinedKeepsRest(w, t, next);
    JoinedKeepsTimers(w, t, next);
  }

  lemma ClearKeepsLoops(w: World, t: nat)
    requires Inv(w) && At(w, t, StopClear)
    ensures var w' := DoStopClears(w, t); LoopsOk(w') && StopOk(w')
  {
  }

  lemma ClearKeepsClosers(w: World, t: nat)
    requires Inv(w) && At(w, t, StopClear)
    ensures var w' := DoStopClears(w, t); RetiredOk(w') && CloseOk(w')
  {
  }

  lemma ClearKeepsRest(w: World, t: nat)
    requires Inv(w) && At(w, t, StopClear)
    ensures var w' := DoStopClears(w, t); NotifyOk(w') && CountOk(w')
  {
  }

  lemma ClearKeepsTimers(w: World, t: nat)
    requires Inv(w) && At(w, t, StopClear)
    ensures var w' := DoStopClears(w, t); TimersOk(w') && IdleOk(w')
  {
  }

  lemma ClearKeeps(w: World, t: nat)
    requires Inv(w) && At(w, t, StopClear)
    ensures Inv(DoStopClears(w, t))
  {
    ClearKeepsLoops(w, t);
    ClearKeepsClosers(w, t);
    ClearKeepsRest(w, t);
    ClearKeepsTimers(w, t);
  }

  lemma SignalKeepsLoops(w: World, t: nat)
    requires Inv(w) && t in w.threads && w.threads[t].StopSignal?
    ensures var w' := DoStopSignals(w, t); LoopsOk(w') && StopOk(w')
  {
  }

  lemma SignalKeepsClosers(w: World, t: nat)
    requires Inv(w) && t in w.threads && w.threads[t].StopSignal?
    ensures var w' := DoStopSignals(w, t); RetiredOk(w') && CloseOk(w')
  {
  }

  lemma SignalKeepsRest(w: World, t: nat)
    requires Inv(w) && t in w.threads && w.threads[t].StopSignal?
    ensures var w' := DoStopSignals(w, t); NotifyOk(w') && CountOk(w')
  {
  }

  lemma SignalKeepsTimers(w: World, t: nat)
    requires Inv(w) && t in w.threads && w.threads[t].StopSignal?
    ensures var w' := DoStopSignals(w, t); TimersOk(w') && IdleOk(w')
  {
  }

  lemma SignalKeeps(w: World, t: nat)
    requires Inv(w) && t in w.threads && w.threads[t].StopSignal?
    ensures Inv(DoStopSignals(w, t))
  {
    SignalKeepsLoops(w, t);
    SignalKeepsClosers(w, t);
    SignalKeepsRest(w, t);
    SignalKeepsTimers(w, t);
  }

  // Closing.

  lemma CloseKeepsLoops(w: World, t: nat)
    requires Inv(w) && At(w, t, CloseCalled) && !w.sh.closed
    ensures var w' := DoCloseLocks(w, t); LoopsOk(w') && StopOk(w') && RetiredOk(w')
  {
  }

  lemma CloseKeepsClose(w: World, t: nat)
    requires Inv(w) && At(w, t, CloseCalled) && !w.sh.closed
    ensures CloseOk(DoCloseLocks(w, t))
  {
  }

  lemma CloseKeepsRest(w: World, t: nat)
    requires Inv(w) && At(w, t, CloseCalled) && !w.sh.closed
    ensures var w' := DoCloseLocks(w, t); NotifyOk(w') && CountOk(w')
  {
  }

  lemma CloseKeepsTimers(w: World, t: nat)
    requires Inv(w) && At(w, t, CloseCalled) && !w.sh.closed
    ensures var w' := DoCloseLocks(w, t); TimersOk(w') && IdleOk(w')
  {
  }

  lemma CloseKeeps(w: World, t: nat)
    requires Inv(w) && At(w, t, CloseCalled) && !w.sh.closed
    ensures Inv(DoCloseLocks(w, t))
  {
    CloseKeepsLoops(w, t);
    CloseKeepsClose(w, t);
    CloseKeepsRest(w, t);
    CloseKeepsTimers(w, t);
  }

  // The loop.

  /** Phases a loop can move to without touching the shared fields. */
  predicate MayPass(w: World, l: nat, p: Phase) {
    l in w.loops && !w.loops[l].phase.Exited? && !w.loops[l].phase.Waking? && !p.Waking?
  }

  lemma PassKeepsLoops(w: World, l: nat, p: Phase)
    requires Inv(w) && MayPass(w, l, p)
    ensures var w' := SetPhase(w, l, p); LoopsOk(w') && StopOk(w')
  {
  }

  lemma PassKeepsClosers(w: World, l: nat, p: Phase)
    requires Inv(w) && MayPass(w, l, p)
    ensures var w' := SetPhase(w, l, p); RetiredOk(w') && CloseOk(w')
  {
  }

  lemma PassKeepsRest(w: World, l: nat, p: Phase)
    requires Inv(w) && MayPass(w, l, p)
    ensures var w' := SetPhase(w, l, p); NotifyOk(w') && CountOk(w')
  {
  }

  lemma PassKeepsTimers(w: World, l: nat, p: Phase)
    requires Inv(w) && MayPass(w, l, p)
    ensures var w' := SetPhase(w, l, p); TimersOk(w') && IdleOk(w')
  {
  }

  lemma PassKeeps(w: World, l: nat, p: Phase)
    requires Inv(w) && MayPass(w, l, p)
    ensures Inv(SetPhase(w, l, p))
  {
    PassKeepsLoops(w, l, p);
    PassKeepsClosers(w, l, p);
    PassKeepsRest(w, l, p);
    PassKeepsTimers(w, l, p);
  }

  lemma PublishKeepsLoops(w: World, l: nat, now: int)
    requires Inv(w) && LoopAt(w, l, Reading)
    ensures var w' := DoLoopPublish(w, l, now); LoopsOk(w') && StopOk(w')
  {
  }

  lemma PublishKeepsClosers(w: World, l: nat, now: int)
    requires Inv(w) && LoopAt(w, l, Reading)
    ensures var w' := DoLoopPublish(w, l, now); RetiredOk(w') && CloseOk(w')
  {
  }

  lemma PublishKeepsRest(w: World, l: nat, now: int)
    requires Inv(w) && LoopAt(w, l, Reading)
    ensures var w' := DoLoopPublish(w, l, now); NotifyOk(w') && CountOk(w')
  {
  }

  lemma PublishKeepsTimers(w: World, l: nat, now: int)
    requires Inv(w) && LoopAt(w, l, Reading)
    ensures var w' := DoLoopPublish(w, l, now); TimersOk(w') && IdleOk(w')
  {
  }

  lemma PublishKeeps(w: World, l: nat, now: int)
    requires Inv(w) && LoopAt(w, l, Reading)
    ensures Inv(DoLoopPublish(w, l, now))
  {
    PublishKeepsLoops(w, l, now);
    PublishKeepsClosers(w, l, now);
    PublishKeepsRest(w, l, now);
    PublishKeepsTimers(w, l, now);
  }

  lemma WakeKeepsLoops(w: World, l: nat)
    requires Inv(w) && l in w.loops && w.loops[l].phase.Waking?
    ensures var w' := DoLoopWake(w, l); LoopsOk(w') && StopOk(w')
  {
  }

  lemma WakeKeepsClosers(w: World, l: nat)
    requires Inv(w) && l in w.loops && w.loops[l].phase.Waking?
    ensures var w' := DoLoopWake(w, l); RetiredOk(w') && CloseOk(w')
  {
  }

  lemma WakeKeepsRest(w: World, l: nat)
    requires Inv(w) && l in w.loops && w.loops[l].phase.Waking?
    ensures var w' := DoLoopWake(w, l); NotifyOk(w') && CountOk(w')
  {
  }

  lemma WakeKeepsTimers(w: World, l: nat)
    requires Inv(w) && l in w.loops && w.loops[l].phase.Waking?
    ensures var w' := DoLoopWake(w, l); TimersOk(w') && IdleOk(w')
  {
  }

  lemma WakeKeeps(w: World, l: nat)
    requires Inv(w) && l in w.loops && w.loops[l].phase.Waking?
    ensures Inv(DoLoopWake(w, l))
  {
    WakeKeepsLoops(w, l);
    WakeKeepsClosers(w, l);
    WakeKeepsRest(w, l);
    WakeKeepsTimers(w, l);
  }

  // Every step.

  lemma CallStepKeeps(w: World, step: Step)
    requires step.Call? || step.CallClose? || step.RetirementSeen?
    requires Inv(w) && Enabled(w, step)
    ensures Inv(Next(w, step))
  {
    var pc :=
      if step.Call? then Entering(step.use)
      else if step.CallClose? then CloseCalled
      else Reentering(w.threads[step.t].use);
    assert Next(w, step) == Goto(w, step.t, pc);
    MoveKeeps(w, step.t, pc);
  }

  lemma AdmitStepKeeps(w: World, step: Step)
    requires Admits(step) && Inv(w) && Enabled(w, step)
    ensures Inv(Next(w, step))
  {
    match step {
      case Enter(t) => EnterKeeps(w, t);
      case Reenter(t) => AdmittedKeeps(w, t, w.threads[t].use);
    }
  }

  lemma WaitStepKeeps(w: World, step: Step)
    requires step.Notified? || step.TimeUp? || step.GiveUp?
    requires Inv(w) && Enabled(w, step)
    ensures Inv(Next(w, step))
  {
    match step {
      case Notified(t) => MoveKeeps(w, t, Holding(w.threads[t].use, w.threads[t].counted));
      case TimeUp(t, now) => TimeUpKeeps(w, t, now);
      case GiveUp(t) => MoveKeeps(w, t, Leaving(w.threads[t].counted, 0));
    }
  }

  lemma LookStepKeeps(w: World, step: Step)
    requires step.Look? || step.Leave?
    requires Inv(w) && Enabled(w, step)
    ensures Inv(Next(w, step))
  {
    match step {
      case Look(t, now) => LookKeeps(w, t, now);
      case Leave(t) => LeaveKeeps(w, t);
    }
  }

  lemma StopBeginKeeps(w: World, step: Step)
    requires step.Fire? || step.StopRetire?
    requires Inv(w) && Enabled(w, step)
    ensures Inv(Next(w, step))
  {
    match step {
      case Fire(t, gen) => FireKeeps(w, t, gen);
      case StopRetire(t) => if MayRetire(w, t) { RetireKeeps(w, t); } else { MoveKeeps(w, t, Finished); }
    }
  }

  lemma JoinStepKeeps(w: World, step: Step)
    requires step.StopCancels? || step.StopJoins? || step.CloseCancels? || step.CloseJoins?
    requires Inv(w) && Enabled(w, step)
    ensures Inv(Next(w, step))
  {
    match step {
      case StopCancels(t) => CancelKeeps(w, t, StopJoin(w.sh.done));
      case StopJoins(t) => JoinedKeeps(w, t, StopClear);
      case CloseCancels(t) => CancelKeeps(w, t, CloseJoin(w.sh.done));
      case CloseJoins(t) => JoinedKeeps(w, t, Finished);
    }
  }

  lemma StopEndKeeps(w: World, step: Step)
    requires step.StopClears? || step.StopSignals?
    requires Inv(w) && Enabled(w, step)
    ensures Inv(Next(w, step))
  {
    match step {
      case StopClears(t) => ClearKeeps(w, t);
      case StopSignals(t) => SignalKeeps(w, t);
    }
  }

  lemma CloseStepKeeps(w: World, t: nat)
    requires Inv(w) && Enabled(w, CloseLocks(t))
    ensures Inv(DoCloseLocks(w, t))
  {
    if w.sh.closed {
      MoveKeeps(w, t, Finished);
    } else {
      CloseKeeps(w, t);
    }
  }

  lemma PassStepKeeps(w: World, step: Step)
    requires step.LoopBegin? || step.LoopTop? || step.LoopFail?
    requires Inv(w) && Enabled(w, step)
    ensures Inv(Next(w, step))
  {
    match step {
      case LoopBegin(l, resolved) => PassKeeps(w, l, if resolved then Top else Exited);
      case LoopTop(l) => PassKeeps(w, l, if w.loops[l].cancelled then Exited else Reading);
      case LoopFail(l, connecting) =>
        PassKeeps(w, l, if !connecting && (w.loops[l].cancelled || w.sh.cancel.None?) then Exited else Top);
    }
  }

  lemma FrameStepKeeps(w: World, step: Step)
    requires step.LoopPublish? || step.LoopWake?
    requires Inv(w) && Enabled(w, step)
    ensures Inv(Next(w, step))
  {
    match step {
      case LoopPublish(l, now) => PublishKeeps(w, l, now);
      case LoopWake(l) => WakeKeeps(w, l);
    }
  }

  lemma CallerStepKeeps(w: World, step: Step)
    requires step.Call? || step.CallClose? || step.RetirementSeen? || step.Enter? || step.Reenter?
             || step.Look? || step.Leave? || step.Notified? || step.TimeUp? || step.GiveUp?
    requires Inv(w) && Enabled(w, step)
    ensures Inv(Next(w, step))
  {
    if step.Call? || step.CallClose? || step.RetirementSeen? {
      CallStepKeeps(w, step);
    } else if Admits(step) {
      AdmitStepKeeps(w, step);
    } else if step.Look? || step.Leave? {
      LookStepKeeps(w, step);
    } else {
      WaitStepKeeps(w, step);
    }
  }

  /** Every step keeps the invariant. */
  lemma StepKeeps(w: World, step: Step)
    requires Inv(w) && Enabled(w, step)
    ensures Inv(Next(w, step))
  {
    if step.Fire? || step.StopRetire? {
      StopBeginKeeps(w, step);
    } else if step.StopClears? || step.StopSignals? {
      StopEndKeeps(w, step);
    } else if step.StopCancels? || step.StopJoins? || step.CloseCancels? || step.CloseJoins? {
      JoinStepKeeps(w, step);
    } else if step.CloseLocks? {
      CloseStepKeeps(w, step.t);
    } else if step.LoopPublish? || step.LoopWake? {
      FrameStepKeeps(w, step);
    } else if ByLoop(step) {
      PassStepKeeps(w, step);
    } else {
      CallerStepKeeps(w, step);
    }
  }

  /** The invariant holds in every state of every run. */
  lemma {:induction false} RunKeeps(ws: seq<World>, steps: seq<Step>, i: nat)
    requires Run(ws, steps) && i < |ws|
    ensures Inv(ws[i])
  {
    if i == 0 {
      StartOk();
    } else {
      RunKeeps(ws, steps, i - 1);
      StepKeeps(ws[i - 1], steps[i - 1]);
    }
  }
}
