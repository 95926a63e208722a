/**
 The fields of one shared camera capture that its mutex protects, and the critical sections
 of capture.go as functions on them. Channels, loops and timers are named by numbers:
 a fresh channel is the next unused number of its role.
 */
module CaptureState {
  import opened Options

  datatype Shared = Shared(
    consumers: nat,
    notify: nat,          // the current notification channel
    closed: bool,
    stopping: bool,
    retired: nat,         // the newest retirement channel; 0 before the first one
    idle: Option<nat>,    // generation of the timer the capture still refers to
    idleGen: nat,
    frame: nat,           // sequence of the newest frame; 0 before the first one
    captured: int,        // when it was captured, in milliseconds
    cancel: Option<nat>,  // the loop whose cancel function is held
    done: nat,            // the newest loop, named by its done channel; 0 before the first one
    backoffN: nat)

  const Fresh := Shared(0, 0, false, false, 0, None, 0, 0, 0, None, 0, 0)

  datatype Admission = Refused | Blocked(on: nat) | Joined | Started(loop: nat)

  /** The part of acquire after the idle timer was stopped, entered again after every retirement wait. */
  function Admit(s: Shared): (Shared, Admission) {
    if s.cancel.None? && s.stopping then (s, Blocked(s.retired))
    else if s.closed then (s, Refused)
    else if s.cancel.None? then
      (s.(consumers := s.consumers + 1, cancel := Some(s.done + 1), done := s.done + 1), Started(s.done + 1))
    else (s.(consumers := s.consumers + 1), Joined)
  }

  /** acquire up to its first wait; the third result is the timer it stops. */
  function Acquire(s: Shared): (Shared, Admission, Option<nat>) {
    if s.closed then (s, Refused, None)
    else
      var (s', a) := Admit(s.(idle := None));
      (s', a, s.idle)
  }

  /** release; the result names the generation of the timer it arms. */
  function Release(s: Shared): (Shared, Option<nat>) {
    var s' := if s.consumers > 0 then s.(consumers := s.consumers - 1) else s;
    if s'.consumers == 0 && s'.cancel.Some? && !s'.closed then
      (s'.(idleGen := s'.idleGen + 1, idle := Some(s'.idleGen + 1)), Some(s'.idleGen + 1))
    else (s', None)
  }

  /** The first section of stopIdle; the result is the loop it must cancel and join. */
  function Retire(s: Shared, gen: nat): (Shared, Option<nat>) {
    if gen != s.idleGen || s.closed || s.consumers > 0 || s.cancel.None? then (s, None)
    else (s.(cancel := None, stopping := true, retired := s.retired + 1, idle := None), s.cancel)
  }

  /** The second section of stopIdle; the result is the channel it closes next. */
  function Retired(s: Shared): (Shared, nat) {
    (s.(stopping := false), s.retired)
  }

  datatype Closing = Already | CancelFirst(loop: nat) | JoinOnly(loop: nat) | NothingToJoin

  /** close's section, with what it must do after unlocking and the timer it stops. */
  function Close(s: Shared): (Shared, Closing, Option<nat>) {
    if s.closed then (s, Already, None)
    else
      (s.(closed := true, idle := None, cancel := None),
       if s.cancel.Some? then CancelFirst(s.done) else if s.stopping then JoinOnly(s.done) else NothingToJoin,
       s.idle)
  }

  /** publish; the result is the replaced channel that must be closed after unlocking. */
  function Publish(s: Shared, now: int): (Shared, Option<nat>) {
    if s.closed then (s, None)
    else (s.(frame := s.frame + 1, captured := now, notify := s.notify + 1), Some(s.notify))
  }

  datatype Look = Gone | Sees(frame: nat, captured: int, on: nat)

  /** The section wait and snapshot repeat before every select. */
  function LookAt(s: Shared): Look {
    if s.closed then Gone else Sees(s.frame, s.captured, s.notify)
  }
}

/** The capture object itself: each method is one critical section, proved against its function. */
module CaptureObject {
  import opened Options
  import S = CaptureState
  import B = Backoff

  class Capture {
    var consumers: nat
    var notify: nat
    var closed: bool
    var stopping: bool
    var retired: nat
    var idle: Option<nat>
    var idleGen: nat
    var frame: nat
    var captured: int
    var cancel: Option<nat>
    var done: nat
    var backoffN: nat

    function Fields(): S.Shared
      reads this
    {
      S.Shared(consumers, notify, closed, stopping, retired, idle, idleGen, frame, captured, cancel, done, backoffN)
    }

    constructor ()
      ensures Fields() == S.Fresh
    {
      consumers, notify, closed, stopping, retired := 0, 0, false, false, 0;
      idle, idleGen, frame, captured, cancel, done, backoffN := None, 0, 0, 0, None, 0, 0;
    }

    method Admit() returns (a: S.Admission)
      modifies this
      ensures (Fields(), a) == S.Admit(old(Fields()))
    {
      if cancel == None && stopping {
        return S.Blocked(retired);
      }
      if closed {
        return S.Refused;
      }
      consumers := consumers + 1;
      a := S.Joined;
      if cancel == None {
        done := done + 1;
        cancel := Some(done);
        a := S.Started(done);
      }
    }

    method Acquire() returns (a: S.Admission, stopped: Option<nat>)
      modifies this
      ensures (Fields(), a, stopped) == S.Acquire(old(Fields()))
    {
      if closed {
        return S.Refused, None;
      }
      stopped := idle;
      if idle != None {
        idle := None;
      }
      a := Admit();
    }

    method Release() returns (armed: Option<nat>)
      modifies this
      ensures (Fields(), armed) == S.Release(old(Fields()))
    {
      armed := None;
      if consumers > 0 {
        consumers := consumers - 1;
      }
      if consumers == 0 && cancel != None && !closed {
        idleGen := idleGen + 1;
        idle := Some(idleGen);
        armed := idle;
      }
    }

    method Retire(gen: nat) returns (loop: Option<nat>)
      modifies this
      ensures (Fields(), loop) == S.Retire(old(Fields()), gen)
    {
      if gen != idleGen || closed || consumers > 0 || cancel == None {
        return None;
      }
      loop := cancel;
      cancel := None;
      stopping := true;
      retired := retired + 1;
      idle := None;
    }

    method Retired() returns (signal: nat)
      modifies this
      ensures (Fields(), signal) == S.Retired(old(Fields()))
    {
      stopping := false;
      signal := retired;
    }

    method Close() returns (c: S.Closing, stopped: Option<nat>)
      modifies this
      ensures (Fields(), c, stopped) == S.Close(old(Fields()))
    {
      if closed {
        return S.Already, None;
      }
      closed := true;
      stopped := idle;
      if idle != None {
        idle := None;
      }
      c := if cancel != None then S.CancelFirst(done) else if stopping then S.JoinOnly(done) else S.NothingToJoin;
      cancel := None;
    }

    method Publish(now: int) returns (replaced: Option<nat>)
      modifies this
      ensures (Fields(), replaced) == S.Publish(old(Fields()), now)
    {
      if closed {
        return None;
      }
      frame, captured := frame + 1, now;
      replaced := Some(notify);
      notify := notify + 1;
    }

    method LookAt() returns (l: S.Look)
      ensures l == S.LookAt(Fields())
    {
      if closed {
        return S.Gone;
      }
      l := S.Sees(frame, captured, notify);
    }

    /** The next reconnect delay; random stands for the random source's answer below d / 5. */
    method BackoffDuration(random: nat -> nat) returns (delay: int)
      requires forall bound: nat :: bound > 0 ==> random(bound) < bound
      modifies this`backoffN
      ensures B.Ideal(old(backoffN)) <= delay
      ensures 5 * delay < 6 * B.Ideal(old(backoffN))
      ensures backoffN == old(backoffN) + 1
    {
      var d := B.ShiftLeft(B.INITIAL, backoffN);
      if d > B.MAX || d <= 0 {
        d := B.MAX;
      }
      B.GuardedIsIdeal(backoffN);
      B.IdealBounds(backoffN);
      backoffN := backoffN + 1;
      var jitter := random(d / 5);
      delay := d + jitter;
    }

    method ResetBackoff()
      modifies this`backoffN
      ensures backoffN == 0
    {
      backoffN := 0;
    }
  }
}
