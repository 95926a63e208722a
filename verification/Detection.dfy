/**
 The AI-detection worker of one printer: session resets, user toggles, the one pause per print and the
 accounting of failed checks, as functions on the state its mutex protects. Provider answers, camera
 results and the clock are inputs.
 */
module DetectionState {
  import opened Options
  import opened Doc
  import opened Events

  const RECOVER_AFTER: nat := 3
  const RETRY_DELAY: int := 30 // seconds

  datatype PauseState = PauseNone | PausePending | PauseConfirmed | PauseUnconfirmed

  datatype Reason = NoReason | CameraLost | ApiRetrying | RequestInvalid | PauseNotConfirmed | PauseNotSent

  datatype Detector = Detector(
    doc: View, online: bool,
    counter: nat,             // the current print
    disabled: bool,           // off for this print
    held: bool,               // off until turned on
    latched: bool,            // the one pause of this print is spent
    pauseLayer: Option<int>,
    lightDone: bool,
    pauseState: PauseState, reason: Reason, usingFallback: bool,
    due: Option<int>,         // when the next check may begin, once one was made
    troubleSince: Option<int>, failures: nat, successes: nat)

  const Fresh := Detector(View(None, None, None, None, None), false, 0, false, false, false, None, false,
                          PauseNone, NoReason, false, None, None, 0, 0)

  predicate Active(doc: View) {
    doc.State().Running? || IsPaused(doc.State())
  }

  /** A new job, or attaching to a print that is active or preparing, starts a session. */
  predicate Resets(e: Report) {
    e.newJob || (StateInitial in e.kinds && (Active(e.cur) || Preparing(e.cur.State())))
  }

  function NewSession(d: Detector): Detector {
    d.(counter := d.counter + 1, disabled := false, latched := false, lightDone := false, pauseLayer := None,
       pauseState := PauseNone, reason := NoReason, usingFallback := false, due := None,
       troubleSince := None, failures := 0, successes := 0)
  }

  /** A pending pause is settled by what the printer now shows. */
  function SettlePause(d: Detector): Detector {
    if !d.pauseState.PausePending? then d
    else if !d.doc.State().Running? then d.(pauseState := PauseConfirmed)
    else if d.pauseLayer.Some? && d.doc.layer.Some? && d.doc.layer.value > d.pauseLayer.value then
      d.(pauseState := PauseUnconfirmed, reason := PauseNotConfirmed)
    else d
  }

  /** A report is taken in, its pause not yet settled. */
  function Shown(d: Detector, e: Report): Detector {
    var d1 := if Resets(e) then NewSession(d) else d;
    d1.(doc := e.cur, online := e.online, disabled := d1.disabled && Active(e.cur))
  }

  function Observe(d: Detector, e: Report): Detector { SettlePause(Shown(d, e)) }

  /** What the activity log is told about a pause. */
  datatype Outcome = Confirmed | NotConfirmed

  /** The outcome queued when settling changes the state of the pause. */
  function OutcomeOf(d: Detector): Option<Outcome> {
    if SettlePause(d).pauseState == d.pauseState then None
    else if SettlePause(d).pauseState.PauseConfirmed? then Some(Confirmed)
    else Some(NotConfirmed)
  }

  // The toggle.

  /** The session token a client echoes: absent, a print counter, or anything else. */
  datatype Token = Blank | Session(counter: nat) | OtherText

  datatype ToggleError = Unavailable | StaleSession | NoPrintSession

  function ToggleCheck(d: Detector, available: bool, enabled: bool, token: Token): Option<ToggleError> {
    if enabled then None
    else if !available then Some(Unavailable)
    else if Active(d.doc) && d.counter != 0 then (if token == Session(d.counter) then None else Some(StaleSession))
    else if Active(d.doc) then Some(NoPrintSession)
    else if token != Blank then Some(StaleSession)
    else None
  }

  function Toggle(d: Detector, available: bool, enabled: bool, token: Token): (Detector, Option<ToggleError>) {
    var error := ToggleCheck(d, available, enabled, token);
    if error.Some? then (d, error)
    else if enabled then (d.(disabled := false, held := false, lightDone := false), None)
    else if Active(d.doc) then (d.(disabled := true), None)
    else (d.(held := true), None)
  }

  predicate Off(d: Detector) { d.disabled || d.held }

  /** What the loop tests before an inspection. */
  predicate MayInspect(d: Detector, available: bool, suspended: bool) {
    && available && !suspended && !Off(d) && d.online && d.doc.State().Running? && d.counter != 0
    && !d.reason.RequestInvalid?
  }

  // One inspection.

  datatype Failure = NoFrame | Transport | Api(accountTerminal: bool, workerTerminal: bool, switches: bool)

  datatype Failed = Ignored | Suspends | Counted(first: bool, switched: bool)

  function Fail(d: Detector, counter: nat, f: Failure, recommended: int, now: int): (Detector, Failed) {
    if counter != d.counter || Off(d) then (d, Ignored)
    else if f.Api? && f.accountTerminal then (d, Suspends)
    else
      var first := d.troubleSince.None?;
      var switched := f.Api? && f.switches && !d.usingFallback;
      (d.(usingFallback := d.usingFallback || switched,
          reason := if f.Api? && f.workerTerminal then RequestInvalid
                    else if f.NoFrame? then CameraLost else ApiRetrying,
          troubleSince := if first then Some(now) else d.troubleSince,
          failures := (if first then 0 else d.failures) + 1,
          successes := 0,
          due := Some(now + if recommended > 0 then recommended else RETRY_DELAY)),
       Counted(first, switched))
  }

  datatype Verdict = Verdict(pauseSuggested: bool, recommended: int)

  datatype Acceptance = Discarded | Accepted(pause: bool, recovered: bool)

  function Accept(d: Detector, counter: nat, v: Verdict, now: int): (Detector, Acceptance) {
    if counter != d.counter || Off(d) || !Active(d.doc) then (d, Discarded)
    else
      var open := d.troubleSince.Some?;
      var recovered := open && d.successes + 1 >= RECOVER_AFTER;
      var pause := v.pauseSuggested && !d.latched && d.doc.State().Running? && d.online;
      (d.(troubleSince := if recovered then None else d.troubleSince,
          failures := if recovered then 0 else d.failures,
          successes := if recovered then 0 else if open then d.successes + 1 else d.successes,
          reason := NoReason,
          due := Some(now + v.recommended),
          latched := d.latched || pause,
          pauseLayer := if pause && d.doc.layer.Some? then d.doc.layer else d.pauseLayer,
          pauseState := if pause then PausePending else d.pauseState),
       Accepted(pause, recovered))
  }

  /** The pause command could not be sent. */
  function PauseFails(d: Detector, counter: nat): Detector {
    if counter == d.counter && d.pauseState.PausePending? then
      d.(pauseState := PauseUnconfirmed, reason := PauseNotSent)
    else d
  }

  /** autoLight's decision: whether a light command is sent now. */
  function LightDecision(d: Detector, counter: nat): (Detector, bool) {
    if counter == d.counter && !Off(d) && !d.lightDone && d.online && d.doc.State().Running? then
      (d.(lightDone := true), d.doc.light != Some(LightOn))
    else (d, false)
  }
}

/** The worker object: each method is one section under its mutex. */
module DetectionObject {
  import opened Options
  import opened Doc
  import opened Events
  import D = DetectionState

  class DetectionWorker {
    var doc: View
    var online: bool
    var counter: nat
    var disabled: bool
    var held: bool
    var latched: bool
    var pauseLayer: Option<int>
    var lightDone: bool
    var pauseState: D.PauseState
    var reason: D.Reason
    var usingFallback: bool
    var due: Option<int>
    var troubleSince: Option<int>
    var failures: nat
    var successes: nat

    function State(): D.Detector
      reads this
    {
      D.Detector(doc, online, counter, disabled, held, latched, pauseLayer, lightDone,
                 pauseState, reason, usingFallback, due, troubleSince, failures, successes)
    }

    constructor ()
      ensures State() == D.Fresh
    {
      doc, online, counter := View(None, None, None, None, None), false, 0;
      disabled, held, latched, pauseLayer, lightDone := false, false, false, None, false;
      pauseState, reason, usingFallback, due := D.PauseNone, D.NoReason, false, None;
      troubleSince, failures, successes := None, 0, 0;
    }

    method CloseInterruption()
      modifies `troubleSince, `failures, `successes
      ensures troubleSince == None && failures == 0 && successes == 0
    {
      troubleSince, failures, successes := None, 0, 0;
    }

    method ClearStatus()
      modifies `pauseState, `reason, `usingFallback, `pauseLayer, `due
      ensures pauseState == D.PauseNone && reason == D.NoReason && !usingFallback && pauseLayer == None && due == None
    {
      pauseState, reason, usingFallback, pauseLayer, due := D.PauseNone, D.NoReason, false, None, None;
    }

    method StartSession()
      modifies this
      ensures State() == D.NewSession(old(State()))
    {
      counter := counter + 1;
      disabled, latched, lightDone := false, false, false;
      ClearStatus();
      CloseInterruption();
    }

    method SettlePause() returns (outcome: Option<D.Outcome>)
      modifies this
      ensures State() == D.SettlePause(old(State())) && outcome == D.OutcomeOf(old(State()))
    {
      outcome := None;
      if pauseState != D.PausePending {
        return;
      }
      var state := doc.State();
      if IsPaused(state) || !D.Active(doc) {
        pauseState := D.PauseConfirmed;
        outcome := Some(D.Confirmed);
      } else if state.Running? && pauseLayer.Some? {
        if doc.layer.Some? && doc.layer.value > pauseLayer.value {
          pauseState := D.PauseUnconfirmed;
          reason := D.PauseNotConfirmed;
          outcome := Some(D.NotConfirmed);
        }
      }
    }

    method Show(e: Report)
      modifies this
      ensures State() == D.Shown(old(State()), e)
    {
      if D.Resets(e) {
        StartSession();
      }
      doc, online := e.cur, e.online;
      if !D.Active(doc) {
        disabled := false;
      }
    }

    method Apply(e: Report) returns (outcome: Option<D.Outcome>)
      modifies this
      ensures State() == D.Observe(old(State()), e) && outcome == D.OutcomeOf(D.Shown(old(State()), e))
    {
      Show(e);
      outcome := SettlePause();
    }

    method SetEnabled(available: bool, enabled: bool, token: D.Token) returns (error: Option<D.ToggleError>)
      modifies this
      ensures (State(), error) == D.Toggle(old(State()), available, enabled, token)
    {
      error := None;
      var hold := false;
      if !enabled {
        if !available {
          error := Some(D.Unavailable);
        } else if D.Active(doc) && counter != 0 {
          if token != D.Session(counter) {
            error := Some(D.StaleSession);
          }
        } else if D.Active(doc) {
          error := Some(D.NoPrintSession);
        } else if token != D.Blank {
          error := Some(D.StaleSession);
        } else {
          hold := true;
        }
      }
      if error == None {
        if enabled {
          disabled, held := false, false;
          lightDone := false;
        } else if hold {
          held := true;
        } else {
          disabled := true;
        }
      }
    }

    method Fail(c: nat, f: D.Failure, recommended: int, now: int) returns (r: D.Failed)
      modifies this
      ensures (State(), r) == D.Fail(old(State()), c, f, recommended, now)
    {
      if c != counter || disabled || held {
        return D.Ignored;
      }
      var switched := false;
      var why := if f.NoFrame? then D.CameraLost else D.ApiRetrying;
      if f.Api? {
        if f.accountTerminal {
          return D.Suspends;
        }
        if f.workerTerminal {
          why := D.RequestInvalid;
        }
        if f.switches && !usingFallback {
          usingFallback, switched := true, true;
        }
      }
      var first := troubleSince == None;
      if first {
        troubleSince, failures := Some(now), 0;
      }
      failures := failures + 1;
      successes := 0;
      var delay := D.RETRY_DELAY;
      if recommended > 0 {
        delay := recommended;
      }
      due := Some(now + delay);
      reason := why;
      r := D.Counted(first, switched);
    }

    method Accept(c: nat, v: D.Verdict, now: int) returns (r: D.Acceptance)
      modifies this
      ensures (State(), r) == D.Accept(old(State()), c, v, now)
    {
      if c != counter || disabled || held || !D.Active(doc) {
        return D.Discarded;
      }
      var recovered := false;
      if troubleSince != None {
        successes := successes + 1;
        if successes >= D.RECOVER_AFTER {
          recovered := true;
          CloseInterruption();
        }
      }
      reason := D.NoReason;
      due := Some(now + v.recommended);
      var pause := v.pauseSuggested && !latched && doc.State().Running? && online;
      if pause {
        latched := true;
        if doc.layer.Some? {
          pauseLayer := doc.layer;
        }
        pauseState := D.PausePending;
      }
      r := D.Accepted(pause, recovered);
    }

    /** The outcome is recorded whether or not the section changed anything. */
    method PauseFails(c: nat) returns (outcome: D.Outcome)
      modifies this
      ensures State() == D.PauseFails(old(State()), c) && outcome == D.NotConfirmed
    {
      if c == counter && pauseState == D.PausePending {
        pauseState, reason := D.PauseUnconfirmed, D.PauseNotSent;
      }
      outcome := D.NotConfirmed;
    }

    method AutoLight(c: nat) returns (send: bool)
      modifies this
      ensures (State(), send) == D.LightDecision(old(State()), c)
    {
      send := c == counter && !disabled && !held && !lightDone && online && doc.State().Running?;
      if send {
        lightDone := true;
        send := doc.light != Some(LightOn);
      }
    }
  }
}
