/**
 All interleavings of reports, user toggles and the inspection loop of one printer. Toggles and command
 dispatch exclude each other through commandMu; reports and the account-wide suspension do not.
 */
module DetectionProtocol {
  import opened Options
  import opened Doc
  import opened Events
  import opened DetectionState

  datatype Pc =
    | Top
    | Asked(suspended: bool)     // has read whether the account is suspended, outside the worker's mutex
    | Inspecting(counter: nat)   // passed the loop's test for this print
    | Lighting(counter: nat)     // holds commandMu, about to send the light command
    | Looking(counter: nat)      // camera and provider at work
    | Pausing(counter: nat)      // holds commandMu, about to send the pause command
    | PauseFailing(counter: nat) // holds commandMu, the pause command failed

  /** What happened, newest last. */
  datatype Mark =
    | SessionReset | WentInactive
    | TurnedOn | TurnedOffForPrint | TurnedOffHeld
    | LightSent | PauseSent(counter: nat)
    | CheckFailed | CheckPassed | Recovered | Switched
    | Settles(counter: nat, outcome: Outcome) // a report settled the pause of this print
    | FailureNoted(counter: nat)              // the pause command of this print was recorded as failed

  datatype Log = Nothing | Then(before: Log, last: Mark)

  datatype Sys = Sys(d: Detector, available: bool, suspended: bool, pc: Pc, log: Log)

  datatype Step =
    | Reports(e: Events.Report)
    | UserToggle(enabled: bool, token: Token)
    | AccountSuspends
    | AsksAccount
    | Begin(now: int)
    | Rests
    | NoCamera(now: int)
    | DecideLight
    | SendLight
    | CheckFails(f: Failure, recommended: int, now: int)
    | CheckAnswers(v: Verdict, now: int)
    | SendPause(sent: bool)
    | NotePauseFailure

  predicate HoldsCommandMu(pc: Pc) {
    pc.Lighting? || pc.Pausing? || pc.PauseFailing?
  }

  predicate Enabled(s: Sys, step: Step) {
    match step
    case Reports(_) => true
    case UserToggle(_, _) => !HoldsCommandMu(s.pc)
    case AccountSuspends => true
    case AsksAccount => s.pc.Top?
    case Begin(now) =>
      s.pc.Asked? && MayInspect(s.d, s.available, s.pc.suspended) && (s.d.due.Some? ==> s.d.due.value <= now)
    case Rests => s.pc.Asked?
    case NoCamera(_) => s.pc.Inspecting?
    case DecideLight => s.pc.Inspecting?
    case SendLight => s.pc.Lighting?
    case CheckFails(_, _, _) => s.pc.Looking?
    case CheckAnswers(_, _) => s.pc.Looking?
    case SendPause(_) => s.pc.Pausing?
    case NotePauseFailure => s.pc.PauseFailing?
  }

  function MarkIf(log: Log, b: bool, m: Mark): Log { if b then Then(log, m) else log }

  function SessionMarks(log: Log, e: Events.Report): Log {
    MarkIf(MarkIf(log, Resets(e), SessionReset), !Active(e.cur), WentInactive)
  }

  function SettleMark(log: Log, counter: nat, outcome: Option<Outcome>): Log {
    if outcome.Some? then Then(log, Settles(counter, outcome.value)) else log
  }

  function DoReport(s: Sys, e: Events.Report): Sys {
    var shown := Shown(s.d, e);
    s.(d := SettlePause(shown), log := SettleMark(SessionMarks(s.log, e), shown.counter, OutcomeOf(shown)))
  }

  function DoToggle(s: Sys, enabled: bool, token: Token): Sys {
    var (d, error) := Toggle(s.d, s.available, enabled, token);
    var mark := if enabled then TurnedOn else if Active(s.d.doc) then TurnedOffForPrint else TurnedOffHeld;
    s.(d := d, log := MarkIf(s.log, error.None?, mark))
  }

  function DoFail(s: Sys, counter: nat, f: Failure, recommended: int, now: int): Sys {
    var (d, r) := Fail(s.d, counter, f, recommended, now);
    s.(d := d, pc := Top, suspended := s.suspended || r.Suspends?,
       log := MarkIf(MarkIf(s.log, r.Counted?, CheckFailed), r.Counted? && r.switched, Switched))
  }

  function DoAccept(s: Sys, counter: nat, v: Verdict, now: int): Sys {
    var (d, r) := Accept(s.d, counter, v, now);
    s.(d := d, pc := if r.Accepted? && r.pause then Pausing(counter) else Top,
       log := MarkIf(MarkIf(s.log, r.Accepted?, CheckPassed), r.Accepted? && r.recovered, Recovered))
  }

  function DoDecideLight(s: Sys): Sys
    requires s.pc.Inspecting?
  {
    var (d, send) := LightDecision(s.d, s.pc.counter);
    s.(d := d, pc := if send then Lighting(s.pc.counter) else Looking(s.pc.counter))
  }

  function Next(s: Sys, step: Step): Sys
    requires Enabled(s, step)
  {
    match step
    case Reports(e) => DoReport(s, e)
    case UserToggle(enabled, token) => DoToggle(s, enabled, token)
    case AccountSuspends => s.(suspended := true)
    case AsksAccount => s.(pc := Asked(s.suspended))
    case Begin(_) => s.(pc := Inspecting(s.d.counter))
    case Rests => s.(pc := Top)
    case NoCamera(now) => DoFail(s, s.pc.counter, NoFrame, 0, now)
    case DecideLight => DoDecideLight(s)
    case SendLight => s.(pc := Looking(s.pc.counter), log := Then(s.log, LightSent))
    case CheckFails(f, recommended, now) => DoFail(s, s.pc.counter, f, recommended, now)
    case CheckAnswers(v, now) => DoAccept(s, s.pc.counter, v, now)
    case SendPause(sent) =>
      s.(pc := if sent then Top else PauseFailing(s.pc.counter), log := Then(s.log, PauseSent(s.pc.counter)))
    case NotePauseFailure =>
      s.(pc := Top, d := PauseFails(s.d, s.pc.counter), log := Then(s.log, FailureNoted(s.pc.counter)))
  }

  ghost predicate Run(ss: seq<Sys>, steps: seq<Step>) {
    && |ss| == |steps| + 1
    && (exists available :: ss[0] == Sys(Fresh, available, false, Top, Nothing))
    && forall i :: 0 <= i < |steps| ==> Enabled(ss[i], steps[i]) && ss[i + 1] == Next(ss[i], steps[i])
  }
}

module DetectionTheorems {
  import opened Options
  import opened Doc
  import opened Events
  import opened DetectionState
  import opened DetectionProtocol

  // Toggles.

  /** Turned off for the print, and since then neither turned on, nor a session reset, nor an inactive report. */
  predicate OffForPrint(log: Log) {
    match log
    case Nothing => false
    case Then(before, m) =>
      m.TurnedOffForPrint? || (!m.TurnedOn? && !m.SessionReset? && !m.WentInactive? && OffForPrint(before))
  }

  /** Turned off until turned on. */
  predicate OffHeld(log: Log) {
    match log
    case Nothing => false
    case Then(before, m) => m.TurnedOffHeld? || (!m.TurnedOn? && OffHeld(before))
  }

  /** No command was ever sent while a completed turn-off was in force. */
  predicate Obedient(log: Log) {
    match log
    case Nothing => true
    case Then(before, m) =>
      Obedient(before) && (m.LightSent? || m.PauseSent? ==> !OffForPrint(before) && !OffHeld(before))
  }

  predicate ToggleOk(s: Sys) {
    && s.d.disabled == OffForPrint(s.log) && s.d.held == OffHeld(s.log)
    && (s.pc.Lighting? || s.pc.Pausing? ==> !Off(s.d))
    && Obedient(s.log)
  }

  lemma SessionMarksToggle(log: Log, e: Events.Report)
    ensures OffForPrint(SessionMarks(log, e)) == (OffForPrint(log) && !Resets(e) && Active(e.cur))
    ensures OffHeld(SessionMarks(log, e)) == OffHeld(log) && Obedient(SessionMarks(log, e)) == Obedient(log)
  {
    var log1 := MarkIf(log, Resets(e), SessionReset);
    assert OffForPrint(log1) == (OffForPrint(log) && !Resets(e));
    assert OffHeld(log1) == OffHeld(log) && Obedient(log1) == Obedient(log);
  }

  lemma ReportToggles(d: Detector, e: Events.Report)
    ensures Observe(d, e).disabled == (d.disabled && !Resets(e) && Active(e.cur)) && Observe(d, e).held == d.held
  {
    assert Shown(d, e).disabled == (d.disabled && !Resets(e) && Active(e.cur)) && Shown(d, e).held == d.held;
    SettlingToggles(Shown(d, e));
  }

  lemma SettlingToggles(d: Detector)
    ensures SettlePause(d).disabled == d.disabled && SettlePause(d).held == d.held
  {
  }

  lemma SettleMarkAside(log: Log, counter: nat, outcome: Option<Outcome>)
    ensures var log' := SettleMark(log, counter, outcome);
            OffForPrint(log') == OffForPrint(log) && OffHeld(log') == OffHeld(log) && Obedient(log') == Obedient(log)
  {
  }

  lemma ReportKeepsToggle(s: Sys, e: Events.Report)
    requires ToggleOk(s)
    ensures ToggleOk(DoReport(s, e))
  {
    SessionMarksToggle(s.log, e);
    ReportToggles(s.d, e);
    SettleMarkAside(SessionMarks(s.log, e), Shown(s.d, e).counter, OutcomeOf(Shown(s.d, e)));
  }

  lemma UserToggleKeepsToggle(s: Sys, enabled: bool, token: Token)
    requires ToggleOk(s) && !HoldsCommandMu(s.pc)
    ensures ToggleOk(DoToggle(s, enabled, token))
  {
  }

  /** Marks about checks say nothing about toggles. */
  lemma MarksAside(log: Log, b: bool, m: Mark)
    requires m.CheckFailed? || m.CheckPassed? || m.Recovered? || m.Switched?
    ensures var log' := MarkIf(log, b, m);
            OffForPrint(log') == OffForPrint(log) && OffHeld(log') == OffHeld(log) && Obedient(log') == Obedient(log)
  {
  }

  lemma FailKeepsToggle(s: Sys, counter: nat, f: Failure, recommended: int, now: int)
    requires ToggleOk(s)
    ensures ToggleOk(DoFail(s, counter, f, recommended, now))
  {
    var r := Fail(s.d, counter, f, recommended, now).1;
    MarksAside(s.log, r.Counted?, CheckFailed);
    MarksAside(MarkIf(s.log, r.Counted?, CheckFailed), r.Counted? && r.switched, Switched);
  }

  lemma AcceptKeepsToggle(s: Sys, counter: nat, v: Verdict, now: int)
    requires ToggleOk(s)
    ensures ToggleOk(DoAccept(s, counter, v, now))
  {
    var r := Accept(s.d, counter, v, now).1;
    MarksAside(s.log, r.Accepted?, CheckPassed);
    MarksAside(MarkIf(s.log, r.Accepted?, CheckPassed), r.Accepted? && r.recovered, Recovered);
  }

  lemma StepKeepsToggle(s: Sys, step: Step)
    requires ToggleOk(s) && Enabled(s, step)
    ensures ToggleOk(Next(s, step))
  {
    match step {
      case Reports(e) => ReportKeepsToggle(s, e);
      case UserToggle(enabled, token) => UserToggleKeepsToggle(s, enabled, token);
      case NoCamera(now) => FailKeepsToggle(s, s.pc.counter, NoFrame, 0, now);
      case CheckFails(f, recommended, now) => FailKeepsToggle(s, s.pc.counter, f, recommended, now);
      case CheckAnswers(v, now) => AcceptKeepsToggle(s, s.pc.counter, v, now);
      case _ =>
    }
  }

  /**
   Once a turn-off has completed, no pause or light command is sent until it is turned on again or, for the
   per-print off only, a session reset or an inactive report, in every interleaving.
   */
  lemma {:induction false} TurnedOffStaysQuiet(ss: seq<Sys>, steps: seq<Step>, i: nat)
    requires Run(ss, steps) && i < |ss|
    ensures ToggleOk(ss[i])
    ensures Obedient(ss[i].log)
  {
    if i > 0 {
      TurnedOffStaysQuiet(ss, steps, i - 1);
      StepKeepsToggle(ss[i - 1], steps[i - 1]);
    }
  }

  // One pause per print.

  function Pauses(log: Log, counter: nat): nat {
    match log
    case Nothing => 0
    case Then(before, m) => Pauses(before, counter) + if m == PauseSent(counter) then 1 else 0
  }

  function Deciding(pc: Pc, counter: nat): nat { if pc == Pausing(counter) then 1 else 0 }

  /** No print has more than one pause sent or decided, a later print none, this one none before the latch. */
  ghost predicate PauseOk(s: Sys) {
    forall c: nat :: Pauses(s.log, c) + Deciding(s.pc, c)
                     <= if c > s.d.counter || (c == s.d.counter && !s.d.latched) then 0 else 1
  }

  lemma MarkKeepsPauses(log: Log, b: bool, m: Mark)
    requires !m.PauseSent?
    ensures forall c :: Pauses(MarkIf(log, b, m), c) == Pauses(log, c)
  {
  }

  lemma ReportKeepsPause(s: Sys, e: Events.Report)
    requires PauseOk(s)
    ensures PauseOk(DoReport(s, e))
  {
    MarkKeepsPauses(s.log, Resets(e), SessionReset);
    MarkKeepsPauses(MarkIf(s.log, Resets(e), SessionReset), !Active(e.cur), WentInactive);
  }

  lemma FailKeepsPause(s: Sys, counter: nat, f: Failure, recommended: int, now: int)
    requires PauseOk(s)
    ensures PauseOk(DoFail(s, counter, f, recommended, now))
  {
    var r := Fail(s.d, counter, f, recommended, now).1;
    MarkKeepsPauses(s.log, r.Counted?, CheckFailed);
    MarkKeepsPauses(MarkIf(s.log, r.Counted?, CheckFailed), r.Counted? && r.switched, Switched);
  }

  lemma AcceptKeepsPause(s: Sys, counter: nat, v: Verdict, now: int)
    requires PauseOk(s) && s.pc.Looking?
    ensures PauseOk(DoAccept(s, counter, v, now))
  {
    var r := Accept(s.d, counter, v, now).1;
    MarkKeepsPauses(s.log, r.Accepted?, CheckPassed);
    MarkKeepsPauses(MarkIf(s.log, r.Accepted?, CheckPassed), r.Accepted? && r.recovered, Recovered);
  }

  lemma ToggleKeepsPause(s: Sys, enabled: bool, token: Token)
    requires PauseOk(s)
    ensures PauseOk(DoToggle(s, enabled, token))
  {
    var mark := if enabled then TurnedOn else if Active(s.d.doc) then TurnedOffForPrint else TurnedOffHeld;
    MarkKeepsPauses(s.log, Toggle(s.d, s.available, enabled, token).1.None?, mark);
  }

  lemma StepKeepsPause(s: Sys, step: Step)
    requires PauseOk(s) && Enabled(s, step)
    ensures PauseOk(Next(s, step))
  {
    match step {
      case Reports(e) => ReportKeepsPause(s, e);
      case UserToggle(enabled, token) => ToggleKeepsPause(s, enabled, token);
      case NoCamera(now) => FailKeepsPause(s, s.pc.counter, NoFrame, 0, now);
      case CheckFails(f, recommended, now) => FailKeepsPause(s, s.pc.counter, f, recommended, now);
      case CheckAnswers(v, now) => AcceptKeepsPause(s, s.pc.counter, v, now);
      case SendPause(sent) => assert forall c :: Pauses(Next(s, step).log, c) == Pauses(s.log, c) + Deciding(s.pc, c);
      case SendLight => MarkKeepsPauses(s.log, true, LightSent);
      case _ =>
    }
  }

  /** For each print at most one pause is attempted, in every run. */
  lemma {:induction false} OnePausePerPrint(ss: seq<Sys>, steps: seq<Step>, i: nat, counter: nat)
    requires Run(ss, steps) && i < |ss|
    ensures PauseOk(ss[i])
    ensures Pauses(ss[i].log, counter) <= 1
  {
    if i > 0 {
      OnePausePerPrint(ss, steps, i - 1, counter);
      StepKeepsPause(ss[i - 1], steps[i - 1]);
    }
  }

  // One outcome per pause.

  predicate Settled(p: PauseState) { p.PauseConfirmed? || p.PauseUnconfirmed? }

  /** A pause has a state only once the latch is spent. */
  predicate SettleOk(d: Detector) { !d.pauseState.PauseNone? ==> d.latched }

  lemma SettlingKeepsLatch(d: Detector)
    ensures SettlePause(d).latched == d.latched
    ensures || SettlePause(d).pauseState == d.pauseState
            || (d.pauseState.PausePending? && Settled(SettlePause(d).pauseState))
  {
  }

  lemma ReportSettles(d: Detector, e: Events.Report)
    requires SettleOk(d)
    ensures SettleOk(Observe(d, e))
    ensures !Resets(e) && Settled(d.pauseState) ==> Observe(d, e).pauseState == d.pauseState
  {
    var d1 := if Resets(e) then NewSession(d) else d;
    assert Shown(d, e).latched == d1.latched && Shown(d, e).pauseState == d1.pauseState;
    SettlingKeepsLatch(Shown(d, e));
  }

  lemma LoopSettles(s: Sys, counter: nat, f: Failure, v: Verdict, recommended: int, now: int)
    requires SettleOk(s.d)
    ensures SettleOk(DoFail(s, counter, f, recommended, now).d) && SettleOk(DoAccept(s, counter, v, now).d)
    ensures DoFail(s, counter, f, recommended, now).d.pauseState == s.d.pauseState
    ensures Settled(s.d.pauseState) ==> DoAccept(s, counter, v, now).d.pauseState == s.d.pauseState
  {
  }

  lemma StepSettles(s: Sys, step: Step)
    requires SettleOk(s.d) && Enabled(s, step)
    ensures SettleOk(Next(s, step).d)
    ensures !ResetsSession(step) && Settled(s.d.pauseState) ==> Next(s, step).d.pauseState == s.d.pauseState
  {
    match step {
      case Reports(e) => ReportSettles(s.d, e);
      case NoCamera(now) => LoopSettles(s, s.pc.counter, NoFrame, Verdict(false, 0), 0, now);
      case CheckFails(f, recommended, now) => LoopSettles(s, s.pc.counter, f, Verdict(false, 0), recommended, now);
      case CheckAnswers(v, now) => LoopSettles(s, s.pc.counter, NoFrame, v, 0, now);
      case _ =>
    }
  }

  lemma {:induction false} RunSettles(ss: seq<Sys>, steps: seq<Step>, i: nat)
    requires Run(ss, steps) && i < |ss|
    ensures SettleOk(ss[i].d)
  {
    if i > 0 {
      RunSettles(ss, steps, i - 1);
      StepSettles(ss[i - 1], steps[i - 1]);
    }
  }

  lemma RunStepSettles(ss: seq<Sys>, steps: seq<Step>, k: nat)
    requires Run(ss, steps) && k < |steps|
    ensures !ResetsSession(steps[k]) && Settled(ss[k].d.pauseState) ==> ss[k + 1].d.pauseState == ss[k].d.pauseState
  {
    RunSettles(ss, steps, k);
    StepSettles(ss[k], steps[k]);
  }

  lemma {:induction false} SettledStays(ss: seq<Sys>, j: nat, i: nat)
    requires j <= i < |ss|
    requires forall k: nat :: j <= k < i && Settled(ss[k].d.pauseState) ==> ss[k + 1].d.pauseState == ss[k].d.pauseState
    ensures Settled(ss[j].d.pauseState) ==> ss[i].d.pauseState == ss[j].d.pauseState
  {
    if j < i {
      SettledStays(ss, j, i - 1);
    }
  }

  /**
   Within a session a pause is settled at most once: confirmed or unconfirmed, it stays so until the session
   resets.
   */
  lemma PauseSettlesOnce(ss: seq<Sys>, steps: seq<Step>, j: nat, i: nat)
    requires Run(ss, steps) && j <= i < |ss| && forall k :: j <= k < i ==> !ResetsSession(steps[k])
    ensures Settled(ss[j].d.pauseState) ==> ss[i].d.pauseState == ss[j].d.pauseState
  {
    forall k: nat | j <= k < i
      ensures Settled(ss[k].d.pauseState) ==> ss[k + 1].d.pauseState == ss[k].d.pauseState
    {
      RunStepSettles(ss, steps, k);
    }
    SettledStays(ss, j, i);
  }

  // Which print a pause reaches.

  predicate ResetsSession(step: Step) { step.Reports? && Resets(step.e) }

  lemma SettleCounter(d: Detector)
    ensures SettlePause(d).counter == d.counter
  {
  }

  lemma ReportCounter(d: Detector, e: Events.Report)
    ensures Observe(d, e).counter == d.counter + if Resets(e) then 1 else 0
  {
    var d1 := if Resets(e) then NewSession(d) else d;
    assert d1.counter == d.counter + if Resets(e) then 1 else 0;
    SettleCounter(Shown(d, e));
  }

  lemma LoopCounter(s: Sys, counter: nat, f: Failure, v: Verdict, recommended: int, now: int)
    ensures DoFail(s, counter, f, recommended, now).d.counter == s.d.counter
    ensures DoAccept(s, counter, v, now).d.counter == s.d.counter
  {
  }

  lemma StepCounter(s: Sys, step: Step)
    requires Enabled(s, step)
    ensures Next(s, step).d.counter == s.d.counter + if ResetsSession(step) then 1 else 0
  {
    match step {
      case Reports(e) => ReportCounter(s.d, e);
      case NoCamera(now) => LoopCounter(s, s.pc.counter, NoFrame, Verdict(false, 0), 0, now);
      case CheckFails(f, recommended, now) => LoopCounter(s, s.pc.counter, f, Verdict(false, 0), recommended, now);
      case CheckAnswers(v, now) => LoopCounter(s, s.pc.counter, NoFrame, v, 0, now);
      case _ =>
    }
  }

  predicate Counts(s: Sys, step: Step, s': Sys) {
    s'.d.counter == s.d.counter + if ResetsSession(step) then 1 else 0
  }

  lemma {:induction false} CounterMoves(ss: seq<Sys>, steps: seq<Step>, j: nat, i: nat)
    requires j <= i < |ss| == |steps| + 1 && forall k: nat :: j <= k < i ==> Counts(ss[k], steps[k], ss[k + 1])
    ensures ss[j].d.counter <= ss[i].d.counter
    ensures ss[j].d.counter == ss[i].d.counter <==> forall k :: j <= k < i ==> !ResetsSession(steps[k])
  {
    if j < i {
      CounterMoves(ss, steps, j, i - 1);
      assert Counts(ss[i - 1], steps[i - 1], ss[i]);
    }
  }

  lemma CounterBetween(ss: seq<Sys>, steps: seq<Step>, j: nat, i: nat)
    requires Run(ss, steps) && j <= i < |ss|
    ensures ss[j].d.counter <= ss[i].d.counter
    ensures ss[j].d.counter == ss[i].d.counter <==> forall k :: j <= k < i ==> !ResetsSession(steps[k])
  {
    forall k: nat | j <= k < i
      ensures Counts(ss[k], steps[k], ss[k + 1])
    {
      StepCounter(ss[k], steps[k]);
    }
    CounterMoves(ss, steps, j, i);
  }

  /**
   commandMu does not keep reports out, so a pause decided at step j reaches the print it was decided for
   exactly when no session reset comes before it is sent.
   */
  lemma PauseReachesItsPrintIff(ss: seq<Sys>, steps: seq<Step>, j: nat, i: nat)
    requires Run(ss, steps) && j < i < |steps| && steps[j].CheckAnswers? && steps[i].SendPause?
    requires forall k :: j < k <= i ==> ss[k].pc == ss[j + 1].pc
    ensures ss[i].pc.counter == ss[i].d.counter <==> forall k :: j < k < i ==> !ResetsSession(steps[k])
  {
    assert ss[j + 1] == Next(ss[j], steps[j]);
    assert ss[j + 1].pc == ss[i].pc && ss[i].pc.Pausing?;
    assert ss[j + 1].pc.counter == ss[j + 1].d.counter;
    CounterBetween(ss, steps, j + 1, i);
  }

  const ATTACH_REPORT: Events.Report :=
    Events.Report(View(None, None, None, None, None), View(Some(Running), Some(5), None, None, Some(LightOn)),
                  true, [StateInitial], false)

  const STOP_REPORT: Events.Report :=
    Events.Report(ATTACH_REPORT.cur, ATTACH_REPORT.cur.(gcode := Some(Idle)), true, [PrintStopped], false)

  const BEGIN_REPORT: Events.Report :=
    Events.Report(STOP_REPORT.cur, ATTACH_REPORT.cur.(gcode := Some(Running), layer := Some(0)),
                  true, [PrintStarted], true)

  ghost predicate Reached(s: Sys) {
    exists ss, steps :: Run(ss, steps) && ss[|steps|] == s
  }

  lemma ReachedNext(s: Sys, step: Step)
    requires Reached(s) && Enabled(s, step)
    ensures Reached(Next(s, step))
  {
    var ss, steps :| Run(ss, steps) && ss[|steps|] == s;
    assert Run(ss + [Next(s, step)], steps + [step]);
  }

  const START: Sys := Sys(Fresh, true, false, Top, Nothing)

  /** Attached to a running print whose light is on. */
  function AttachedSys(): Sys {
    Sys(Fresh.(doc := ATTACH_REPORT.cur, online := true, counter := 1), true, false, Top, Then(Nothing, SessionReset))
  }

  lemma AttachedIs()
    ensures DoReport(START, ATTACH_REPORT) == AttachedSys()
    ensures MayInspect(AttachedSys().d, true, false)
  {
    assert Resets(ATTACH_REPORT);
  }

  /** The loop looks at a frame of it. */
  function LookingSys(): Sys {
    AttachedSys().(d := AttachedSys().d.(lightDone := true), pc := Looking(1))
  }

  lemma LookingIsReached()
    ensures Reached(LookingSys())
  {
    assert Run([START], []);
    assert Reached(START);
    AttachedIs();
    ReachedNext(START, Reports(ATTACH_REPORT));
    ReachedNext(AttachedSys(), AsksAccount);
    ReachedNext(AttachedSys().(pc := Asked(false)), Begin(0));
    var s := AttachedSys().(pc := Inspecting(1));
    ReachedNext(s, DecideLight);
    assert DoDecideLight(s) == LookingSys();
  }

  /** The answer suggests a pause. */
  function DecidedSys(): Sys { DoAccept(LookingSys(), 1, Verdict(true, 0), 1) }

  lemma DecidedIsReached()
    ensures Reached(DecidedSys())
  {
    LookingIsReached();
    ReachedNext(LookingSys(), CheckAnswers(Verdict(true, 0), 1));
  }

  /** While the decided pause waits, the print is stopped and the next one begins. */
  lemma NextPrintBegins(a: Sys, b: Sys, c: Sys)
    requires a == DoAccept(LookingSys(), 1, Verdict(true, 0), 1)
    requires b == DoReport(a, STOP_REPORT) && c == DoReport(b, BEGIN_REPORT)
    ensures a.pc == b.pc == c.pc == Pausing(1)
    ensures c.d.counter == 2 && c.d.doc.State().Running?
  {
    assert !Resets(STOP_REPORT) && Resets(BEGIN_REPORT);
    ReportCounter(a.d, STOP_REPORT);
    ReportCounter(b.d, BEGIN_REPORT);
    assert c.d.doc == BEGIN_REPORT.cur;
  }

  /** The other case does occur: a pause decided for one print is sent while the next one is printing. */
  lemma PauseCanReachNextPrint()
    ensures exists s: Sys :: Reached(s) && s.pc == Pausing(1) && s.d.counter == 2 && s.d.doc.State().Running?
              && Reached(Next(s, SendPause(true))) && Next(s, SendPause(true)).log.last == PauseSent(1)
  {
    DecidedIsReached();
    var a := DecidedSys();
    var b := DoReport(a, STOP_REPORT);
    var c := DoReport(b, BEGIN_REPORT);
    ReachedNext(a, Reports(STOP_REPORT));
    ReachedNext(b, Reports(BEGIN_REPORT));
    NextPrintBegins(a, b, c);
    ReachedNext(c, SendPause(true));
  }
}

/** The accounting of failed checks, against the bare sequence of check results. */
module InterruptionTheorems {
  import opened Options
  import opened DetectionState
  import opened DetectionProtocol
  import Events

  /** The counted check results of the session, oldest first; true is an accepted answer. */
  function Checks(log: Log): seq<bool> {
    match log
    case Nothing => []
    case Then(before, m) =>
      if m.SessionReset? then []
      else if m.CheckPassed? then Checks(before) + [true]
      else if m.CheckFailed? then Checks(before) + [false]
      else Checks(before)
  }

  predicate TripleAt(h: seq<bool>, j: nat) {
    j + 2 < |h| && h[j] && h[j + 1] && h[j + 2]
  }

  /** Three accepted answers in a row came after result i. */
  ghost predicate RecoveredAfter(h: seq<bool>, i: nat) {
    exists j :: i < j && TripleAt(h, j)
  }

  /** The failed checks of the open interruption: those never followed by three accepted answers in a row. */
  ghost function Unrecovered(h: seq<bool>): set<nat> {
    set i: nat | i < |h| && !h[i] && !RecoveredAfter(h, i)
  }

  /** How many accepted answers end the history. */
  function Trailing(h: seq<bool>): nat {
    if h == [] || !h[|h| - 1] then 0 else Trailing(h[..|h| - 1]) + 1
  }

  lemma FailureOpens(h: seq<bool>)
    ensures Unrecovered(h + [false]) == Unrecovered(h) + {|h|} && |h| !in Unrecovered(h)
    ensures Trailing(h + [false]) == 0
  {
    forall i: nat
      ensures RecoveredAfter(h + [false], i) == RecoveredAfter(h, i)
    {
      if RecoveredAfter(h + [false], i) {
        var j :| i < j && TripleAt(h + [false], j);
        assert TripleAt(h, j);
      }
      if RecoveredAfter(h, i) {
        var j :| i < j && TripleAt(h, j);
        assert TripleAt(h + [false], j);
      }
    }
  }

  lemma TrailingSnoc(h: seq<bool>)
    ensures Trailing(h + [true]) == Trailing(h) + 1
  {
    assert (h + [true])[..|h|] == h;
  }

  lemma {:induction false} TrailingMeans(h: seq<bool>)
    ensures Trailing(h) <= |h|
    ensures forall k :: |h| - Trailing(h) <= k < |h| ==> h[k]
    ensures Trailing(h) < |h| ==> !h[|h| - Trailing(h) - 1]
    decreases |h|
  {
    if h != [] && h[|h| - 1] {
      TrailingMeans(h[..|h| - 1]);
    }
  }

  /** An accepted answer changes the open interruption only as the third in a row, and then ends it. */
  lemma SuccessRecovers(h: seq<bool>)
    ensures Unrecovered(h + [true]) == if Trailing(h) >= 2 then {} else Unrecovered(h)
  {
    TrailingMeans(h);
    var g := h + [true];
    if Trailing(h) >= 2 {
      assert TripleAt(g, |h| - 2);
      forall i: nat | i < |g| && !g[i]
        ensures RecoveredAfter(g, i)
      {
        assert i < |h| - 2;
      }
    } else {
      forall i: nat
        ensures RecoveredAfter(g, i) == RecoveredAfter(h, i)
      {
        SuccessKeepsTriples(h, i);
      }
    }
  }

  lemma SuccessKeepsTriples(h: seq<bool>, i: nat)
    requires Trailing(h) < 2
    ensures RecoveredAfter(h + [true], i) == RecoveredAfter(h, i)
  {
    TrailingMeans(h);
    if RecoveredAfter(h + [true], i) {
      var j :| i < j && TripleAt(h + [true], j);
      assert TripleAt(h, j);
    }
    if RecoveredAfter(h, i) {
      var j :| i < j && TripleAt(h, j);
      assert TripleAt(h + [true], j);
    }
  }

  /** The next record must be the recovery. */
  ghost predicate Due(log: Log) {
    && log.Then? && log.last.CheckPassed?
    && Unrecovered(Checks(log.before)) != {} && Trailing(Checks(log.before)) == 2
  }

  /** ai_recovered stands exactly after each third accepted answer in a row of an open interruption. */
  ghost predicate RecoveriesRight(log: Log) {
    match log
    case Nothing => true
    case Then(before, m) => RecoveriesRight(before) && (m.Recovered? <==> Due(before))
  }

  /** The session has switched to the backup server. */
  predicate SwitchedSince(log: Log) {
    match log
    case Nothing => false
    case Then(before, m) => m.Switched? || (!m.SessionReset? && SwitchedSince(before))
  }

  ghost predicate AccountOk(d: Detector, h: seq<bool>) {
    && d.failures == |Unrecovered(h)|
    && (d.troubleSince.Some? <==> Unrecovered(h) != {})
    && (if Unrecovered(h) == {} then d.successes == 0 else d.successes == Trailing(h) <= 2)
  }

  ghost predicate InterruptionOk(s: Sys) {
    && AccountOk(s.d, Checks(s.log))
    && RecoveriesRight(s.log) && !Due(s.log)
    && s.d.usingFallback == SwitchedSince(s.log)
  }

  lemma NoChecksNoTrouble()
    ensures Unrecovered([]) == {} && Trailing([]) == 0
  {
  }

  /** A mark that is no check result and no recovery leaves the account as it is. */
  lemma MarkAside(log: Log, b: bool, m: Mark)
    requires RecoveriesRight(log) && !Due(log) && !m.CheckPassed? && !m.CheckFailed? && !m.Recovered?
    requires !m.SessionReset?
    ensures var log' := MarkIf(log, b, m); RecoveriesRight(log') && !Due(log') && Checks(log') == Checks(log)
    ensures SwitchedSince(MarkIf(log, b, m)) == (SwitchedSince(log) || (b && m.Switched?))
  {
  }

  /** What a report's marks do to the account read off the log. */
  lemma SessionMarksAccount(log: Log, e: Events.Report)
    requires RecoveriesRight(log) && !Due(log)
    ensures var log' := SessionMarks(log, e);
            && RecoveriesRight(log') && !Due(log')
            && Checks(log') == (if Resets(e) then [] else Checks(log))
            && SwitchedSince(log') == (SwitchedSince(log) && !Resets(e))
  {
    NoChecksNoTrouble();
    var log1 := MarkIf(log, Resets(e), SessionReset);
    assert RecoveriesRight(log1) && !Due(log1);
    MarkAside(log1, !Active(e.cur), WentInactive);
  }

  lemma SettleMarkAccount(log: Log, counter: nat, outcome: Option<Outcome>)
    requires RecoveriesRight(log) && !Due(log)
    ensures var log' := SettleMark(log, counter, outcome);
            && RecoveriesRight(log') && !Due(log')
            && Checks(log') == Checks(log) && SwitchedSince(log') == SwitchedSince(log)
  {
    if outcome.Some? {
      MarkAside(log, true, Settles(counter, outcome.value));
    }
  }

  /** The fields the account speaks of. */
  predicate SameAccount(d: Detector, d': Detector) {
    && d'.failures == d.failures && d'.troubleSince == d.troubleSince && d'.successes == d.successes
    && d'.usingFallback == d.usingFallback
  }

  lemma ReportAccount(d: Detector, e: Events.Report)
    ensures if Resets(e) then SameAccount(Fresh, Observe(d, e)) else SameAccount(d, Observe(d, e))
  {
    SettlingAccount(Shown(d, e));
  }

  lemma SettlingAccount(d: Detector)
    ensures SameAccount(d, SettlePause(d))
  {
  }

  lemma ReportKeepsAccount(s: Sys, e: Events.Report)
    requires InterruptionOk(s)
    ensures InterruptionOk(DoReport(s, e))
  {
    NoChecksNoTrouble();
    SessionMarksAccount(s.log, e);
    SettleMarkAccount(SessionMarks(s.log, e), Shown(s.d, e).counter, OutcomeOf(Shown(s.d, e)));
    ReportAccount(s.d, e);
  }

  lemma ToggleKeepsAccount(s: Sys, enabled: bool, token: Token)
    requires InterruptionOk(s)
    ensures InterruptionOk(DoToggle(s, enabled, token))
  {
    var mark := if enabled then TurnedOn else if Active(s.d.doc) then TurnedOffForPrint else TurnedOffHeld;
    MarkAside(s.log, Toggle(s.d, s.available, enabled, token).1.None?, mark);
  }

  lemma FailKeepsAccount(s: Sys, counter: nat, f: Failure, recommended: int, now: int)
    requires InterruptionOk(s)
    ensures InterruptionOk(DoFail(s, counter, f, recommended, now))
  {
    var r := Fail(s.d, counter, f, recommended, now).1;
    if r.Counted? {
      FailureOpens(Checks(s.log));
      var log1 := Then(s.log, CheckFailed);
      assert RecoveriesRight(log1) && !Due(log1);
      MarkAside(log1, r.switched, Switched);
    }
  }

  lemma AcceptKeepsAccount(s: Sys, counter: nat, v: Verdict, now: int)
    requires InterruptionOk(s)
    ensures InterruptionOk(DoAccept(s, counter, v, now))
  {
    var r := Accept(s.d, counter, v, now).1;
    if r.Accepted? {
      SuccessRecovers(Checks(s.log));
      TrailingSnoc(Checks(s.log));
      var log1 := Then(s.log, CheckPassed);
      assert Due(log1) == r.recovered;
      assert RecoveriesRight(log1);
    }
  }

  lemma StepKeepsAccount(s: Sys, step: Step)
    requires InterruptionOk(s) && Enabled(s, step)
    ensures InterruptionOk(Next(s, step))
  {
    match step {
      case Reports(e) => ReportKeepsAccount(s, e);
      case UserToggle(enabled, token) => ToggleKeepsAccount(s, enabled, token);
      case NoCamera(now) => FailKeepsAccount(s, s.pc.counter, NoFrame, 0, now);
      case CheckFails(f, recommended, now) => FailKeepsAccount(s, s.pc.counter, f, recommended, now);
      case CheckAnswers(v, now) => AcceptKeepsAccount(s, s.pc.counter, v, now);
      case SendLight => MarkAside(s.log, true, LightSent);
      case SendPause(sent) => MarkAside(s.log, true, PauseSent(s.pc.counter));
      case _ =>
    }
  }

  /**
   In every run: failures counts exactly the failed checks of the open interruption, troubleSince is set exactly
   while one is open, each recovery is recorded exactly at the third accepted answer in a row, and the backup
   server stays in use until the session resets.
   */
  lemma {:induction false} InterruptionsAccounted(ss: seq<Sys>, steps: seq<Step>, i: nat)
    requires Run(ss, steps) && i < |ss|
    ensures InterruptionOk(ss[i])
    ensures ss[i].d.failures == |Unrecovered(Checks(ss[i].log))|
    ensures ss[i].d.troubleSince.Some? <==> ss[i].d.failures > 0
    ensures RecoveriesRight(ss[i].log) && ss[i].d.usingFallback == SwitchedSince(ss[i].log)
  {
    if i == 0 {
      NoChecksNoTrouble();
    } else {
      InterruptionsAccounted(ss, steps, i - 1);
      StepKeepsAccount(ss[i - 1], steps[i - 1]);
    }
  }
}
