/** What the activity log is told about the one pause of a print. */
module PauseOutcomes {
  import opened Options
  import opened Doc
  import opened DetectionState
  import opened DetectionProtocol
  import opened DetectionTheorems
  import Events

  /** How often a report settled the pause of this print. */
  function Settlements(log: Log, c: nat): nat {
    match log
    case Nothing => 0
    case Then(before, m) => Settlements(before, c) + if m.Settles? && m.counter == c then 1 else 0
  }

  /** How often the pause of this print was recorded as failed. */
  function FailureNotes(log: Log, c: nat): nat {
    match log
    case Nothing => 0
    case Then(before, m) => FailureNotes(before, c) + if m == FailureNoted(c) then 1 else 0
  }

  /** How many outcomes of the pause of this print were recorded. */
  function Outcomes(log: Log, c: nat): nat { Settlements(log, c) + FailureNotes(log, c) }

  /** The pause command was recorded as failed after a report had settled the pause. */
  predicate FailedAfterSettling(log: Log, c: nat) {
    match log
    case Nothing => false
    case Then(before, m) => FailedAfterSettling(before, c) || (m == FailureNoted(c) && Settlements(before, c) > 0)
  }

  /** The pause of this print is decided and not yet through. */
  function InHand(pc: Pc, c: nat): nat { if pc == Pausing(c) || pc == PauseFailing(c) then 1 else 0 }

  predicate CountsOk(log: Log, pc: Pc, c: nat) {
    && Settlements(log, c) <= 1 && FailureNotes(log, c) + InHand(pc, c) <= 1
    && (FailedAfterSettling(log, c) <==> Outcomes(log, c) == 2)
  }

  /** The status of the current print's pause against what was recorded. */
  predicate StatusOk(d: Detector, log: Log, pc: Pc) {
    && SettleOk(d)
    && (d.pauseState.PauseNone? || d.pauseState.PausePending? ==> Settlements(log, d.counter) == 0)
    && (!d.latched ==> FailureNotes(log, d.counter) + InHand(pc, d.counter) == 0)
    && (d.pauseState.PausePending? ==> FailureNotes(log, d.counter) == 0)
    && (InHand(pc, d.counter) == 1 ==> (Settlements(log, d.counter) == 0 <==> d.pauseState.PausePending?))
  }

  predicate OutcomeOk(s: Sys, c: nat) {
    && CountsOk(s.log, s.pc, c)
    && (c > s.d.counter ==> Outcomes(s.log, c) == 0 && InHand(s.pc, c) == 0)
    && StatusOk(s.d, s.log, s.pc)
  }

  predicate SaysNothing(m: Mark) { !m.Settles? && !m.FailureNoted? }

  lemma MarkAside(log: Log, b: bool, m: Mark, c: nat)
    requires SaysNothing(m)
    ensures var log' := MarkIf(log, b, m);
            && Settlements(log', c) == Settlements(log, c) && FailureNotes(log', c) == FailureNotes(log, c)
            && FailedAfterSettling(log', c) == FailedAfterSettling(log, c)
  {
  }

  /** The same counts for a print before and after. */
  predicate SameCounts(log: Log, log': Log, c: nat) {
    && Settlements(log', c) == Settlements(log, c) && FailureNotes(log', c) == FailureNotes(log, c)
    && FailedAfterSettling(log', c) == FailedAfterSettling(log, c)
  }

  predicate SameStatus(d: Detector, d': Detector) {
    d'.counter == d.counter && d'.pauseState == d.pauseState && d'.latched == d.latched
  }

  lemma AsideKeeps(s: Sys, s': Sys, c: nat)
    requires OutcomeOk(s, c) && SameStatus(s.d, s'.d) && SameCounts(s.log, s'.log, c)
    requires SameCounts(s.log, s'.log, s.d.counter)
    requires forall x: nat :: InHand(s'.pc, x) <= InHand(s.pc, x)
    ensures OutcomeOk(s', c)
  {
    assert InHand(s'.pc, c) <= InHand(s.pc, c) && InHand(s'.pc, s.d.counter) <= InHand(s.pc, s.d.counter);
  }

  // Reports.

  lemma SessionMarksAside(log: Log, e: Events.Report, c: nat)
    ensures SameCounts(log, SessionMarks(log, e), c)
  {
    MarkAside(log, Resets(e), SessionReset, c);
    MarkAside(MarkIf(log, Resets(e), SessionReset), !Active(e.cur), WentInactive, c);
  }

  lemma BothRecorded(log: Log, c: nat)
    ensures FailedAfterSettling(log, c) ==> FailureNotes(log, c) > 0 && Settlements(log, c) > 0
  {
  }

  lemma ShownKeeps(s: Sys, e: Events.Report, c: nat)
    requires OutcomeOk(s, c) && OutcomeOk(s, s.d.counter + 1)
    ensures OutcomeOk(s.(d := Shown(s.d, e), log := SessionMarks(s.log, e)), c)
  {
    var d' := Shown(s.d, e);
    SessionMarksAside(s.log, e, c);
    SessionMarksAside(s.log, e, d'.counter);
  }

  lemma SettleKeeps(s: Sys, c: nat)
    requires OutcomeOk(s, c) && OutcomeOk(s, s.d.counter)
    ensures OutcomeOk(s.(d := SettlePause(s.d), log := SettleMark(s.log, s.d.counter, OutcomeOf(s.d))), c)
  {
    SettlingKeepsLatch(s.d);
    SettleCounter(s.d);
    BothRecorded(s.log, s.d.counter);
  }

  lemma ReportKeeps(s: Sys, e: Events.Report, c: nat)
    requires forall x: nat :: OutcomeOk(s, x)
    ensures OutcomeOk(DoReport(s, e), c)
  {
    var shown := s.(d := Shown(s.d, e), log := SessionMarks(s.log, e));
    assert OutcomeOk(s, c) && OutcomeOk(s, s.d.counter + 1) && OutcomeOk(s, shown.d.counter);
    ShownKeeps(s, e, c);
    ShownKeeps(s, e, shown.d.counter);
    SettleKeeps(shown, c);
  }

  // The loop.

  lemma FailAside(s: Sys, counter: nat, f: Failure, recommended: int, now: int, c: nat)
    ensures SameStatus(s.d, DoFail(s, counter, f, recommended, now).d)
    ensures SameCounts(s.log, DoFail(s, counter, f, recommended, now).log, c)
  {
    var r := Fail(s.d, counter, f, recommended, now).1;
    MarkAside(s.log, r.Counted?, CheckFailed, c);
    MarkAside(MarkIf(s.log, r.Counted?, CheckFailed), r.Counted? && r.switched, Switched, c);
  }

  lemma FailKeeps(s: Sys, counter: nat, f: Failure, recommended: int, now: int, c: nat)
    requires OutcomeOk(s, c)
    ensures OutcomeOk(DoFail(s, counter, f, recommended, now), c)
  {
    FailAside(s, counter, f, recommended, now, c);
    FailAside(s, counter, f, recommended, now, s.d.counter);
    AsideKeeps(s, DoFail(s, counter, f, recommended, now), c);
  }

  lemma AcceptAside(s: Sys, counter: nat, v: Verdict, now: int, c: nat)
    ensures SameCounts(s.log, DoAccept(s, counter, v, now).log, c)
  {
    var r := Accept(s.d, counter, v, now).1;
    MarkAside(s.log, r.Accepted?, CheckPassed, c);
    MarkAside(MarkIf(s.log, r.Accepted?, CheckPassed), r.Accepted? && r.recovered, Recovered, c);
  }

  /** An answer decides the pause of the current print, once, or leaves the pause as it is. */
  lemma AcceptDecides(s: Sys, counter: nat, v: Verdict, now: int)
    ensures var s' := DoAccept(s, counter, v, now);
            && s'.d.counter == s.d.counter
            && if s'.pc.Pausing? then
                 s'.pc == Pausing(s.d.counter) && !s.d.latched && s'.d.latched && s'.d.pauseState.PausePending?
               else s'.pc.Top? && SameStatus(s.d, s'.d)
  {
  }

  lemma AcceptKeeps(s: Sys, counter: nat, v: Verdict, now: int, c: nat)
    requires OutcomeOk(s, c) && s.pc.Looking?
    ensures OutcomeOk(DoAccept(s, counter, v, now), c)
  {
    AcceptAside(s, counter, v, now, c);
    AcceptAside(s, counter, v, now, s.d.counter);
    AcceptDecides(s, counter, v, now);
  }

  lemma ToggleAside(s: Sys, enabled: bool, token: Token, c: nat)
    ensures SameStatus(s.d, DoToggle(s, enabled, token).d) && DoToggle(s, enabled, token).pc == s.pc
    ensures SameCounts(s.log, DoToggle(s, enabled, token).log, c)
  {
    var mark := if enabled then TurnedOn else if Active(s.d.doc) then TurnedOffForPrint else TurnedOffHeld;
    MarkAside(s.log, Toggle(s.d, s.available, enabled, token).1.None?, mark, c);
  }

  lemma ToggleKeeps(s: Sys, enabled: bool, token: Token, c: nat)
    requires OutcomeOk(s, c)
    ensures OutcomeOk(DoToggle(s, enabled, token), c)
  {
    ToggleAside(s, enabled, token, c);
    ToggleAside(s, enabled, token, s.d.counter);
    AsideKeeps(s, DoToggle(s, enabled, token), c);
  }

  lemma SendKeeps(s: Sys, sent: bool, c: nat)
    requires OutcomeOk(s, c) && s.pc.Pausing?
    ensures OutcomeOk(Next(s, SendPause(sent)), c)
  {
    var s' := Next(s, SendPause(sent));
    MarkAside(s.log, true, PauseSent(s.pc.counter), c);
    MarkAside(s.log, true, PauseSent(s.pc.counter), s.d.counter);
    if sent {
      AsideKeeps(s, s', c);
    }
  }

  lemma NoteKeeps(s: Sys, c: nat)
    requires OutcomeOk(s, c) && s.pc.PauseFailing? && OutcomeOk(s, s.pc.counter)
    ensures OutcomeOk(Next(s, NotePauseFailure), c)
  {
    BothRecorded(s.log, s.pc.counter);
  }

  lemma StepKeeps(s: Sys, step: Step, c: nat)
    requires (forall x: nat :: OutcomeOk(s, x)) && Enabled(s, step)
    ensures OutcomeOk(Next(s, step), c)
  {
    assert OutcomeOk(s, c);
    match step {
      case Reports(e) => ReportKeeps(s, e, c);
      case UserToggle(enabled, token) => ToggleKeeps(s, enabled, token, c);
      case NoCamera(now) => FailKeeps(s, s.pc.counter, NoFrame, 0, now, c);
      case CheckFails(f, recommended, now) => FailKeeps(s, s.pc.counter, f, recommended, now, c);
      case CheckAnswers(v, now) => AcceptKeeps(s, s.pc.counter, v, now, c);
      case SendPause(sent) => SendKeeps(s, sent, c);
      case NotePauseFailure =>
        assert OutcomeOk(s, s.pc.counter);
        NoteKeeps(s, c);
      case _ => QuietKeeps(s, step, c);
    }
  }

  lemma QuietKeeps(s: Sys, step: Step, c: nat)
    requires OutcomeOk(s, c) && Enabled(s, step)
    requires || step.AccountSuspends? || step.AsksAccount? || step.Begin? || step.Rests?
             || step.DecideLight? || step.SendLight?
    ensures OutcomeOk(Next(s, step), c)
  {
    MarkAside(s.log, step.SendLight?, LightSent, c);
    MarkAside(s.log, step.SendLight?, LightSent, s.d.counter);
    AsideKeeps(s, Next(s, step), c);
  }

  lemma {:induction false} RunKeeps(ss: seq<Sys>, steps: seq<Step>, i: nat)
    requires Run(ss, steps) && i < |ss|
    ensures forall c: nat :: OutcomeOk(ss[i], c)
  {
    if i > 0 {
      RunKeeps(ss, steps, i - 1);
      forall c: nat ensures OutcomeOk(ss[i], c) {
        StepKeeps(ss[i - 1], steps[i - 1], c);
      }
    }
  }

  /**
   The pause of a print has at most two outcomes recorded, and at most one if and only if its command was not
   recorded as failed after a report had already settled it.
   */
  lemma OneOutcomeIff(ss: seq<Sys>, steps: seq<Step>, i: nat, c: nat)
    requires Run(ss, steps) && i < |ss|
    ensures Outcomes(ss[i].log, c) <= 2
    ensures Outcomes(ss[i].log, c) <= 1 <==> !FailedAfterSettling(ss[i].log, c)
  {
    RunKeeps(ss, steps, i);
    assert OutcomeOk(ss[i], c);
  }

  /**
   The record of a failed command is the pause's only outcome exactly when, in its own session, the pause is still
   pending: the test that guards the status beside it and not the record.
   */
  lemma FailureIsOnlyOutcomeIff(ss: seq<Sys>, steps: seq<Step>, i: nat)
    requires Run(ss, steps) && i < |steps| && steps[i].NotePauseFailure? && ss[i].pc.counter == ss[i].d.counter
    ensures Outcomes(ss[i + 1].log, ss[i].d.counter) == 1 <==> ss[i].d.pauseState.PausePending?
  {
    RunKeeps(ss, steps, i);
    assert OutcomeOk(ss[i], ss[i].d.counter);
  }

  // Two outcomes.

  const PAUSE_REPORT: Events.Report :=
    Events.Report(ATTACH_REPORT.cur, ATTACH_REPORT.cur.(gcode := Some(Pause)), true, [Events.PrintPaused], false)

  /** While the decided pause waits the printer pauses, which confirms it; then its command fails. */
  lemma PausedThenFailed(a: Sys, b: Sys)
    requires a == DecidedSys() && b == DoReport(a, PAUSE_REPORT)
    ensures a.pc == b.pc == Pausing(1)
    ensures Settlements(b.log, 1) == 1 && FailureNotes(b.log, 1) == 0
    ensures b.log.Then? && b.log.last == Settles(1, Confirmed)
  {
    assert !Resets(PAUSE_REPORT) && Active(PAUSE_REPORT.cur);
    assert a.d.pauseState.PausePending? && a.d.counter == 1;
    assert Shown(a.d, PAUSE_REPORT).pauseState.PausePending? && Shown(a.d, PAUSE_REPORT).counter == 1;
    assert OutcomeOf(Shown(a.d, PAUSE_REPORT)) == Some(Confirmed);
    assert a.log == Then(Then(Nothing, SessionReset), CheckPassed);
  }

  lemma FailureIsNoted(b: Sys)
    requires b.pc == Pausing(1)
    ensures Enabled(b, SendPause(false)) && Enabled(Next(b, SendPause(false)), NotePauseFailure)
    ensures var d := Next(Next(b, SendPause(false)), NotePauseFailure);
            d.log == Then(Then(b.log, PauseSent(1)), FailureNoted(1))
  {
  }

  /** One pause, confirmed by a report and then recorded as failed. */
  lemma PauseCanGetTwoOutcomes()
    ensures exists s: Sys :: Reached(s) && Outcomes(s.log, 1) == 2 && FailedAfterSettling(s.log, 1)
  {
    DecidedIsReached();
    var b := DoReport(DecidedSys(), PAUSE_REPORT);
    ReachedNext(DecidedSys(), Reports(PAUSE_REPORT));
    PausedThenFailed(DecidedSys(), b);
    FailureIsNoted(b);
    ReachedNext(b, SendPause(false));
    var c := Next(b, SendPause(false));
    ReachedNext(c, NotePauseFailure);
    var log := Then(b.log, PauseSent(1));
    assert Settlements(log, 1) == 1 && FailureNotes(log, 1) == 0;
    assert Outcomes(Then(log, FailureNoted(1)), 1) == 2 && FailedAfterSettling(Then(log, FailureNoted(1)), 1);
  }
}
