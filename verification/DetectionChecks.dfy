/** When a worker inspects, and what failures and toggles do, told from the steps of a run. */
module DetectionChecks {
  import opened Options
  import opened Doc
  import opened DetectionState
  import opened DetectionProtocol
  import opened DetectionTheorems
  import opened DetectionDecisions
  import InterruptionTheorems
  import Events

  // Results that count.

  predicate Failing(step: Step) { step.NoCamera? || step.CheckFails? }

  function FailureOf(step: Step): Failure
    requires Failing(step)
  {
    if step.NoCamera? then NoFrame else step.f
  }

  /** The result is for the current print and nothing is turned off. */
  predicate Heeded(ss: seq<Sys>, steps: seq<Step>, k: nat)
    requires k < |steps| && |ss| == |steps| + 1
  {
    && (ss[k].pc.Inspecting? || ss[k].pc.Looking?) && ss[k].pc.counter == PrintAt(steps, k)
    && !OffAt(ss[k])
  }

  predicate AccountEnds(f: Failure) { f.Api? && f.accountTerminal }

  predicate RequestRejected(f: Failure) { f.Api? && f.workerTerminal }

  predicate FailureCounts(ss: seq<Sys>, steps: seq<Step>, k: nat)
    requires k < |steps| && |ss| == |steps| + 1
  {
    Failing(steps[k]) && Heeded(ss, steps, k) && !AccountEnds(FailureOf(steps[k]))
  }

  predicate AnswerCounts(ss: seq<Sys>, steps: seq<Step>, k: nat)
    requires k < |steps| && |ss| == |steps| + 1
  {
    && steps[k].CheckAnswers? && Heeded(ss, steps, k)
    && ShownAt(steps, k).gcode in {Some(Running), Some(Pause), Some(Paused)}
  }

  predicate Counted(ss: seq<Sys>, steps: seq<Step>, k: nat)
    requires k < |steps| && |ss| == |steps| + 1
  {
    FailureCounts(ss, steps, k) || AnswerCounts(ss, steps, k)
  }

  /** How long the next check waits, in seconds. */
  function DelayOf(step: Step): int
    requires Failing(step) || step.CheckAnswers?
  {
    match step
    case NoCamera(_) => 30
    case CheckFails(_, recommended, _) => if recommended > 0 then recommended else 30
    case CheckAnswers(v, _) => v.recommended
  }

  function WhyOf(f: Failure): Reason {
    if RequestRejected(f) then RequestInvalid else if f.NoFrame? then CameraLost else ApiRetrying
  }

  lemma FailIs(s: Sys, step: Step)
    requires Enabled(s, step) && Failing(step)
    ensures var s', f := Next(s, step), FailureOf(step);
            var heeded := s.pc.counter == s.d.counter && !Off(s.d);
            var counts := heeded && !AccountEnds(f);
            var switched := counts && f.Api? && f.switches && !s.d.usingFallback;
            && s'.pc == Top && s'.available == s.available
            && s'.suspended == (s.suspended || (heeded && AccountEnds(f)))
            && s'.d.due == (if counts then Some(step.now + DelayOf(step)) else s.d.due)
            && s'.d.reason == (if counts then WhyOf(f) else s.d.reason)
            && s'.d.troubleSince == (if counts && s.d.troubleSince.None? then Some(step.now) else s.d.troubleSince)
            && s'.log == MarkIf(MarkIf(s.log, counts, CheckFailed), switched, Switched)
  {
  }

  lemma AnswerIs(s: Sys, v: Verdict, now: int)
    requires s.pc.Looking?
    ensures var s' := Next(s, CheckAnswers(v, now));
            var active := s.d.doc.gcode in {Some(Running), Some(Pause), Some(Paused)};
            var counts := s.pc.counter == s.d.counter && !Off(s.d) && active;
            && (s'.pc.Top? || s'.pc.Pausing?) && s'.suspended == s.suspended && s'.available == s.available
            && s'.d.due == (if counts then Some(now + v.recommended) else s.d.due)
            && s'.d.reason == (if counts then NoReason else s.d.reason)
  {
    ActiveIs(s.d.doc);
  }

  lemma ActiveIs(doc: View)
    ensures Active(doc) <==> doc.gcode in {Some(Running), Some(Pause), Some(Paused)}
  {
  }

  // When the next check is due.

  lemma DueBySettling(d: Detector)
    ensures SettlePause(d).due == d.due
  {
  }

  lemma DueByOthers(s: Sys, step: Step)
    requires Enabled(s, step) && !Failing(step) && !step.CheckAnswers?
    ensures Next(s, step).d.due == if ResetsSession(step) then None else s.d.due
  {
    if step.Reports? {
      DueBySettling(Shown(s.d, step.e));
    }
  }

  /** Step j is the latest result that counts in the session of state i. */
  predicate LatestResult(ss: seq<Sys>, steps: seq<Step>, j: nat, i: nat)
    requires j < i <= |steps| && |ss| == |steps| + 1
  {
    Counted(ss, steps, j) && forall k :: j < k < i ==> !Counted(ss, steps, k) && !ResetsSession(steps[k])
  }

  /** The due time is that of the latest result. */
  ghost predicate DueOk(ss: seq<Sys>, steps: seq<Step>, i: nat)
    requires i <= |steps| && |ss| == |steps| + 1
  {
    && (ss[i].d.due.Some? <==> exists j :: 0 <= j < i && LatestResult(ss, steps, j, i))
    && forall j :: 0 <= j < i && LatestResult(ss, steps, j, i) ==>
         ss[i].d.due == Some(steps[j].now + DelayOf(steps[j]))
  }

  lemma OneMoreResult(ss: seq<Sys>, steps: seq<Step>, j: nat, i: nat)
    requires j < i < |steps| && |ss| == |steps| + 1
    ensures LatestResult(ss, steps, j, i + 1) <==>
              LatestResult(ss, steps, j, i) && !Counted(ss, steps, i) && !ResetsSession(steps[i])
  {
  }

  lemma CountedKeepsDue(ss: seq<Sys>, steps: seq<Step>, i: nat)
    requires i < |steps| && |ss| == |steps| + 1 && Counted(ss, steps, i)
    requires ss[i + 1].d.due == Some(steps[i].now + DelayOf(steps[i]))
    ensures DueOk(ss, steps, i + 1)
  {
    var n := i + 1;
    assert LatestResult(ss, steps, i, n);
    forall j: nat | j < i ensures !LatestResult(ss, steps, j, n) {
      OneMoreResult(ss, steps, j, i);
    }
  }

  lemma OthersKeepDue(ss: seq<Sys>, steps: seq<Step>, i: nat)
    requires i < |steps| && |ss| == |steps| + 1 && DueOk(ss, steps, i) && !Counted(ss, steps, i)
    requires ss[i + 1].d.due == if ResetsSession(steps[i]) then None else ss[i].d.due
    ensures DueOk(ss, steps, i + 1)
  {
    var n := i + 1;
    forall j: nat | j < i
      ensures LatestResult(ss, steps, j, n) <==> LatestResult(ss, steps, j, i) && !ResetsSession(steps[i])
    {
      OneMoreResult(ss, steps, j, i);
    }
    assert !LatestResult(ss, steps, i, n);
  }

  lemma StepKeepsDue(ss: seq<Sys>, steps: seq<Step>, i: nat)
    requires Run(ss, steps) && i < |steps| && DueOk(ss, steps, i)
    ensures DueOk(ss, steps, i + 1)
  {
    var s, step := ss[i], steps[i];
    SeenIs(ss, steps, i);
    assert ss[i + 1] == Next(s, step) && Enabled(s, step);
    if Failing(step) {
      FailIs(s, step);
    } else if step.CheckAnswers? {
      AnswerIs(s, step.v, step.now);
    } else {
      DueByOthers(s, step);
    }
    if Counted(ss, steps, i) {
      CountedKeepsDue(ss, steps, i);
    } else {
      OthersKeepDue(ss, steps, i);
    }
  }

  lemma {:induction false} RunKeepsDue(ss: seq<Sys>, steps: seq<Step>, i: nat)
    requires Run(ss, steps) && i < |ss|
    ensures DueOk(ss, steps, i)
  {
    if i > 0 {
      RunKeepsDue(ss, steps, i - 1);
      StepKeepsDue(ss, steps, i - 1);
    }
  }

  // Rejected requests.

  /** Report k settles the pause as not confirmed and tells the operator so. */
  predicate TellsUnconfirmed(ss: seq<Sys>, steps: seq<Step>, k: nat)
    requires k < |steps| && |ss| == |steps| + 1
  {
    && steps[k].Reports?
    && ss[k + 1].log == Then(SessionMarks(ss[k].log, steps[k].e), Settles(PrintAt(steps, k + 1), NotConfirmed))
  }

  function Length(log: Log): nat {
    match log
    case Nothing => 0
    case Then(before, _) => Length(before) + 1
  }

  lemma TellsIff(ss: seq<Sys>, steps: seq<Step>, k: nat)
    requires Run(ss, steps) && k < |steps| && steps[k].Reports?
    ensures TellsUnconfirmed(ss, steps, k) <==> OutcomeOf(Shown(ss[k].d, steps[k].e)) == Some(NotConfirmed)
  {
    SeenIs(ss, steps, k + 1);
    var shown := Shown(ss[k].d, steps[k].e);
    var marks := SessionMarks(ss[k].log, steps[k].e);
    SettleCounter(shown);
    assert ss[k + 1].log == SettleMark(marks, shown.counter, OutcomeOf(shown));
    assert forall m :: Length(Then(marks, m)) == Length(marks) + 1;
  }

  /** The note of a failed pause command changes the status. */
  predicate NotesUnconfirmed(ss: seq<Sys>, steps: seq<Step>, k: nat)
    requires k < |steps| && |ss| == |steps| + 1
  {
    steps[k].NotePauseFailure? && ss[k].pc == PauseFailing(PrintAt(steps, k)) && ss[k].d.pauseState.PausePending?
  }

  lemma ReasonBySettling(d: Detector)
    ensures SettlePause(d).reason == if OutcomeOf(d) == Some(NotConfirmed) then PauseNotConfirmed else d.reason
  {
  }

  lemma ReasonByReport(s: Sys, e: Events.Report)
    ensures Next(s, Reports(e)).d.reason ==
            if Resets(e) then NoReason
            else if OutcomeOf(Shown(s.d, e)) == Some(NotConfirmed) then PauseNotConfirmed
            else s.d.reason
    ensures Resets(e) ==> OutcomeOf(Shown(s.d, e)).None?
  {
    ReasonBySettling(Shown(s.d, e));
  }

  lemma ReasonByOthers(s: Sys, step: Step)
    requires Enabled(s, step) && !step.Reports? && !Failing(step) && !step.CheckAnswers?
    ensures Next(s, step).d.reason ==
            if step.NotePauseFailure? && s.pc.counter == s.d.counter && s.d.pauseState.PausePending? then PauseNotSent
            else s.d.reason
  {
  }

  /** Something was said at step k that replaces the reason shown. */
  predicate ReasonReplaced(ss: seq<Sys>, steps: seq<Step>, k: nat)
    requires k < |steps| && |ss| == |steps| + 1
  {
    || Counted(ss, steps, k) || ResetsSession(steps[k])
    || TellsUnconfirmed(ss, steps, k) || NotesUnconfirmed(ss, steps, k)
  }

  /** Step k is a check whose request the provider has rejected. */
  predicate RejectedAt(ss: seq<Sys>, steps: seq<Step>, k: nat)
    requires k < |steps| && |ss| == |steps| + 1
  {
    FailureCounts(ss, steps, k) && RequestRejected(FailureOf(steps[k]))
  }

  /** A rejection is the last that was said before state i. */
  predicate RejectedSince(ss: seq<Sys>, steps: seq<Step>, j: nat, i: nat)
    requires j < i <= |steps| && |ss| == |steps| + 1
  {
    RejectedAt(ss, steps, j) && forall k :: j < k < i ==> !ReasonReplaced(ss, steps, k)
  }

  predicate Rejected(ss: seq<Sys>, steps: seq<Step>, i: nat)
    requires i <= |steps| && |ss| == |steps| + 1
  {
    exists j :: 0 <= j < i && RejectedSince(ss, steps, j, i)
  }

  lemma OneMoreRejected(ss: seq<Sys>, steps: seq<Step>, i: nat)
    requires i < |steps| && |ss| == |steps| + 1
    ensures Rejected(ss, steps, i + 1) <==>
            RejectedAt(ss, steps, i) || (Rejected(ss, steps, i) && !ReasonReplaced(ss, steps, i))
  {
    if RejectedAt(ss, steps, i) {
      assert RejectedSince(ss, steps, i, i + 1);
    }
    if Rejected(ss, steps, i) && !ReasonReplaced(ss, steps, i) {
      var j :| 0 <= j < i && RejectedSince(ss, steps, j, i);
      assert RejectedSince(ss, steps, j, i + 1);
    }
    if Rejected(ss, steps, i + 1) && !RejectedAt(ss, steps, i) {
      var j :| 0 <= j < i + 1 && RejectedSince(ss, steps, j, i + 1);
      assert j < i && RejectedSince(ss, steps, j, i);
    }
  }

  lemma RejectionStep(ss: seq<Sys>, steps: seq<Step>, i: nat)
    requires Run(ss, steps) && i < |steps|
    ensures ss[i + 1].d.reason.RequestInvalid? <==>
            RejectedAt(ss, steps, i) || (ss[i].d.reason.RequestInvalid? && !ReasonReplaced(ss, steps, i))
  {
    var s, step := ss[i], steps[i];
    SeenIs(ss, steps, i);
    assert ss[i + 1] == Next(s, step) && Enabled(s, step);
    if Failing(step) {
      FailIs(s, step);
    } else if step.CheckAnswers? {
      AnswerIs(s, step.v, step.now);
    } else if step.Reports? {
      TellsIff(ss, steps, i);
      ReasonByReport(s, step.e);
    } else {
      ReasonByOthers(s, step);
    }
  }

  lemma {:induction false} ReasonIff(ss: seq<Sys>, steps: seq<Step>, i: nat)
    requires Run(ss, steps) && i < |ss|
    ensures ss[i].d.reason.RequestInvalid? <==> Rejected(ss, steps, i)
  {
    if i > 0 {
      ReasonIff(ss, steps, i - 1);
      RejectionStep(ss, steps, i - 1);
      OneMoreRejected(ss, steps, i - 1);
    }
  }

  /**
   An inspection may begin if and only if the loop has asked for it and read that the account is not suspended,
   detection is available, nothing is turned off, the printer is online and RUNNING with a print counted, the provider
   has not rejected the request for good, and the delay set by the latest result is over.
   */
  lemma InspectionBeginsIff(ss: seq<Sys>, steps: seq<Step>, i: nat, now: int)
    requires Run(ss, steps) && i < |ss|
    ensures Enabled(ss[i], Begin(now)) <==>
            && ss[i].pc == Asked(false) && ss[i].available && !OffAt(ss[i])
            && RunningAt(steps, i) && PrintAt(steps, i) > 0 && !Rejected(ss, steps, i)
            && forall j :: 0 <= j < i && LatestResult(ss, steps, j, i) ==> steps[j].now + DelayOf(steps[j]) <= now
  {
    SeenIs(ss, steps, i);
    ReasonIff(ss, steps, i);
    RunKeepsDue(ss, steps, i);
    StateIs(ss[i].d.doc.gcode);
  }

  /** Between inspections. */
  predicate Resting(pc: Pc) { pc.Top? || pc.Asked? }

  lemma TopStays(s: Sys, step: Step)
    requires Enabled(s, step) && Resting(s.pc) && !step.Begin?
    ensures Resting(Next(s, step).pc) && !Failing(step) && !step.CheckAnswers? && !step.NotePauseFailure?
  {
  }

  lemma {:induction false} TopSince(ss: seq<Sys>, steps: seq<Step>, j: nat, i: nat)
    requires Run(ss, steps) && j < i < |ss| && FailureCounts(ss, steps, j)
    requires forall k :: j < k < i ==> !steps[k].Begin?
    ensures Resting(ss[i].pc)
    ensures forall k :: j < k < i ==> !Counted(ss, steps, k) && !NotesUnconfirmed(ss, steps, k)
  {
    if i == j + 1 {
      assert ss[i] == Next(ss[j], steps[j]) && Enabled(ss[j], steps[j]);
      FailIs(ss[j], steps[j]);
    } else {
      TopSince(ss, steps, j, i - 1);
      TopStays(ss[i - 1], steps[i - 1]);
    }
  }

  /**
   After a rejected request checks are said to stop for the print. Within its session, with no inspection begun since,
   they are stopped if and only if no report has settled the pause as not confirmed in between, which replaces the
   reason that stops them.
   */
  lemma RejectionHoldsIff(ss: seq<Sys>, steps: seq<Step>, j: nat, i: nat)
    requires Run(ss, steps) && j < i < |ss| && RejectedAt(ss, steps, j) && SameSession(steps, j, i)
    requires forall k :: j < k < i ==> !steps[k].Begin?
    ensures Rejected(ss, steps, i) <==> forall k :: j < k < i ==> !TellsUnconfirmed(ss, steps, k)
  {
    TopSince(ss, steps, j, i);
    if forall k :: j < k < i ==> !TellsUnconfirmed(ss, steps, k) {
      assert RejectedSince(ss, steps, j, i);
    } else if Rejected(ss, steps, i) {
      var k :| j < k < i && TellsUnconfirmed(ss, steps, k);
      var m :| 0 <= m < i && RejectedSince(ss, steps, m, i);
      assert ReasonReplaced(ss, steps, k) && ReasonReplaced(ss, steps, j);
      assert m >= k && Counted(ss, steps, m);
    }
  }

  // A run in which a rejection does not hold.

  /** The print goes on above the layer at which its pause was decided. */
  const GOES_ON: Events.Report :=
    Events.Report(ATTACH_REPORT.cur, ATTACH_REPORT.cur.(layer := Some(6)), true, [], false)

  const REJECTION: Failure := Api(false, true, false)

  lemma Longer(ss: seq<Sys>, steps: seq<Step>, step: Step) returns (ss': seq<Sys>, steps': seq<Step>)
    requires Run(ss, steps) && Enabled(ss[|steps|], step)
    ensures Run(ss', steps') && |steps'| == |steps| + 1
    ensures steps' == steps + [step] && ss' == ss + [Next(ss[|steps|], step)]
  {
    ss', steps' := ss + [Next(ss[|steps|], step)], steps + [step];
  }

  /** The pause is sent and the next check begins. */
  lemma NextCheckLooks(s: Sys)
    requires s == DecidedSys()
    ensures Enabled(s, SendPause(true)) && Enabled(Next(s, SendPause(true)), AsksAccount)
    ensures Enabled(Next(Next(s, SendPause(true)), AsksAccount), Begin(1))
    ensures var a := Next(Next(Next(s, SendPause(true)), AsksAccount), Begin(1));
            && Enabled(a, DecideLight)
            && Next(a, DecideLight) == a.(pc := Looking(1)) && a.d == s.d
  {
    LookingIs(s);
  }

  lemma LookingIs(s: Sys)
    requires s == DecidedSys()
    ensures s.pc == Pausing(1) && s.available && !s.suspended && MayInspect(s.d, true, false)
    ensures s.d.counter == 1 && s.d.due == Some(1) && s.d.lightDone && s.d.doc == ATTACH_REPORT.cur
    ensures s.d.pauseState.PausePending? && s.d.pauseLayer == Some(5) && !Off(s.d)
  {
    assert LookingSys().d.doc.State().Running?;
  }

  /** Its request is rejected, and then the pause turns out not to be confirmed. */
  lemma RejectedThenLifted(d: Sys)
    requires d.d == DecidedSys().d && d.pc == Looking(1) && d.available && !d.suspended
    ensures var e := Next(d, CheckFails(REJECTION, 0, 1));
            && Enabled(d, CheckFails(REJECTION, 0, 1))
            && Enabled(Next(e, Reports(GOES_ON)), AsksAccount)
            && Enabled(Next(Next(e, Reports(GOES_ON)), AsksAccount), Begin(31))
  {
    LookingIs(DecidedSys());
    FailIs(d, CheckFails(REJECTION, 0, 1));
    var e := Next(d, CheckFails(REJECTION, 0, 1));
    assert !Resets(GOES_ON);
    FailSpares(d, 1, REJECTION, 0, 1);
    ReportWord(e, GOES_ON);
    ReasonByReport(e, GOES_ON);
    ShownStep(e, Reports(GOES_ON));
    var f := Next(e, Reports(GOES_ON));
    DueByOthers(e, Reports(GOES_ON));
    ReportCounter(e.d, GOES_ON);
    ReportToggles(e.d, GOES_ON);
    assert f.d.due == Some(31) && f.d.counter == 1 && !Off(f.d);
  }

  /** The pause of the first print is decided and sent, and the next check looks. */
  lemma LooksAgain() returns (ss: seq<Sys>, steps: seq<Step>)
    ensures Run(ss, steps)
    ensures var d := ss[|steps|]; d.d == DecidedSys().d && d.pc == Looking(1) && d.available && !d.suspended
  {
    DecidedIsReached();
    ss, steps :| Run(ss, steps) && ss[|steps|] == DecidedSys();
    LookingIs(DecidedSys());
    NextCheckLooks(DecidedSys());
    ss, steps := Longer(ss, steps, SendPause(true));
    ss, steps := Longer(ss, steps, AsksAccount);
    ss, steps := Longer(ss, steps, Begin(1));
    ss, steps := Longer(ss, steps, DecideLight);
  }

  /** The provider has rejected the request, and an inspection begins again in the same session. */
  lemma RejectionCanBeLifted()
    ensures exists ss: seq<Sys>, steps: seq<Step>, j: nat, i: nat ::
              && Run(ss, steps) && j < i < |steps| && RejectedAt(ss, steps, j) && SameSession(steps, j, i)
              && steps[i].Begin?
  {
    var ss, steps := LooksAgain();
    var n, fails := |steps|, CheckFails(REJECTION, 0, 1);
    LookingIs(DecidedSys());
    RejectedThenLifted(ss[n]);
    ss, steps := Longer(ss, steps, fails);
    ss, steps := Longer(ss, steps, Reports(GOES_ON));
    ss, steps := Longer(ss, steps, AsksAccount);
    ss, steps := Longer(ss, steps, Begin(31));
    assert steps[n] == fails && steps[n + 1] == Reports(GOES_ON) && steps[n + 2] == AsksAccount;
    assert steps[n + 3] == Begin(31);
    SeenIs(ss, steps, n);
    assert RejectedAt(ss, steps, n);
    assert SameSession(steps, n, n + 3);
  }

  // Suspension.

  /** The loop can only learn of the suspension. */
  predicate Halting(s: Sys) { s.suspended && (s.pc == Top || s.pc == Asked(true)) }

  lemma HaltingStep(s: Sys, step: Step)
    requires Enabled(s, step) && Halting(s)
    ensures Halting(Next(s, step)) && !step.Begin?
  {
  }

  /** A failure that ends the account stops all inspections of its worker for good, in every session. */
  lemma {:induction false} SuspendedForGood(ss: seq<Sys>, steps: seq<Step>, j: nat, i: nat)
    requires Run(ss, steps) && j < i <= |steps|
    requires Failing(steps[j]) && Heeded(ss, steps, j) && AccountEnds(FailureOf(steps[j]))
    ensures Halting(ss[i])
    ensures forall k :: j < k < i ==> !steps[k].Begin?
  {
    if i == j + 1 {
      SeenIs(ss, steps, j);
      FailIs(ss[j], steps[j]);
    } else {
      SuspendedForGood(ss, steps, j, i - 1);
      HaltingStep(ss[i - 1], steps[i - 1]);
    }
  }

  /** Whether the loop may still begin the inspection it had asked for. */
  predicate Asking(s: Sys) { s.pc == Asked(false) }

  lemma SuspensionStep(s: Sys, step: Step)
    requires Enabled(s, step) && s.suspended
    ensures Next(s, step).suspended
    ensures (Asking(Next(s, step)) ==> Asking(s)) && (step.Begin? ==> Asking(s) && !Asking(Next(s, step)))
  {
    if Failing(step) {
      FailIs(s, step);
    } else if step.CheckAnswers? {
      AnswerIs(s, step.v, step.now);
    }
  }

  lemma {:induction false} SuspensionStays(ss: seq<Sys>, steps: seq<Step>, j: nat, i: nat)
    requires Run(ss, steps) && j <= i < |ss| && ss[j].suspended
    ensures ss[i].suspended && (Asking(ss[i]) ==> Asking(ss[j]))
  {
    if j < i {
      SuspensionStays(ss, steps, j, i - 1);
      SuspensionStep(ss[i - 1], steps[i - 1]);
    }
  }

  /**
   Once the account is suspended, by whichever printer, at most one more inspection begins: one whose loop had asked
   before.
   */
  lemma SuspensionAllowsOneMore(ss: seq<Sys>, steps: seq<Step>, j: nat, k: nat, i: nat)
    requires Run(ss, steps) && j <= k < i <= |steps| && ss[j].suspended && steps[k].Begin?
    ensures Asking(ss[j])
    ensures i < |steps| ==> !steps[i].Begin?
  {
    SuspensionStays(ss, steps, j, k);
    SuspensionStep(ss[k], steps[k]);
    SuspensionStays(ss, steps, k + 1, i);
    if i < |steps| {
      SuspensionStep(ss[i], steps[i]);
    }
  }

  // What a failed check records.

  /**
   A failed check is counted exactly when it is for the current print, nothing is turned off and the account goes on;
   the backup server is taken exactly at the first counted failure of the session that asks for it.
   */
  lemma FailureRecords(ss: seq<Sys>, steps: seq<Step>, i: nat)
    requires Run(ss, steps) && i < |steps| && Failing(steps[i])
    ensures var f := FailureOf(steps[i]);
            var counts := FailureCounts(ss, steps, i);
            var switches := counts && f.Api? && f.switches && !InterruptionTheorems.SwitchedSince(ss[i].log);
            && ss[i + 1].log == MarkIf(MarkIf(ss[i].log, counts, CheckFailed), switches, Switched)
            && (counts ==> ss[i + 1].d.reason == if RequestRejected(f) then RequestInvalid
                                                 else if f.NoFrame? then CameraLost else ApiRetrying)
  {
    SeenIs(ss, steps, i);
    InterruptionTheorems.InterruptionsAccounted(ss, steps, i);
    assert Enabled(ss[i], steps[i]);
    FailIs(ss[i], steps[i]);
  }

  lemma TroubleByOthers(s: Sys, step: Step)
    requires Enabled(s, step) && !Failing(step)
    ensures Next(s, step).d.troubleSince in {None, s.d.troubleSince}
  {
    if step.Reports? {
      InterruptionTheorems.SettlingAccount(Shown(s.d, step.e));
    }
  }

  /** Step j is the counted failure that opened the interruption still open in state i. */
  predicate Opened(ss: seq<Sys>, steps: seq<Step>, j: nat, i: nat)
    requires j < i <= |steps| && |ss| == |steps| + 1
  {
    FailureCounts(ss, steps, j) && ss[j].d.failures == 0 && forall k :: j < k <= i ==> ss[k].d.failures > 0
  }

  /** An open interruption is dated by the failed check that opened it. */
  lemma {:induction false} TroubleSinceIs(ss: seq<Sys>, steps: seq<Step>, i: nat)
    requires Run(ss, steps) && i < |ss| && ss[i].d.troubleSince.Some?
    ensures exists j :: 0 <= j < i && Opened(ss, steps, j, i) && ss[i].d.troubleSince == Some(steps[j].now)
  {
    InterruptionTheorems.InterruptionsAccounted(ss, steps, i);
    if i > 0 {
      var s, step := ss[i - 1], steps[i - 1];
      InterruptionTheorems.InterruptionsAccounted(ss, steps, i - 1);
      SeenIs(ss, steps, i - 1);
      if Failing(step) {
        FailIs(s, step);
      } else {
        TroubleByOthers(s, step);
      }
      if s.d.troubleSince.Some? {
        TroubleSinceIs(ss, steps, i - 1);
        var j :| 0 <= j < i - 1 && Opened(ss, steps, j, i - 1) && s.d.troubleSince == Some(steps[j].now);
        assert Opened(ss, steps, j, i);
      } else {
        assert Opened(ss, steps, i - 1, i);
      }
    }
  }

  // Sessions.

  /**
   A report of the store begins a session if and only if it begins a job, or shows for the first time a printer that is
   printing, paused or preparing.
   */
  lemma SessionBeginsIff(e: Events.Report, oldProblems: seq<Events.Problem>, newProblems: seq<Events.Problem>)
    requires e.kinds == Events.Transitions(e.prev, e.cur, oldProblems, newProblems)
    requires e.newJob == Events.NewJob(e.prev, e.cur)
    ensures Resets(e) <==>
            || (&& (Events.PrintPreparing in e.kinds || Events.PrintStarted in e.kinds)
                && e.prev.gcode !in {Some(Prepare), Some(Slicing)})
            || (&& e.prev.gcode.None?
                && e.cur.gcode in {Some(Running), Some(Pause), Some(Paused), Some(Prepare), Some(Slicing)})
  {
    Events.InitialKind(e.prev, e.cur, oldProblems, newProblems);
    Events.NewJobIff(e.prev, e.cur, oldProblems, newProblems);
    ActiveIs(e.cur);
  }

  // Toggles.

  /** The latest report shows an active print. */
  predicate ActiveAt(steps: seq<Step>, i: nat)
    requires i <= |steps|
  {
    ShownAt(steps, i).gcode in {Some(Running), Some(Pause), Some(Paused)}
  }

  /**
   Turning on is always accepted. Turning off is accepted if and only if detection is available and the client names
   exactly what is shown: the number of the current print while one is active, and nothing otherwise.
   */
  lemma ToggleIff(ss: seq<Sys>, steps: seq<Step>, i: nat)
    requires Run(ss, steps) && i < |steps| && steps[i].UserToggle?
    ensures var enabled, token, c := steps[i].enabled, steps[i].token, PrintAt(steps, i);
            var mark := if enabled then TurnedOn else if ActiveAt(steps, i) then TurnedOffForPrint else TurnedOffHeld;
            var accepted := enabled
                            || (ss[i].available
                                && if ActiveAt(steps, i) then c > 0 && token == Session(c) else token == Blank);
            ss[i + 1].log == if accepted then Then(ss[i].log, mark) else ss[i].log
    ensures var c := PrintAt(steps, i);
            ToggleCheck(ss[i].d, ss[i].available, steps[i].enabled, steps[i].token) ==
            if steps[i].enabled then None
            else if !ss[i].available then Some(Unavailable)
            else if ActiveAt(steps, i) && c == 0 then Some(NoPrintSession)
            else if steps[i].token != (if ActiveAt(steps, i) then Session(c) else Blank) then Some(StaleSession)
            else None
  {
    SeenIs(ss, steps, i);
    ActiveIs(ss[i].d.doc);
  }

  /** A client that saw print c before a new session began cannot turn off the print that came after it. */
  lemma StaleClientIsRefused(ss: seq<Sys>, steps: seq<Step>, j: nat, i: nat)
    requires Run(ss, steps) && j <= i < |steps| && ActiveAt(steps, i)
    requires steps[i].UserToggle? && !steps[i].enabled && steps[i].token == Session(PrintAt(steps, j))
    ensures ss[i + 1].log != ss[i].log ==> forall k :: j <= k < i ==> !ResetsSession(steps[k])
  {
    ToggleIff(ss, steps, i);
    SeenIs(ss, steps, j);
    SeenIs(ss, steps, i);
    CounterBetween(ss, steps, j, i);
  }
}
