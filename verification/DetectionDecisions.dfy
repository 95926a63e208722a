/** Why a worker pauses, lights and switches, told from the steps of a run. */
module DetectionDecisions {
  import opened Options
  import opened Doc
  import opened DetectionState
  import opened DetectionProtocol
  import opened DetectionTheorems
  import Events

  // What the steps say.

  /** The latest report's document and connectivity before state i. */
  function ShownAt(steps: seq<Step>, i: nat): View
    requires i <= |steps|
  {
    if i == 0 then View(None, None, None, None, None)
    else if steps[i - 1].Reports? then steps[i - 1].e.cur
    else ShownAt(steps, i - 1)
  }

  function OnlineAt(steps: seq<Step>, i: nat): bool
    requires i <= |steps|
  {
    if i == 0 then false else if steps[i - 1].Reports? then steps[i - 1].e.online else OnlineAt(steps, i - 1)
  }

  /** How many sessions have begun: the number of the current print. */
  function PrintAt(steps: seq<Step>, i: nat): nat
    requires i <= |steps|
  {
    if i == 0 then 0 else PrintAt(steps, i - 1) + if ResetsSession(steps[i - 1]) then 1 else 0
  }

  predicate RunningAt(steps: seq<Step>, i: nat)
    requires i <= |steps|
  {
    OnlineAt(steps, i) && ShownAt(steps, i).gcode == Some(Running)
  }

  lemma ShownStep(s: Sys, step: Step)
    requires Enabled(s, step)
    ensures var d := Next(s, step).d;
            if step.Reports? then d.doc == step.e.cur && d.online == step.e.online
            else d.doc == s.d.doc && d.online == s.d.online
  {
    if step.Reports? {
      ShownBySettling(Shown(s.d, step.e));
    } else {
      ShownByOthers(s, step);
    }
  }

  lemma ShownBySettling(d: Detector)
    ensures SettlePause(d).doc == d.doc && SettlePause(d).online == d.online
  {
  }

  lemma FailSpares(s: Sys, counter: nat, f: Failure, recommended: int, now: int)
    ensures var d, d' := s.d, DoFail(s, counter, f, recommended, now).d;
            && d'.doc == d.doc && d'.online == d.online && d'.lightDone == d.lightDone
            && SameLatch(d, d') && d'.pauseState == d.pauseState
  {
  }

  lemma AcceptSpares(s: Sys, counter: nat, v: Verdict, now: int)
    ensures var d, d' := s.d, DoAccept(s, counter, v, now).d;
            && d'.doc == d.doc && d'.online == d.online && d'.lightDone == d.lightDone
            && (d.pauseState.PausePending? ==> d'.pauseState.PausePending?)
  {
  }

  lemma CheckSpares(s: Sys, step: Step)
    requires Enabled(s, step) && (step.NoCamera? || step.CheckFails? || step.CheckAnswers?)
    ensures var d, d' := s.d, Next(s, step).d;
            && d'.doc == d.doc && d'.online == d.online && d'.lightDone == d.lightDone
            && (d.pauseState.PausePending? ==> d'.pauseState.PausePending?)
            && (!step.CheckAnswers? ==> SameLatch(d, d'))
  {
    match step {
      case NoCamera(now) => FailSpares(s, s.pc.counter, NoFrame, 0, now);
      case CheckFails(f, recommended, now) => FailSpares(s, s.pc.counter, f, recommended, now);
      case CheckAnswers(v, now) => AcceptSpares(s, s.pc.counter, v, now);
    }
  }

  predicate SameLatch(d: Detector, d': Detector) { d'.latched == d.latched && d'.pauseLayer == d.pauseLayer }

  lemma ShownByOthers(s: Sys, step: Step)
    requires Enabled(s, step) && !step.Reports?
    ensures Next(s, step).d.doc == s.d.doc && Next(s, step).d.online == s.d.online
  {
    if step.NoCamera? || step.CheckFails? || step.CheckAnswers? {
      CheckSpares(s, step);
    }
  }

  lemma {:induction false} SeenIs(ss: seq<Sys>, steps: seq<Step>, i: nat)
    requires Run(ss, steps) && i < |ss|
    ensures ss[i].d.doc == ShownAt(steps, i) && ss[i].d.online == OnlineAt(steps, i)
    ensures ss[i].d.counter == PrintAt(steps, i)
    ensures ss[i].d.disabled == OffForPrint(ss[i].log) && ss[i].d.held == OffHeld(ss[i].log)
  {
    TurnedOffStaysQuiet(ss, steps, i);
    if i > 0 {
      SeenIs(ss, steps, i - 1);
      ShownStep(ss[i - 1], steps[i - 1]);
      StepCounter(ss[i - 1], steps[i - 1]);
    }
  }

  /** Turned off for the print or until turned on, by the toggles so far. */
  predicate OffAt(s: Sys) { OffForPrint(s.log) || OffHeld(s.log) }

  lemma StateIs(gcode: Option<Gcode>)
    ensures gcode.GetOr(Other("")).Running? <==> gcode == Some(Running)
  {
  }

  // Pauses.

  /** Step j decides the pause of print c. */
  predicate Decides(ss: seq<Sys>, steps: seq<Step>, j: nat, c: nat)
    requires j < |steps| && |ss| == |steps| + 1
  {
    steps[j].CheckAnswers? && ss[j + 1].pc == Pausing(c)
  }

  predicate DecidedBefore(ss: seq<Sys>, steps: seq<Step>, i: nat, c: nat)
    requires i <= |steps| && |ss| == |steps| + 1
  {
    exists j :: 0 <= j < i && Decides(ss, steps, j, c)
  }

  /** The layer shown when the pause of print c was decided. */
  predicate LayerDecided(ss: seq<Sys>, steps: seq<Step>, i: nat, c: nat, layer: Option<int>)
    requires i <= |steps| && |ss| == |steps| + 1
  {
    exists j :: 0 <= j < i && Decides(ss, steps, j, c) && layer == ShownAt(steps, j).layer
  }

  /** What an answer decides, in the state's own terms. */
  lemma AnswerStep(s: Sys, v: Verdict, now: int)
    requires s.pc.Looking?
    ensures var s' := Next(s, CheckAnswers(v, now));
            var c := s.pc.counter;
            var pauses := v.pauseSuggested && c == s.d.counter && !Off(s.d) && !s.d.latched
                          && s.d.online && s.d.doc.gcode == Some(Running);
            && s'.pc == (if pauses then Pausing(c) else Top)
            && s'.d.latched == (s.d.latched || pauses)
            && s'.d.pauseLayer == (if pauses && s.d.doc.layer.Some? then s.d.doc.layer else s.d.pauseLayer)
            && s'.d.pauseState == (if pauses then PausePending else s.d.pauseState)
  {
    StateIs(s.d.doc.gcode);
  }

  lemma LatchStep(s: Sys, step: Step)
    requires Enabled(s, step) && !step.CheckAnswers?
    ensures var d := Next(s, step).d;
            if ResetsSession(step) then !d.latched && d.pauseLayer.None? else SameLatch(s.d, d)
  {
    if step.Reports? {
      LatchBySettling(Shown(s.d, step.e));
    } else {
      LatchByOthers(s, step);
    }
  }

  lemma LatchBySettling(d: Detector)
    ensures SameLatch(d, SettlePause(d))
  {
  }

  lemma LatchByOthers(s: Sys, step: Step)
    requires Enabled(s, step) && !step.CheckAnswers? && !step.Reports?
    ensures SameLatch(s.d, Next(s, step).d)
  {
    if step.NoCamera? || step.CheckFails? {
      CheckSpares(s, step);
    }
  }

  /** The latch is spent exactly when the pause of this print was decided, and the layer shown then is remembered. */
  ghost predicate LatchOk(ss: seq<Sys>, steps: seq<Step>, i: nat)
    requires i <= |steps| && |ss| == |steps| + 1
  {
    && (ss[i].d.latched <==> DecidedBefore(ss, steps, i, PrintAt(steps, i)))
    && (forall c :: c > PrintAt(steps, i) ==> !DecidedBefore(ss, steps, i, c))
    && (if ss[i].d.latched then LayerDecided(ss, steps, i, PrintAt(steps, i), ss[i].d.pauseLayer)
        else ss[i].d.pauseLayer.None?)
  }

  lemma OneMoreDecided(ss: seq<Sys>, steps: seq<Step>, i: nat, c: nat)
    requires i < |steps| && |ss| == |steps| + 1
    ensures DecidedBefore(ss, steps, i + 1, c) <==> DecidedBefore(ss, steps, i, c) || Decides(ss, steps, i, c)
  {
    if DecidedBefore(ss, steps, i, c) {
      var j :| 0 <= j < i && Decides(ss, steps, j, c);
      assert 0 <= j < i + 1 && Decides(ss, steps, j, c);
    }
  }

  lemma LayerStays(ss: seq<Sys>, steps: seq<Step>, i: nat, c: nat, layer: Option<int>)
    requires i < |steps| && |ss| == |steps| + 1
    ensures LayerDecided(ss, steps, i, c, layer) ==> LayerDecided(ss, steps, i + 1, c, layer)
    ensures Decides(ss, steps, i, c) ==> LayerDecided(ss, steps, i + 1, c, ShownAt(steps, i).layer)
  {
    if LayerDecided(ss, steps, i, c, layer) {
      var j :| 0 <= j < i && Decides(ss, steps, j, c) && layer == ShownAt(steps, j).layer;
      assert 0 <= j < i + 1 && Decides(ss, steps, j, c);
    }
  }

  lemma DecidingKeepsLatch(ss: seq<Sys>, steps: seq<Step>, i: nat, c: nat)
    requires i < |steps| && |ss| == |steps| + 1 && LatchOk(ss, steps, i) && c == PrintAt(steps, i)
    requires Decides(ss, steps, i, c) && PrintAt(steps, i + 1) == c
    requires ss[i + 1].d.latched && ss[i + 1].d.pauseLayer == ShownAt(steps, i).layer
    ensures LatchOk(ss, steps, i + 1)
  {
    var n := i + 1;
    forall x: nat
      ensures DecidedBefore(ss, steps, n, x) <==> DecidedBefore(ss, steps, i, x) || Decides(ss, steps, i, x)
    {
      OneMoreDecided(ss, steps, i, x);
    }
    LayerStays(ss, steps, i, c, None);
  }

  lemma OthersKeepLatch(ss: seq<Sys>, steps: seq<Step>, i: nat)
    requires i < |steps| && |ss| == |steps| + 1 && LatchOk(ss, steps, i)
    requires forall x :: !Decides(ss, steps, i, x)
    requires if ResetsSession(steps[i]) then !ss[i + 1].d.latched && ss[i + 1].d.pauseLayer.None?
             else SameLatch(ss[i].d, ss[i + 1].d)
    ensures LatchOk(ss, steps, i + 1)
  {
    var n := i + 1;
    forall x: nat
      ensures DecidedBefore(ss, steps, n, x) <==> DecidedBefore(ss, steps, i, x)
    {
      OneMoreDecided(ss, steps, i, x);
    }
    LayerStays(ss, steps, i, PrintAt(steps, i), ss[i].d.pauseLayer);
  }

  lemma StepKeepsLatch(ss: seq<Sys>, steps: seq<Step>, i: nat)
    requires Run(ss, steps) && i < |steps| && LatchOk(ss, steps, i)
    ensures LatchOk(ss, steps, i + 1)
  {
    var s, step, c := ss[i], steps[i], PrintAt(steps, i);
    SeenIs(ss, steps, i);
    assert ss[i + 1] == Next(s, step);
    if step.CheckAnswers? {
      AnswerStep(s, step.v, step.now);
      if ss[i + 1].pc.Pausing? {
        DecidingKeepsLatch(ss, steps, i, c);
      } else {
        OthersKeepLatch(ss, steps, i);
      }
    } else {
      LatchStep(s, step);
      OthersKeepLatch(ss, steps, i);
    }
  }

  lemma {:induction false} RunKeepsLatch(ss: seq<Sys>, steps: seq<Step>, i: nat)
    requires Run(ss, steps) && i < |ss|
    ensures LatchOk(ss, steps, i)
  {
    if i > 0 {
      RunKeepsLatch(ss, steps, i - 1);
      StepKeepsLatch(ss, steps, i - 1);
    }
  }

  /**
   An answer decides the pause of the print it was made for if and only if it suggests one, that print is still the
   current one, nothing is turned off, the printer is online and RUNNING by the latest report, and no earlier answer
   decided that print's pause. It then remembers the layer of that report.
   */
  lemma PauseDecidedIff(ss: seq<Sys>, steps: seq<Step>, i: nat)
    requires Run(ss, steps) && i < |steps| && steps[i].CheckAnswers?
    ensures var c := ss[i].pc.counter;
            ss[i + 1].pc ==
            if steps[i].v.pauseSuggested && c == PrintAt(steps, i) && !OffAt(ss[i]) && RunningAt(steps, i)
               && !DecidedBefore(ss, steps, i, c)
            then Pausing(c) else Top
    ensures ss[i + 1].pc.Pausing? ==>
              ss[i + 1].d.pauseState.PausePending? && ss[i + 1].d.pauseLayer == ShownAt(steps, i).layer
  {
    SeenIs(ss, steps, i);
    RunKeepsLatch(ss, steps, i);
    AnswerStep(ss[i], steps[i].v, steps[i].now);
  }

  lemma PausingSince(s: Sys, step: Step)
    requires Enabled(s, step) && !step.CheckAnswers? && Next(s, step).pc.Pausing?
    ensures s.pc == Next(s, step).pc
  {
  }

  /** A pause that waits to be sent was decided by an answer that suggested it. */
  lemma {:induction false} PauseWasSuggested(ss: seq<Sys>, steps: seq<Step>, i: nat) returns (j: nat)
    requires Run(ss, steps) && i < |ss| && ss[i].pc.Pausing?
    ensures j < i && Decides(ss, steps, j, ss[i].pc.counter) && steps[j].v.pauseSuggested
    ensures forall k :: j < k <= i ==> ss[k].pc == ss[i].pc
  {
    if steps[i - 1].CheckAnswers? {
      j := i - 1;
      PauseDecidedIff(ss, steps, j);
    } else {
      PausingSince(ss[i - 1], steps[i - 1]);
      j := PauseWasSuggested(ss, steps, i - 1);
    }
  }

  /** Each pause command sent for a print follows an answer made for that print that suggested it. */
  lemma SentPauseWasSuggested(ss: seq<Sys>, steps: seq<Step>, i: nat)
    requires Run(ss, steps) && i < |steps| && steps[i].SendPause?
    ensures ss[i + 1].log == Then(ss[i].log, PauseSent(ss[i].pc.counter))
    ensures exists j :: 0 <= j < i && Decides(ss, steps, j, ss[i].pc.counter) && steps[j].v.pauseSuggested
              && ss[j].pc == Looking(ss[i].pc.counter)
  {
    var j := PauseWasSuggested(ss, steps, i);
    PauseDecidedIff(ss, steps, j);
    assert ss[i + 1] == Next(ss[i], steps[i]);
    assert Enabled(ss[j], steps[j]);
  }

  // What becomes of a pause.

  /** The printer does not run any more. */
  predicate Confirms(e: Events.Report) { e.cur.gcode != Some(Running) }

  /** It prints above the layer. */
  predicate Overruns(layer: Option<int>, e: Events.Report) {
    e.cur.gcode == Some(Running) && layer.Some? && e.cur.layer.Some? && e.cur.layer.value > layer.value
  }

  /** Step k settles a pause decided at this layer: a report that says so, or the note of its failed command. */
  predicate Word(ss: seq<Sys>, steps: seq<Step>, layer: Option<int>, k: nat)
    requires k < |steps| && |ss| == |steps| + 1
  {
    || (steps[k].Reports? && (Confirms(steps[k].e) || Overruns(layer, steps[k].e)))
    || (steps[k].NotePauseFailure? && ss[k].pc.PauseFailing? && ss[k].pc.counter == PrintAt(steps, k))
  }

  lemma SettleIs(d: Detector)
    requires d.pauseState.PausePending?
    ensures var over := d.pauseLayer.Some? && d.doc.layer.Some? && d.doc.layer.value > d.pauseLayer.value;
            SettlePause(d).pauseState ==
            if d.doc.gcode != Some(Running) then PauseConfirmed else if over then PauseUnconfirmed else PausePending
  {
    StateIs(d.doc.gcode);
  }

  lemma ReportWord(s: Sys, e: Events.Report)
    requires s.d.pauseState.PausePending? && !Resets(e)
    ensures var s' := Next(s, Reports(e));
            && s'.d.pauseState == (if Confirms(e) then PauseConfirmed
                                   else if Overruns(s.d.pauseLayer, e) then PauseUnconfirmed else PausePending)
            && s'.log == (var base := SessionMarks(s.log, e);
                          if Confirms(e) then Then(base, Settles(s.d.counter, Confirmed))
                          else if Overruns(s.d.pauseLayer, e) then Then(base, Settles(s.d.counter, NotConfirmed))
                          else base)
  {
    var shown := Shown(s.d, e);
    assert shown.doc == e.cur && shown.pauseLayer == s.d.pauseLayer && shown.pauseState.PausePending?;
    SettleIs(shown);
  }

  lemma OtherWord(s: Sys, step: Step)
    requires Enabled(s, step) && !step.Reports? && s.d.pauseState.PausePending?
    ensures Next(s, step).d.pauseState ==
            if step.NotePauseFailure? && s.pc.counter == s.d.counter then PauseUnconfirmed else PausePending
  {
    if step.NoCamera? || step.CheckFails? || step.CheckAnswers? {
      CheckSpares(s, step);
    }
  }

  lemma DecidedOnce(ss: seq<Sys>, steps: seq<Step>, j: nat, k: nat, c: nat)
    requires Run(ss, steps) && j < |steps| && k < |steps| && Decides(ss, steps, j, c) && Decides(ss, steps, k, c)
    ensures j == k
  {
    PauseDecidedIff(ss, steps, j);
    PauseDecidedIff(ss, steps, k);
  }

  /** No session begins between the steps. */
  predicate SameSession(steps: seq<Step>, j: nat, i: nat)
    requires i <= |steps|
  {
    forall k :: j < k < i ==> !ResetsSession(steps[k])
  }

  lemma {:induction false} SamePrint(steps: seq<Step>, j: nat, i: nat)
    requires j < i <= |steps| && SameSession(steps, j, i)
    ensures PrintAt(steps, i) == PrintAt(steps, j + 1)
  {
    if j + 1 < i {
      SamePrint(steps, j, i - 1);
    }
  }

  lemma LayerRemembered(ss: seq<Sys>, steps: seq<Step>, j: nat, i: nat, c: nat)
    requires Run(ss, steps) && j < i < |ss| && Decides(ss, steps, j, c) && SameSession(steps, j, i)
    ensures ss[i].d.pauseLayer == ShownAt(steps, j).layer && PrintAt(steps, i) == c
  {
    RunKeepsLatch(ss, steps, i);
    PauseDecidedIff(ss, steps, j);
    SamePrint(steps, j, i);
    assert PrintAt(steps, j + 1) == PrintAt(steps, j) == c;
    assert DecidedBefore(ss, steps, i, c);
    var k :| 0 <= k < i && Decides(ss, steps, k, c) && ss[i].d.pauseLayer == ShownAt(steps, k).layer;
    DecidedOnce(ss, steps, j, k, c);
  }

  predicate NoWord(ss: seq<Sys>, steps: seq<Step>, layer: Option<int>, j: nat, i: nat)
    requires i <= |steps| && |ss| == |steps| + 1
  {
    forall k :: j < k < i ==> !Word(ss, steps, layer, k)
  }

  /** Until a step settles it, a decided pause is pending. */
  lemma {:induction false} PauseStaysPending(ss: seq<Sys>, steps: seq<Step>, j: nat, i: nat, c: nat)
    requires Run(ss, steps) && j < i < |ss| && Decides(ss, steps, j, c) && SameSession(steps, j, i)
    requires NoWord(ss, steps, ShownAt(steps, j).layer, j, i)
    ensures ss[i].d.pauseState.PausePending?
  {
    if i == j + 1 {
      PauseDecidedIff(ss, steps, j);
    } else {
      PauseStaysPending(ss, steps, j, i - 1, c);
      PendingStep(ss, steps, j, i - 1, c);
    }
  }

  /** The step after which a pending pause may be settled. */
  lemma PendingStep(ss: seq<Sys>, steps: seq<Step>, j: nat, k: nat, c: nat)
    requires Run(ss, steps) && j < k < |steps| && Decides(ss, steps, j, c) && SameSession(steps, j, k + 1)
    requires ss[k].d.pauseState.PausePending?
    ensures ss[k + 1].d.pauseState ==
            if !Word(ss, steps, ShownAt(steps, j).layer, k) then PausePending
            else if steps[k].Reports? && Confirms(steps[k].e) then PauseConfirmed
            else PauseUnconfirmed
  {
    LayerRemembered(ss, steps, j, k, c);
    SeenIs(ss, steps, k);
    if steps[k].Reports? {
      ReportWord(ss[k], steps[k].e);
    } else {
      OtherWord(ss[k], steps[k]);
    }
  }

  /**
   The fate of a decided pause within its session. It is pending until the first report of a printer that does not run,
   which confirms it, or of one that prints above the layer shown at the decision, or the note that its command failed,
   either of which leaves it unconfirmed. So it stays for the session.
   */
  lemma PauseFate(ss: seq<Sys>, steps: seq<Step>, j: nat, i: nat, c: nat)
    requires Run(ss, steps) && j < i < |ss| && Decides(ss, steps, j, c) && SameSession(steps, j, i)
    ensures var layer := ShownAt(steps, j).layer;
            && (NoWord(ss, steps, layer, j, i) ==> ss[i].d.pauseState.PausePending?)
            && forall k :: j < k < i && Word(ss, steps, layer, k) && NoWord(ss, steps, layer, j, k) ==>
                 ss[i].d.pauseState ==
                 if steps[k].Reports? && Confirms(steps[k].e) then PauseConfirmed else PauseUnconfirmed
  {
    var layer := ShownAt(steps, j).layer;
    if NoWord(ss, steps, layer, j, i) {
      PauseStaysPending(ss, steps, j, i, c);
    }
    forall k | j < k < i && Word(ss, steps, layer, k) && NoWord(ss, steps, layer, j, k)
      ensures ss[i].d.pauseState ==
        if steps[k].Reports? && Confirms(steps[k].e) then PauseConfirmed else PauseUnconfirmed
    {
      FirstWordSettles(ss, steps, j, k, i, c);
    }
  }

  lemma FirstWordSettles(ss: seq<Sys>, steps: seq<Step>, j: nat, k: nat, i: nat, c: nat)
    requires Run(ss, steps) && j < k < i < |ss| && Decides(ss, steps, j, c) && SameSession(steps, j, i)
    requires var layer := ShownAt(steps, j).layer; Word(ss, steps, layer, k) && NoWord(ss, steps, layer, j, k)
    ensures ss[i].d.pauseState ==
            if steps[k].Reports? && Confirms(steps[k].e) then PauseConfirmed else PauseUnconfirmed
  {
    PauseStaysPending(ss, steps, j, k, c);
    PendingStep(ss, steps, j, k, c);
    PauseSettlesOnce(ss, steps, k + 1, i);
  }

  /** The outcome a report tells the operator is that of the pause it settles. */
  lemma OutcomeTold(ss: seq<Sys>, steps: seq<Step>, j: nat, k: nat, c: nat)
    requires Run(ss, steps) && j < k < |steps| && Decides(ss, steps, j, c) && SameSession(steps, j, k + 1)
    requires steps[k].Reports? && NoWord(ss, steps, ShownAt(steps, j).layer, j, k)
    ensures var base, e := SessionMarks(ss[k].log, steps[k].e), steps[k].e;
            ss[k + 1].log ==
            if Confirms(e) then Then(base, Settles(c, Confirmed))
            else if Overruns(ShownAt(steps, j).layer, e) then Then(base, Settles(c, NotConfirmed))
            else base
  {
    PauseStaysPending(ss, steps, j, k, c);
    LayerRemembered(ss, steps, j, k, c);
    SeenIs(ss, steps, k);
    ReportWord(ss[k], steps[k].e);
  }

  // Lights.

  /** Step j considers the light in its session: the print is the current one, running, and nothing is off. */
  predicate LightDecided(ss: seq<Sys>, steps: seq<Step>, j: nat)
    requires j < |steps| && |ss| == |steps| + 1
  {
    && steps[j].DecideLight? && ss[j].pc.Inspecting? && ss[j].pc.counter == PrintAt(steps, j)
    && !OffAt(ss[j]) && RunningAt(steps, j)
  }

  /** A light was decided in the session and nothing was turned on since. */
  predicate LightSpent(ss: seq<Sys>, steps: seq<Step>, i: nat)
    requires i <= |steps| && |ss| == |steps| + 1
  {
    exists j :: 0 <= j < i && LightDecided(ss, steps, j)
      && forall k :: j < k < i ==> !ResetsSession(steps[k]) && !TurnsOn(steps[k])
  }

  predicate TurnsOn(step: Step) { step.UserToggle? && step.enabled }

  lemma OneMoreLight(ss: seq<Sys>, steps: seq<Step>, i: nat)
    requires i < |steps| && |ss| == |steps| + 1
    ensures LightSpent(ss, steps, i + 1) <==>
            || LightDecided(ss, steps, i)
            || (LightSpent(ss, steps, i) && !ResetsSession(steps[i]) && !TurnsOn(steps[i]))
  {
    if LightDecided(ss, steps, i) {
      assert 0 <= i < i + 1;
    }
    if LightSpent(ss, steps, i) && !ResetsSession(steps[i]) && !TurnsOn(steps[i]) {
      var j :| 0 <= j < i && LightDecided(ss, steps, j)
               && forall k :: j < k < i ==> !ResetsSession(steps[k]) && !TurnsOn(steps[k]);
      assert 0 <= j < i + 1 && LightDecided(ss, steps, j);
    }
  }

  lemma LightStep(s: Sys, step: Step)
    requires Enabled(s, step) && !step.DecideLight?
    ensures Next(s, step).d.lightDone == (s.d.lightDone && !ResetsSession(step) && !TurnsOn(step))
  {
    if step.Reports? {
      LightBySettling(Shown(s.d, step.e));
    } else {
      LightByOthers(s, step);
    }
  }

  lemma LightBySettling(d: Detector)
    ensures SettlePause(d).lightDone == d.lightDone
  {
  }

  lemma LightByOthers(s: Sys, step: Step)
    requires Enabled(s, step) && !step.DecideLight? && !step.Reports?
    ensures Next(s, step).d.lightDone == (s.d.lightDone && !TurnsOn(step))
  {
    if step.NoCamera? || step.CheckFails? || step.CheckAnswers? {
      CheckSpares(s, step);
    }
  }

  lemma {:induction false} LightDoneIff(ss: seq<Sys>, steps: seq<Step>, i: nat)
    requires Run(ss, steps) && i < |ss|
    ensures ss[i].d.lightDone <==> LightSpent(ss, steps, i)
  {
    if i > 0 {
      LightDoneIff(ss, steps, i - 1);
      OneMoreLight(ss, steps, i - 1);
      if steps[i - 1].DecideLight? {
        SeenIs(ss, steps, i - 1);
        DecideStep(ss[i - 1]);
      } else {
        LightStep(ss[i - 1], steps[i - 1]);
      }
    }
  }

  lemma DecideStep(s: Sys)
    requires s.pc.Inspecting?
    ensures var s' := Next(s, DecideLight);
            var may := s.pc.counter == s.d.counter && !Off(s.d) && s.d.online && s.d.doc.gcode == Some(Running);
            && s'.d.lightDone == (s.d.lightDone || may)
            && s'.pc == if may && !s.d.lightDone && s.d.doc.light != Some(LightOn) then Lighting(s.pc.counter)
                        else Looking(s.pc.counter)
  {
    StateIs(s.d.doc.gcode);
  }

  /**
   The light is commanded if and only if the print inspected is the current one, online and RUNNING by the latest
   report, nothing is turned off, the report does not show the light on, and no light was decided in this session since
   the last time detection was turned on.
   */
  lemma LightCommandedIff(ss: seq<Sys>, steps: seq<Step>, i: nat)
    requires Run(ss, steps) && i < |steps| && steps[i].DecideLight?
    ensures var c := ss[i].pc.counter;
            ss[i + 1].pc ==
            if LightDecided(ss, steps, i) && !LightSpent(ss, steps, i) && ShownAt(steps, i).light != Some(LightOn)
            then Lighting(c) else Looking(c)
  {
    SeenIs(ss, steps, i);
    LightDoneIff(ss, steps, i);
    DecideStep(ss[i]);
  }
}
