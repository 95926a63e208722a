/** Which checks a worker makes of a print and what comes of them, told from the reports and the answers. */
module PlateChecks {
  import opened Options
  import opened Doc
  import opened Events
  import opened PlateState
  import opened PlateTheorems

  // What one check does.

  /** The answers call for a stop: a print at its start online before and after, and a verdict in time. */
  predicate CallsForStop(c: CheckInput) {
    && c.online && AtStart(c.doc) && c.laterOnline && AtStart(c.later)
    && c.captured && c.evaluated && c.decision.WouldStop? && !c.expired
  }

  /** The answers call for a pause: a print running online before and after, and a verdict in time. */
  predicate CallsForPause(retry: bool, c: LayerInput) {
    && MayPause(c.doc, c.online, retry) && MayPause(c.later, c.laterOnline, retry)
    && c.captured && c.evaluated && c.decision.PauseDecision? && !c.expired
  }

  /** The answers call for a second look: no pause from a limited view of layer 2. */
  predicate CallsForRetry(c: LayerInput) {
    && MayPause(c.doc, c.online, false) && c.doc.layer == Some(2)
    && c.captured && c.evaluated && !c.decision.PauseDecision? && c.limited
  }

  function Lit(log: Log, looks: bool, doc: View): Log {
    if looks && doc.light == Some(LightOff) then Then(log, LightSent) else log
  }

  /** The stop a check sends: it remembers the layer shown, and whether the print was still in PREPARE. */
  function StopOf(c: CheckInput): Command { Command(c.later.LayerOrZero(), c.later.gcode == Some(Prepare)) }

  /** A check looks only at a print at its start, lights it when it is dark, and stops it exactly when called for. */
  lemma CheckIs(w: Worker, c: CheckInput)
    ensures var lit := w.(log := Lit(w.log, c.online && AtStart(c.doc), c.doc));
            Check(w, c) ==
            if CallsForStop(c) then
              lit.(stopSent := true, pending := Some(StopOf(c)), log := Then(lit.log, StopSent(false)))
            else lit
  {
  }

  lemma CheckLayerIs(w: Worker, retry: bool, c: LayerInput)
    ensures var lit := w.(log := Lit(w.log, MayPause(c.doc, c.online, retry), c.doc));
            CheckLayer(w, retry, c) ==
            if CallsForPause(retry, c) then
              lit.(log := Then(lit.log, PauseSent),
                   layerPending := if c.paused then Some(Command(c.later.LayerOrZero(), false)) else w.layerPending)
            else if !retry && CallsForRetry(c) then lit.(layerRetryAt := Some(c.now + 15_000_000_000))
            else lit
  {
  }

  // The latches of the startup passes.

  datatype Latches = Latches(pass1Done: bool, homingSeen: bool, homingDone: bool, stopSent: bool)

  function LatchesOf(w: Worker): Latches { Latches(w.pass1Done, w.homingSeen, w.homingDone, w.stopSent) }

  lemma ResolveKeepsLatches(w: Worker, e: Report, resendDoc: View)
    ensures LatchesOf(ResolveLayer(ResolveStop(w, e, resendDoc), e)) == LatchesOf(w)
  {
    assert LatchesOf(ResolveStop(w, e, resendDoc)) == LatchesOf(w);
    ResolveLayerIs(ResolveStop(w, e, resendDoc), e);
  }

  lemma LayersKeepLatches(w: Worker, e: Report, on: bool, x: Input)
    ensures LatchesOf(FirstLayer(Retry(w, e, x.now, x.retry), e, on, x.first)) == LatchesOf(w)
  {
    CheckLayerIs(w.(layerRetryAt := None), true, x.retry);
    var w1 := Retry(w, e, x.now, x.retry);
    CheckLayerIs(Note(w1, FirstLayerSeen), false, x.first);
  }

  predicate HomingStage(e: Report) { e.cur.stage in {Some(13), Some(14)} }

  /** RUNNING at layer 0: where the homing check belongs. */
  predicate AtLayerZero(e: Report) { e.cur.gcode == Some(Running) && e.cur.layer == Some(0) }

  /** A layer has been put down, and the count is not a former job's. */
  predicate PastStart(e: Report) {
    e.cur.layer.Some? && e.cur.layer.value > 0 && e.cur.gcode !in {Some(Prepare), Some(Slicing)}
  }

  lemma PrepareLatches(w: Worker, e: Report)
    ensures var l := if e.newJob then Latches(false, false, false, false) else LatchesOf(w);
            var initial := StateInitial in e.kinds;
            LatchesOf(SeeHoming(Attach(Reset(w, e), e), e)) ==
            Latches(l.pass1Done || initial, l.homingSeen || HomingStage(e), l.homingDone || initial, l.stopSent)
  {
  }

  lemma StartupLatches(w: Worker, e: Report, c: CheckInput)
    ensures var runs := Begins(e.kinds) && !w.pass1Done;
            LatchesOf(Startup(w, e, c)) ==
            Latches(w.pass1Done || runs, w.homingSeen, w.homingDone, w.stopSent || (runs && CallsForStop(c)))
  {
    CheckIs(w.(pass1Done := true), c);
  }

  lemma HomingLatches(w: Worker, e: Report, c: CheckInput)
    ensures var open := w.homingSeen && w.pass1Done && !w.homingDone && !w.stopSent;
            LatchesOf(Homing(w, e, c)) ==
            Latches(w.pass1Done, w.homingSeen, w.homingDone || (open && (PastStart(e) || AtLayerZero(e))),
                    w.stopSent || (open && AtLayerZero(e) && CallsForStop(c)))
  {
    CheckIs(w.(homingDone := true), c);
  }

  /** A report that begins a print: its startup check is made, and its homing check when due at once. */
  lemma NewPrintLatches(w: Worker, e: Report, on: bool, x: Input)
    requires !LinkChange(e) && e.newJob && Begins(e.kinds) && StateInitial !in e.kinds
    ensures var stops := CallsForStop(x.startup);
            var open := HomingStage(e) && !stops;
            LatchesOf(Handle(w, e, on, x)) ==
            Latches(true, HomingStage(e), open && (PastStart(e) || AtLayerZero(e)),
                    stops || (open && AtLayerZero(e) && CallsForStop(x.homing)))
  {
    var w1 := ResolveLayer(ResolveStop(w, e, x.resendDoc), e);
    PrepareLatches(w1, e);
    var w2 := SeeHoming(Attach(Reset(w1, e), e), e);
    StartupLatches(w2, e, x.startup);
    HomingLatches(Startup(w2, e, x.startup), e, x.homing);
    LayersKeepLatches(Homing(Startup(w2, e, x.startup), e, x.homing), e, on, x);
  }

  /** A later report of a print: no startup check any more. */
  lemma LaterLatches(w: Worker, e: Report, on: bool, x: Input)
    requires !LinkChange(e) && !e.newJob && w.pass1Done
    ensures var seen := w.homingSeen || HomingStage(e);
            var done := w.homingDone || StateInitial in e.kinds;
            var open := seen && !done && !w.stopSent;
            LatchesOf(Handle(w, e, on, x)) ==
            Latches(true, seen, done || (open && (PastStart(e) || AtLayerZero(e))),
                    w.stopSent || (open && AtLayerZero(e) && CallsForStop(x.homing)))
  {
    ResolveKeepsLatches(w, e, x.resendDoc);
    var w1 := ResolveLayer(ResolveStop(w, e, x.resendDoc), e);
    PrepareLatches(w1, e);
    var w2 := SeeHoming(Attach(Reset(w1, e), e), e);
    StartupLatches(w2, e, x.startup);
    HomingLatches(Startup(w2, e, x.startup), e, x.homing);
    LayersKeepLatches(Homing(Startup(w2, e, x.startup), e, x.homing), e, on, x);
  }

  // Which check stops a print.

  /** A homing stage was reported from report a on and before i. */
  predicate Staged(reports: seq<Report>, a: nat, i: nat)
    requires i <= |reports|
  {
    exists k :: a <= k < i && !LinkChange(reports[k]) && HomingStage(reports[k])
  }

  /** Its state was lost and seen anew. */
  predicate Reattached(reports: seq<Report>, a: nat, i: nat)
    requires i <= |reports|
  {
    exists k :: a <= k < i && !LinkChange(reports[k]) && StateInitial in reports[k].kinds
  }

  /** From the homing stage on, report k is at layer 0 or past the start: the homing check falls here or is forgone. */
  predicate EndsHoming(reports: seq<Report>, a: nat, k: nat)
    requires k < |reports|
  {
    !LinkChange(reports[k]) && Staged(reports, a, k + 1) && (AtLayerZero(reports[k]) || PastStart(reports[k]))
  }

  /** The homing check is due at report k: it is the first that ends homing, and it is at layer 0. */
  predicate HomingDue(reports: seq<Report>, a: nat, k: nat)
    requires k < |reports|
  {
    && EndsHoming(reports, a, k) && AtLayerZero(reports[k]) && !Reattached(reports, a, k + 1)
    && forall j :: a <= j < k ==> !EndsHoming(reports, a, j)
  }

  /** A check of the print begun at report a stops it at report k. */
  predicate CheckStops(reports: seq<Report>, xs: seq<Input>, a: nat, k: nat)
    requires k < |reports| == |xs|
  {
    || (k == a && CallsForStop(xs[k].startup))
    || (HomingDue(reports, a, k) && CallsForStop(xs[k].homing))
  }

  predicate WasStopped(reports: seq<Report>, xs: seq<Input>, a: nat, i: nat)
    requires i <= |reports| == |xs|
  {
    exists k :: a <= k < i && CheckStops(reports, xs, a, k)
  }

  /** The latches of a print begun at report a, read off its reports. */
  ghost predicate LatchesOk(w: Worker, reports: seq<Report>, xs: seq<Input>, a: nat, i: nat)
    requires i <= |reports| == |xs|
  {
    && w.pass1Done && w.homingSeen == Staged(reports, a, i) && w.stopSent == WasStopped(reports, xs, a, i)
    && (!w.stopSent ==>
          w.homingDone == (Reattached(reports, a, i) || exists j :: a <= j < i && EndsHoming(reports, a, j)))
  }

  lemma NewPrintKinds(e: Report)
    requires Genuine(e) && e.newJob && !LinkChange(e)
    ensures Begins(e.kinds) && StateInitial !in e.kinds
  {
    var oldProblems, newProblems :| e.kinds == Transitions(e.prev, e.cur, oldProblems, newProblems);
    NewJobIff(e.prev, e.cur, oldProblems, newProblems);
  }

  lemma FirstLatches(w: Worker, reports: seq<Report>, on: bool, xs: seq<Input>, a: nat)
    requires a < |reports| == |xs| && Genuine(reports[a]) && reports[a].newJob && !LinkChange(reports[a])
    ensures LatchesOk(Handle(w, reports[a], on, xs[a]), reports, xs, a, a + 1)
  {
    var e := reports[a];
    NewPrintKinds(e);
    NewPrintLatches(w, e, on, xs[a]);
    assert Staged(reports, a, a + 1) == HomingStage(e);
    assert !Reattached(reports, a, a + 1);
    assert EndsHoming(reports, a, a) == (HomingStage(e) && (AtLayerZero(e) || PastStart(e)));
    assert HomingDue(reports, a, a) == (HomingStage(e) && AtLayerZero(e));
    assert WasStopped(reports, xs, a, a + 1) == CheckStops(reports, xs, a, a);
  }

  lemma OneMore(reports: seq<Report>, xs: seq<Input>, a: nat, i: nat)
    requires a < i < |reports| == |xs|
    ensures var e := reports[i];
            && Staged(reports, a, i + 1) == (Staged(reports, a, i) || (!LinkChange(e) && HomingStage(e)))
            && Reattached(reports, a, i + 1)
               == (Reattached(reports, a, i) || (!LinkChange(e) && StateInitial in e.kinds))
            && WasStopped(reports, xs, a, i + 1) == (WasStopped(reports, xs, a, i) || CheckStops(reports, xs, a, i))
            && ((exists j :: a <= j < i + 1 && EndsHoming(reports, a, j)) ==
                ((exists j :: a <= j < i && EndsHoming(reports, a, j)) || EndsHoming(reports, a, i)))
  {
    assert Staged(reports, a, i) ==> Staged(reports, a, i + 1);
    assert Reattached(reports, a, i) ==> Reattached(reports, a, i + 1);
    assert WasStopped(reports, xs, a, i) ==> WasStopped(reports, xs, a, i + 1);
  }

  lemma NextLatches(w: Worker, reports: seq<Report>, on: bool, xs: seq<Input>, a: nat, i: nat)
    requires a < i < |reports| == |xs| && LatchesOk(w, reports, xs, a, i) && !reports[i].newJob
    ensures LatchesOk(Handle(w, reports[i], on, xs[i]), reports, xs, a, i + 1)
  {
    var e := reports[i];
    OneMore(reports, xs, a, i);
    if !LinkChange(e) {
      LaterLatches(w, e, on, xs[i]);
    }
  }

  lemma FirstOfPrint(ws: seq<Worker>, reports: seq<Report>, on: bool, xs: seq<Input>, a: nat)
    requires Run(ws, reports, on, xs) && a < |reports| && reports[a].newJob && !LinkChange(reports[a])
    requires Genuine(reports[a])
    ensures LatchesOk(ws[a + 1], reports, xs, a, a + 1)
  {
    FirstLatches(ws[a], reports, on, xs, a);
  }

  lemma NextOfPrint(ws: seq<Worker>, reports: seq<Report>, on: bool, xs: seq<Input>, a: nat, k: nat)
    requires Run(ws, reports, on, xs) && a < k < |reports| && !reports[k].newJob
    ensures LatchesOk(ws[k], reports, xs, a, k) ==> LatchesOk(ws[k + 1], reports, xs, a, k + 1)
  {
    if LatchesOk(ws[k], reports, xs, a, k) {
      NextLatches(ws[k], reports, on, xs, a, k);
    }
  }

  lemma {:induction false} LatchesFollow(ws: seq<Worker>, reports: seq<Report>, xs: seq<Input>, a: nat, i: nat)
    requires a < i <= |reports| == |xs| && |ws| == |reports| + 1 && LatchesOk(ws[a + 1], reports, xs, a, a + 1)
    requires forall k: nat :: a < k < i && LatchesOk(ws[k], reports, xs, a, k) ==>
               LatchesOk(ws[k + 1], reports, xs, a, k + 1)
    ensures LatchesOk(ws[i], reports, xs, a, i)
  {
    if a + 1 < i {
      LatchesFollow(ws, reports, xs, a, i - 1);
    }
  }

  lemma PrintLatches(ws: seq<Worker>, reports: seq<Report>, on: bool, xs: seq<Input>, a: nat, i: nat)
    requires Run(ws, reports, on, xs) && PrintSince(reports, a, i) && Genuine(reports[a])
    ensures LatchesOk(ws[i], reports, xs, a, i)
  {
    FirstOfPrint(ws, reports, on, xs, a);
    forall k: nat | a < k < i && LatchesOk(ws[k], reports, xs, a, k)
      ensures LatchesOk(ws[k + 1], reports, xs, a, k + 1)
    {
      NextOfPrint(ws, reports, on, xs, a, k);
    }
    LatchesFollow(ws, reports, xs, a, i);
  }

  /**
   A print is stopped by a check if and only if the answers to its startup check, made at its first report, call for it,
   or its homing check falls due and the answers to that do.
   */
  lemma StoppedIff(ws: seq<Worker>, reports: seq<Report>, on: bool, xs: seq<Input>, a: nat, i: nat)
    requires Run(ws, reports, on, xs) && PrintSince(reports, a, i) && Genuine(reports[a])
    ensures Count(ws[i].log).checks == if WasStopped(reports, xs, a, i) then 1 else 0
  {
    PrintLatches(ws, reports, on, xs, a, i);
    RunStops(ws, reports, on, xs, i);
  }

  // Which first-layer checks are made, and which of them pause.

  const DELAY: int := 15_000_000_000

  predicate AtSecondLayer(e: Report) { e.cur.gcode == Some(Running) && e.cur.layer == Some(2) }

  function Pauses(w: Worker): nat { Count(w.log).pauses }

  lemma LitPauses(log: Log, looks: bool, doc: View)
    ensures Count(Lit(log, looks, doc)) == Count(log)
  {
  }

  lemma CheckLayerPauses(w: Worker, retry: bool, c: LayerInput)
    ensures var w' := CheckLayer(w, retry, c);
            && Pauses(w') == Pauses(w) + One(CallsForPause(retry, c))
            && w'.layerRetryAt == (if !retry && CallsForRetry(c) then Some(c.now + DELAY) else w.layerRetryAt)
            && w'.stopSent == w.stopSent
  {
    CheckLayerIs(w, retry, c);
    LitPauses(w.log, MayPause(c.doc, c.online, retry), c.doc);
  }

  lemma RetryPauses(w: Worker, e: Report, now: int, c: LayerInput)
    ensures var w' := Retry(w, e, now, c);
            var due := w.layerRetryAt.Some? && AtSecondLayer(e) && now >= w.layerRetryAt.value;
            && Pauses(w') == Pauses(w) + One(due && CallsForPause(true, c))
            && w'.layerRetryAt == (if AtSecondLayer(e) && !due then w.layerRetryAt else None)
            && w'.stopSent == w.stopSent
  {
    CheckLayerPauses(w.(layerRetryAt := None), true, c);
  }

  lemma FirstLayerPauses(w: Worker, e: Report, on: bool, c: LayerInput)
    ensures var w' := FirstLayer(w, e, on, c);
            var made := FirstLayerComplete in e.kinds && on && !w.stopSent;
            && Pauses(w') == Pauses(w) + One(made && CallsForPause(false, c))
            && w'.layerRetryAt == (if made && CallsForRetry(c) then Some(c.now + DELAY) else w.layerRetryAt)
            && w'.stopSent == w.stopSent
  {
    CheckLayerPauses(Note(w, FirstLayerSeen), false, c);
  }

  lemma BothPause(w: Worker, e: Report, on: bool, x: Input)
    ensures var w' := FirstLayer(Retry(w, e, x.now, x.retry), e, on, x.first);
            var due := w.layerRetryAt.Some? && AtSecondLayer(e) && x.now >= w.layerRetryAt.value;
            var made := FirstLayerComplete in e.kinds && on && !w'.stopSent;
            && Pauses(w') == Pauses(w) + One(due && CallsForPause(true, x.retry))
                             + One(made && CallsForPause(false, x.first))
            && w'.layerRetryAt == if made && CallsForRetry(x.first) then Some(x.first.now + DELAY)
                                  else if AtSecondLayer(e) && !due then w.layerRetryAt else None
  {
    RetryPauses(w, e, x.now, x.retry);
    FirstLayerPauses(Retry(w, e, x.now, x.retry), e, on, x.first);
  }

  predicate SameLayers(w: Worker, w': Worker) {
    Pauses(w') == Pauses(w) && w'.layerRetryAt == w.layerRetryAt
  }

  lemma ResolveKeepsPauses(w: Worker, e: Report, resendDoc: View)
    ensures SameLayers(w, ResolveLayer(ResolveStop(w, e, resendDoc), e))
  {
    ResolveIs(w, e, resendDoc);
    var w1 := ResolveStop(w, e, resendDoc);
    assert SameLayers(w, w1);
    ResolveLayerIs(w1, e);
    assert SameLayers(w1, ResolveLayer(w1, e));
  }

  lemma PrepareLayers(w: Worker, e: Report)
    ensures var w' := SeeHoming(Attach(Reset(w, e), e), e);
            if e.newJob then Pauses(w') == 0 && w'.layerRetryAt.None? else SameLayers(w, w')
  {
    var w1 := Reset(w, e);
    assert if e.newJob then Pauses(w1) == 0 && w1.layerRetryAt.None? else w1 == w;
    assert SameLayers(w1, Attach(w1, e));
  }

  lemma CheckKeepsPauses(w: Worker, c: CheckInput)
    ensures SameLayers(w, Check(w, c))
  {
    CheckIs(w, c);
    LitPauses(w.log, c.online && AtStart(c.doc), c.doc);
  }

  lemma PassesKeepPauses(w: Worker, e: Report, startup: CheckInput, homing: CheckInput)
    ensures SameLayers(w, Homing(Startup(w, e, startup), e, homing))
  {
    CheckKeepsPauses(w.(pass1Done := true), startup);
    CheckKeepsPauses(Startup(w, e, startup).(homingDone := true), homing);
  }

  /** The first-layer check and the retry of one report: when they are made, and what they leave. */
  lemma ReportPauses(w: Worker, e: Report, on: bool, x: Input)
    requires !LinkChange(e)
    ensures var w' := Handle(w, e, on, x);
            var armed := if e.newJob then None else w.layerRetryAt;
            var due := armed.Some? && AtSecondLayer(e) && x.now >= armed.value;
            var made := FirstLayerComplete in e.kinds && on && !w'.stopSent;
            && Pauses(w') == (if e.newJob then 0 else Pauses(w)) + One(due && CallsForPause(true, x.retry))
                             + One(made && CallsForPause(false, x.first))
            && w'.layerRetryAt == if made && CallsForRetry(x.first) then Some(x.first.now + DELAY)
                                  else if AtSecondLayer(e) && !due then armed else None
  {
    ResolveKeepsPauses(w, e, x.resendDoc);
    var w1 := ResolveLayer(ResolveStop(w, e, x.resendDoc), e);
    PrepareLayers(w1, e);
    var w2 := SeeHoming(Attach(Reset(w1, e), e), e);
    PassesKeepPauses(w2, e, x.startup, x.homing);
    var w3 := Homing(Startup(w2, e, x.startup), e, x.homing);
    assert if e.newJob then Pauses(w3) == 0 && w3.layerRetryAt.None? else SameLayers(w, w3);
    BothPause(w3, e, on, x);
    assert Handle(w, e, on, x) == FirstLayer(Retry(w3, e, x.now, x.retry), e, on, x.first);
  }

  /** The first-layer check is made at report k: a first layer completes in a print no check has stopped. */
  predicate FirstCheck(reports: seq<Report>, xs: seq<Input>, on: bool, a: nat, k: nat)
    requires k < |reports| == |xs|
  {
    !LinkChange(reports[k]) && FirstLayerComplete in reports[k].kinds && on && !WasStopped(reports, xs, a, k + 1)
  }

  predicate Arms(reports: seq<Report>, xs: seq<Input>, on: bool, a: nat, k: nat)
    requires k < |reports| == |xs|
  {
    FirstCheck(reports, xs, on, a, k) && CallsForRetry(xs[k].first)
  }

  /** The retry armed at report m still waits after report j. */
  predicate Waits(reports: seq<Report>, xs: seq<Input>, on: bool, a: nat, m: nat, j: nat)
    requires m < |reports| == |xs| && j < |reports|
  {
    LinkChange(reports[j])
    || (AtSecondLayer(reports[j]) && xs[j].now < xs[m].first.now + DELAY && !Arms(reports, xs, on, a, j))
  }

  predicate Armed(reports: seq<Report>, xs: seq<Input>, on: bool, a: nat, m: nat, i: nat)
    requires i <= |reports| == |xs|
  {
    a <= m < i && Arms(reports, xs, on, a, m) && forall j :: m < j < i ==> Waits(reports, xs, on, a, m, j)
  }

  /** A retry armed earlier and waiting since is made at report k. */
  predicate RetryDue(reports: seq<Report>, xs: seq<Input>, on: bool, a: nat, k: nat)
    requires k < |reports| == |xs|
  {
    && !LinkChange(reports[k]) && AtSecondLayer(reports[k])
    && exists m :: 0 <= m < k && Armed(reports, xs, on, a, m, k) && xs[k].now >= xs[m].first.now + DELAY
  }

  /** The pauses sent at report k. */
  function PausesAt(reports: seq<Report>, xs: seq<Input>, on: bool, a: nat, k: nat): nat
    requires k < |reports| == |xs|
  {
    One(RetryDue(reports, xs, on, a, k) && CallsForPause(true, xs[k].retry))
    + One(FirstCheck(reports, xs, on, a, k) && CallsForPause(false, xs[k].first))
  }

  function PausesSince(reports: seq<Report>, xs: seq<Input>, on: bool, a: nat, i: nat): nat
    requires i <= |reports| == |xs|
  {
    if i <= a then 0 else PausesSince(reports, xs, on, a, i - 1) + PausesAt(reports, xs, on, a, i - 1)
  }

  /** The retry a worker has armed, read off the reports and answers of its print. */
  ghost predicate ArmedOk(retryAt: Option<int>, reports: seq<Report>, xs: seq<Input>, on: bool, a: nat, i: nat)
    requires i <= |reports| == |xs|
  {
    && (retryAt.Some? <==> exists m :: 0 <= m < i && Armed(reports, xs, on, a, m, i))
    && (forall m :: 0 <= m < i && Armed(reports, xs, on, a, m, i) ==> retryAt == Some(xs[m].first.now + DELAY))
  }

  lemma OneMoreArmed(reports: seq<Report>, xs: seq<Input>, on: bool, a: nat, i: nat, m: nat)
    requires a <= i < |reports| == |xs|
    ensures Armed(reports, xs, on, a, m, i + 1) <==>
            || (m == i && Arms(reports, xs, on, a, i))
            || (Armed(reports, xs, on, a, m, i) && Waits(reports, xs, on, a, m, i))
  {
  }

  lemma ArmedFollows(was: Option<int>, next: Option<int>, reports: seq<Report>, xs: seq<Input>, on: bool,
                     a: nat, i: nat)
    requires a <= i < |reports| == |xs| && ArmedOk(was, reports, xs, on, a, i) && !LinkChange(reports[i])
    requires next == if Arms(reports, xs, on, a, i) then Some(xs[i].first.now + DELAY)
                   else if AtSecondLayer(reports[i]) && !(was.Some? && xs[i].now >= was.value) then was
                   else None
    ensures ArmedOk(next, reports, xs, on, a, i + 1)
  {
    var n := i + 1;
    forall m: nat
      ensures Armed(reports, xs, on, a, m, n) <==>
        || (m == i && Arms(reports, xs, on, a, i))
        || (Armed(reports, xs, on, a, m, i) && Waits(reports, xs, on, a, m, i))
    {
      OneMoreArmed(reports, xs, on, a, i, m);
    }
    forall m: nat | m < i && Armed(reports, xs, on, a, m, i)
      ensures Waits(reports, xs, on, a, m, i) <==>
        AtSecondLayer(reports[i]) && xs[i].now < was.value && !Arms(reports, xs, on, a, i)
    {
    }
    if Arms(reports, xs, on, a, i) {
      assert Armed(reports, xs, on, a, i, n);
    } else if next.Some? {
      var m :| 0 <= m < i && Armed(reports, xs, on, a, m, i);
      assert Armed(reports, xs, on, a, m, n);
    }
  }

  lemma RetryIsDue(was: Option<int>, reports: seq<Report>, xs: seq<Input>, on: bool, a: nat, i: nat)
    requires i < |reports| == |xs| && ArmedOk(was, reports, xs, on, a, i) && !LinkChange(reports[i])
    ensures RetryDue(reports, xs, on, a, i) <==>
              AtSecondLayer(reports[i]) && was.Some? && xs[i].now >= was.value
  {
  }

  /** The armed retry and the pauses of a print begun at report a. */
  ghost predicate PausesOk(w: Worker, reports: seq<Report>, xs: seq<Input>, on: bool, a: nat, i: nat)
    requires i <= |reports| == |xs|
  {
    ArmedOk(w.layerRetryAt, reports, xs, on, a, i) && Pauses(w) == PausesSince(reports, xs, on, a, i)
  }

  lemma ReportFollows(w: Worker, reports: seq<Report>, on: bool, xs: seq<Input>, a: nat, i: nat)
    requires a <= i < |reports| == |xs| && reports[i].newJob == (i == a) && !LinkChange(reports[i])
    requires a < i ==> PausesOk(w, reports, xs, on, a, i)
    requires Handle(w, reports[i], on, xs[i]).stopSent == WasStopped(reports, xs, a, i + 1)
    ensures PausesOk(Handle(w, reports[i], on, xs[i]), reports, xs, on, a, i + 1)
  {
    var was := if i == a then None else w.layerRetryAt;
    var w' := Handle(w, reports[i], on, xs[i]);
    assert ArmedOk(was, reports, xs, on, a, i);
    ReportPauses(w, reports[i], on, xs[i]);
    ArmedFollows(was, w'.layerRetryAt, reports, xs, on, a, i);
    RetryIsDue(was, reports, xs, on, a, i);
    assert PausesSince(reports, xs, on, a, i + 1)
           == PausesSince(reports, xs, on, a, i) + PausesAt(reports, xs, on, a, i);
  }

  lemma LinkFollows(w: Worker, reports: seq<Report>, on: bool, xs: seq<Input>, a: nat, i: nat)
    requires a < i < |reports| == |xs| && PausesOk(w, reports, xs, on, a, i) && LinkChange(reports[i])
    ensures PausesOk(Handle(w, reports[i], on, xs[i]), reports, xs, on, a, i + 1)
  {
    var n := i + 1;
    forall m: nat
      ensures Armed(reports, xs, on, a, m, n) <==> Armed(reports, xs, on, a, m, i)
    {
      OneMoreArmed(reports, xs, on, a, i, m);
    }
    assert PausesAt(reports, xs, on, a, i) == 0;
  }

  lemma PausesFollow(ws: seq<Worker>, reports: seq<Report>, on: bool, xs: seq<Input>, a: nat, i: nat)
    requires Run(ws, reports, on, xs) && PrintSince(reports, a, i + 1) && Genuine(reports[a])
    requires a < i ==> PausesOk(ws[i], reports, xs, on, a, i)
    ensures PausesOk(ws[i + 1], reports, xs, on, a, i + 1)
  {
    PrintLatches(ws, reports, on, xs, a, i + 1);
    if LinkChange(reports[i]) {
      LinkFollows(ws[i], reports, on, xs, a, i);
    } else {
      ReportFollows(ws[i], reports, on, xs, a, i);
    }
  }

  /**
   The first-layer pauses of a print are exactly those its reports and answers call for: at each first layer that
   completes in a print no check has stopped, and at the one retry an unclear answer there has armed, made by the first
   report after fifteen seconds while the print stays at layer 2.
   */
  lemma {:induction false} PausedIff(ws: seq<Worker>, reports: seq<Report>, on: bool, xs: seq<Input>, a: nat, i: nat)
    requires Run(ws, reports, on, xs) && PrintSince(reports, a, i) && Genuine(reports[a])
    ensures PausesOk(ws[i], reports, xs, on, a, i)
    ensures Count(ws[i].log).pauses == PausesSince(reports, xs, on, a, i)
  {
    if a < i - 1 {
      PausedIff(ws, reports, on, xs, a, i - 1);
    }
    PausesFollow(ws, reports, on, xs, a, i - 1);
  }
}
