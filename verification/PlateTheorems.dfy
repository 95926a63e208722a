/** What the plate-check worker guarantees over every run of reports and every answer it meets. */
module PlateTheorems {
  import opened Options
  import opened Doc
  import opened Events
  import opened EventChain
  import opened PlateState

  /** How often each act occurs since the latest new print. */
  datatype Tally = Tally(
    checks: nat, resends: nat, stopped: nat, unconfirmed: nat,
    layers: nat, pauses: nat, pausesConfirmed: nat, pausesUnconfirmed: nat)

  const Zero := Tally(0, 0, 0, 0, 0, 0, 0, 0)

  function Bump(t: Tally, a: Act): Tally {
    match a
    case NewPrint => Zero
    case Attached => t
    case LightSent => t
    case FirstLayerSeen => t.(layers := t.layers + 1)
    case StopSent(resend) => if resend then t.(resends := t.resends + 1) else t.(checks := t.checks + 1)
    case Stopped => t.(stopped := t.stopped + 1)
    case StopUnconfirmed => t.(unconfirmed := t.unconfirmed + 1)
    case PauseSent => t.(pauses := t.pauses + 1)
    case PauseConfirmed => t.(pausesConfirmed := t.pausesConfirmed + 1)
    case PauseUnconfirmed => t.(pausesUnconfirmed := t.pausesUnconfirmed + 1)
  }

  function Count(log: Log): Tally {
    match log
    case Nothing => Zero
    case Then(before, a) => Bump(Count(before), a)
  }

  /** The current print was seen to begin: a new print is more recent than the latest attach. */
  predicate Observed(log: Log) {
    match log
    case Nothing => false
    case Then(before, a) => a.NewPrint? || (!a.Attached? && Observed(before))
  }

  function One(b: bool): nat { if b then 1 else 0 }

  /** Stops, resends and outcomes of the current print account for each other. */
  predicate StopsOk(w: Worker, t: Tally) {
    && t.checks == One(w.stopSent)
    && t.resends + One(w.pending.Some? && w.pending.value.prepare) <= t.checks
    && t.stopped + t.unconfirmed + One(w.pending.Some?) == t.checks
    && (w.stopSent ==> w.pass1Done)
  }

  /** First-layer pauses and an armed retry are covered by completions of a first layer. */
  predicate LayersOk(w: Worker, t: Tally) {
    && t.pauses + One(w.layerRetryAt.Some?) <= t.layers
    && t.pausesConfirmed + t.pausesUnconfirmed + One(w.layerPending.Some?) <= t.pauses
  }

  ghost predicate Stops(w: Worker) {
    StopsOk(w, Count(w.log))
  }

  ghost predicate Layers(w: Worker) {
    LayersOk(w, Count(w.log))
  }

  // Each stage of the handling keeps the account of stops.

  lemma LightKeepsStops(w: Worker, doc: View)
    requires Stops(w)
    ensures Stops(LightUp(w, doc))
  {
  }

  lemma CheckKeepsStops(w: Worker, c: CheckInput)
    requires Stops(w) && !w.stopSent && w.pass1Done
    ensures Stops(Check(w, c))
  {
    LightKeepsStops(w, c.doc);
  }

  lemma CheckLayerKeepsStops(w: Worker, retry: bool, c: LayerInput)
    requires Stops(w)
    ensures Stops(CheckLayer(w, retry, c))
  {
    LightKeepsStops(w, c.doc);
  }

  lemma ResolveKeepsStops(w: Worker, e: Report, resendDoc: View)
    requires Stops(w)
    ensures Stops(ResolveStop(w, e, resendDoc))
  {
  }

  /** Settling a first-layer pause is noted, and nothing else. */
  lemma ResolveLayerIs(w: Worker, e: Report)
    ensures var w' := ResolveLayer(w, e);
            || w' == w
            || (w.layerPending.Some?
                && (|| w' == Note(w.(layerPending := None), PauseConfirmed)
                    || w' == Note(w.(layerPending := None), PauseUnconfirmed)))
  {
  }

  lemma PauseActsAside(w: Worker, a: Act)
    requires Stops(w) && (a.PauseConfirmed? || a.PauseUnconfirmed?)
    ensures Stops(Note(w.(layerPending := None), a))
  {
  }

  lemma ResolveLayerKeepsStops(w: Worker, e: Report)
    requires Stops(w)
    ensures Stops(ResolveLayer(w, e))
  {
    ResolveLayerIs(w, e);
    PauseActsAside(w, PauseConfirmed);
    PauseActsAside(w, PauseUnconfirmed);
  }

  lemma PrepareKeepsStops(w: Worker, e: Report)
    requires Stops(w)
    ensures Stops(SeeHoming(Attach(Reset(w, e), e), e))
  {
  }

  lemma PassesKeepStops(w: Worker, e: Report, startup: CheckInput, homing: CheckInput)
    requires Stops(w)
    ensures Stops(Homing(Startup(w, e, startup), e, homing))
  {
    if Begins(e.kinds) && !w.pass1Done {
      CheckKeepsStops(w.(pass1Done := true), startup);
    }
    var w1 := Startup(w, e, startup);
    if w1.pass1Done && !w1.stopSent {
      CheckKeepsStops(w1.(homingDone := true), homing);
    }
  }

  lemma RetryKeepsStops(w: Worker, e: Report, now: int, c: LayerInput)
    requires Stops(w)
    ensures Stops(Retry(w, e, now, c))
  {
    CheckLayerKeepsStops(w.(layerRetryAt := None), true, c);
  }

  lemma FirstLayerKeepsStops(w: Worker, e: Report, on: bool, c: LayerInput)
    requires Stops(w)
    ensures Stops(FirstLayer(w, e, on, c))
  {
    CheckLayerKeepsStops(Note(w, FirstLayerSeen), false, c);
  }

  lemma HandleKeepsStops(w: Worker, e: Report, on: bool, x: Input)
    requires Stops(w)
    ensures Stops(Handle(w, e, on, x))
  {
    ResolveKeepsStops(w, e, x.resendDoc);
    ResolveLayerKeepsStops(ResolveStop(w, e, x.resendDoc), e);
    var w1 := ResolveLayer(ResolveStop(w, e, x.resendDoc), e);
    PrepareKeepsStops(w1, e);
    var w2 := SeeHoming(Attach(Reset(w1, e), e), e);
    PassesKeepStops(w2, e, x.startup, x.homing);
    var w3 := Homing(Startup(w2, e, x.startup), e, x.homing);
    RetryKeepsStops(w3, e, x.now, x.retry);
    FirstLayerKeepsStops(Retry(w3, e, x.now, x.retry), e, on, x.first);
  }

  // And the account of first-layer pauses.

  lemma LightKeepsLayers(w: Worker, doc: View)
    requires Layers(w)
    ensures Layers(LightUp(w, doc))
    ensures Count(LightUp(w, doc).log) == Count(w.log)
  {
  }

  lemma CheckKeepsLayers(w: Worker, c: CheckInput)
    requires Layers(w)
    ensures Layers(Check(w, c))
  {
    LightKeepsLayers(w, c.doc);
  }

  /** A layer check may use up one spare completion, by a pause or by arming the retry. */
  lemma CheckLayerKeepsLayers(w: Worker, retry: bool, c: LayerInput)
    requires Layers(w) && Count(w.log).pauses + One(w.layerRetryAt.Some?) < Count(w.log).layers
    ensures Layers(CheckLayer(w, retry, c))
  {
    LightKeepsLayers(w, c.doc);
  }

  predicate AboutStops(a: Act) { a.StopSent? || a.Stopped? || a.StopUnconfirmed? }

  lemma StopActsAside(w: Worker, a: Act, pending: Option<Command>)
    requires Layers(w) && AboutStops(a)
    ensures Layers(Note(w.(pending := pending), a))
  {
  }

  lemma ResolveIs(w: Worker, e: Report, resendDoc: View)
    ensures var w' := ResolveStop(w, e, resendDoc);
            w' == w || (w'.log.Then? && AboutStops(w'.log.last) && w' == Note(w.(pending := w'.pending), w'.log.last))
  {
  }

  lemma ResolveKeepsLayers(w: Worker, e: Report, resendDoc: View)
    requires Layers(w)
    ensures Layers(ResolveStop(w, e, resendDoc))
  {
    ResolveIs(w, e, resendDoc);
    var w' := ResolveStop(w, e, resendDoc);
    if w' != w {
      StopActsAside(w, w'.log.last, w'.pending);
    }
  }

  lemma PauseOutcomeCounts(w: Worker, a: Act)
    requires Layers(w) && w.layerPending.Some? && (a.PauseConfirmed? || a.PauseUnconfirmed?)
    ensures Layers(Note(w.(layerPending := None), a))
  {
  }

  lemma ResolveLayerKeepsLayers(w: Worker, e: Report)
    requires Layers(w)
    ensures Layers(ResolveLayer(w, e))
  {
    ResolveLayerIs(w, e);
    if w.layerPending.Some? {
      PauseOutcomeCounts(w, PauseConfirmed);
      PauseOutcomeCounts(w, PauseUnconfirmed);
    }
  }

  lemma PrepareKeepsLayers(w: Worker, e: Report)
    requires Layers(w)
    ensures Layers(SeeHoming(Attach(Reset(w, e), e), e))
  {
  }

  lemma PassesKeepLayers(w: Worker, e: Report, startup: CheckInput, homing: CheckInput)
    requires Layers(w)
    ensures Layers(Homing(Startup(w, e, startup), e, homing))
  {
    CheckKeepsLayers(w.(pass1Done := true), startup);
    var w1 := Startup(w, e, startup);
    CheckKeepsLayers(w1.(homingDone := true), homing);
  }

  lemma RetryKeepsLayers(w: Worker, e: Report, now: int, c: LayerInput)
    requires Layers(w)
    ensures Layers(Retry(w, e, now, c))
  {
    if w.layerRetryAt.Some? {
      CheckLayerKeepsLayers(w.(layerRetryAt := None), true, c);
    }
  }

  lemma FirstLayerKeepsLayers(w: Worker, e: Report, on: bool, c: LayerInput)
    requires Layers(w)
    ensures Layers(FirstLayer(w, e, on, c))
  {
    CheckLayerKeepsLayers(Note(w, FirstLayerSeen), false, c);
  }

  lemma HandleKeepsLayers(w: Worker, e: Report, on: bool, x: Input)
    requires Layers(w)
    ensures Layers(Handle(w, e, on, x))
  {
    ResolveKeepsLayers(w, e, x.resendDoc);
    ResolveLayerKeepsLayers(ResolveStop(w, e, x.resendDoc), e);
    var w1 := ResolveLayer(ResolveStop(w, e, x.resendDoc), e);
    PrepareKeepsLayers(w1, e);
    var w2 := SeeHoming(Attach(Reset(w1, e), e), e);
    PassesKeepLayers(w2, e, x.startup, x.homing);
    var w3 := Homing(Startup(w2, e, x.startup), e, x.homing);
    RetryKeepsLayers(w3, e, x.now, x.retry);
    FirstLayerKeepsLayers(Retry(w3, e, x.now, x.retry), e, on, x.first);
  }

  /** ws is the worker's history over the events, whatever it was answered. */
  ghost predicate Run(ws: seq<Worker>, evs: seq<Report>, on: bool, xs: seq<Input>) {
    && |ws| == |evs| + 1 == |xs| + 1 && ws[0] == Fresh
    && forall i :: 0 <= i < |evs| ==> ws[i + 1] == Handle(ws[i], evs[i], on, xs[i])
  }

  lemma {:induction false} RunStops(ws: seq<Worker>, evs: seq<Report>, on: bool, xs: seq<Input>, i: nat)
    requires Run(ws, evs, on, xs) && i < |ws|
    ensures Stops(ws[i])
  {
    if i > 0 {
      RunStops(ws, evs, on, xs, i - 1);
      HandleKeepsStops(ws[i - 1], evs[i - 1], on, xs[i - 1]);
    }
  }

  lemma {:induction false} RunLayers(ws: seq<Worker>, evs: seq<Report>, on: bool, xs: seq<Input>, i: nat)
    requires Run(ws, evs, on, xs) && i < |ws|
    ensures Layers(ws[i])
  {
    if i > 0 {
      RunLayers(ws, evs, on, xs, i - 1);
      HandleKeepsLayers(ws[i - 1], evs[i - 1], on, xs[i - 1]);
    }
  }

  /**
   Between two new prints at most two stops are sent: one by a check and at most one repetition of it.
   Each check's stop is still pending or has exactly one outcome.
   */
  lemma AtMostTwoStops(ws: seq<Worker>, evs: seq<Report>, on: bool, xs: seq<Input>, i: nat)
    requires Run(ws, evs, on, xs) && i < |ws|
    ensures var t := Count(ws[i].log);
            && t.resends <= t.checks <= 1
            && t.stopped + t.unconfirmed + One(ws[i].pending.Some?) == t.checks
  {
    RunStops(ws, evs, on, xs, i);
  }

  /** First-layer pauses of a print, with an armed retry, never exceed its completed first layers. */
  lemma PausesCovered(ws: seq<Worker>, evs: seq<Report>, on: bool, xs: seq<Input>, i: nat)
    requires Run(ws, evs, on, xs) && i < |ws|
    ensures Count(ws[i].log).pauses + One(ws[i].layerRetryAt.Some?) <= Count(ws[i].log).layers
  {
    RunLayers(ws, evs, on, xs, i);
  }

  // When a command may be sent.

  /** A print that has not put down a first layer: preparing, or running at a reported layer of 0 or less. */
  predicate AtStart(doc: View) {
    Preparing(doc.State()) || (doc.State().Running? && doc.layer.Some? && doc.layer.value <= 0)
  }

  /** A check sends its stop exactly when the printer was online with a print at its start before and after it. */
  lemma StopsIff(w: Worker, c: CheckInput)
    ensures Check(w, c).log == Then(LightUp(w, c.doc).log, StopSent(false))
            <==> c.online && AtStart(c.doc) && c.laterOnline && AtStart(c.later)
                 && c.captured && c.evaluated && c.decision.WouldStop? && !c.expired
    ensures Check(w, c).log in {w.log, LightUp(w, c.doc).log, Then(LightUp(w, c.doc).log, StopSent(false))}
  {
    LogsDiffer(w.log, LightUp(w, c.doc).log);
  }

  function Length(log: Log): nat {
    match log
    case Nothing => 0
    case Then(before, _) => Length(before) + 1
  }

  lemma LogsDiffer(log: Log, longer: Log)
    requires longer == log || longer == Then(log, LightSent)
    ensures forall a :: Then(longer, a) != log && Then(longer, a) != longer
  {
    assert forall a :: Length(Then(longer, a)) == Length(longer) + 1 && Length(longer) >= Length(log);
  }

  predicate MayPause(doc: View, online: bool, retry: bool) {
    online && doc.State().Running? && (retry ==> doc.layer == Some(2))
  }

  /** A first-layer check pauses exactly when the print was running before and after it, a retry only at layer 2. */
  lemma PausesIff(w: Worker, retry: bool, c: LayerInput)
    ensures CheckLayer(w, retry, c).log == Then(LightUp(w, c.doc).log, PauseSent)
            <==> MayPause(c.doc, c.online, retry) && MayPause(c.later, c.laterOnline, retry)
                 && c.captured && c.evaluated && c.decision.PauseDecision? && !c.expired
    ensures CheckLayer(w, retry, c).log in {w.log, LightUp(w, c.doc).log, Then(LightUp(w, c.doc).log, PauseSent)}
  {
    LogsDiffer(w.log, LightUp(w, c.doc).log);
  }

  // Which prints may be stopped at all.

  /**
   Every check's stop was sent on a print seen to begin, and every repetition follows such a stop on the same
   print.
   */
  predicate Issued(log: Log) {
    match log
    case Nothing => true
    case Then(before, a) =>
      && Issued(before)
      && (a == StopSent(false) ==> Observed(before))
      && (a == StopSent(true) ==> Count(before).checks > 0)
  }

  /** On a print not seen to begin, no check is left, and before the first state none was ever due. */
  predicate Wary(w: Worker, shown: View) {
    !Observed(w.log) ==> if w.pass1Done then w.homingDone else shown.gcode.None?
  }

  predicate Careful(w: Worker, shown: View) {
    Issued(w.log) && Wary(w, shown)
  }

  /** A report as the store derives it from two consecutive documents. */
  ghost predicate Genuine(e: Report) {
    || Connected in e.kinds || Disconnected in e.kinds
    || (&& e.newJob == NewJob(e.prev, e.cur)
        && exists oldProblems, newProblems :: e.kinds == Transitions(e.prev, e.cur, oldProblems, newProblems))
  }

  lemma GenuineKinds(e: Report)
    requires Genuine(e) && !LinkChange(e)
    ensures StateInitial in e.kinds <==> e.prev.gcode.None? && e.cur.gcode.Some?
    ensures Begins(e.kinds) ==> e.prev.gcode.Some?
  {
    var oldProblems, newProblems :| e.kinds == Transitions(e.prev, e.cur, oldProblems, newProblems);
    var kinds := Transitions(e.prev, e.cur, oldProblems, newProblems);
    assert e.kinds == kinds;
    assert StateInitial in kinds <==> e.prev.gcode.None? && e.cur.gcode.Some? by {
      InitialKind(e.prev, e.cur, oldProblems, newProblems);
    }
    assert PrintPreparing in kinds ==> e.prev.gcode.Some? by {
      PreparingKind(e.prev, e.cur, oldProblems, newProblems);
    }
    assert PrintStarted in kinds ==> e.prev.gcode.Some? by {
      StartedKind(e.prev, e.cur, oldProblems, newProblems);
    }
  }

  lemma ResolveIsCareful(w: Worker, e: Report, resendDoc: View, shown: View)
    requires Careful(w, shown) && Stops(w)
    ensures Careful(ResolveStop(w, e, resendDoc), shown)
  {
  }

  lemma ResolveLayerIsCareful(w: Worker, e: Report, shown: View)
    requires Careful(w, shown)
    ensures Careful(ResolveLayer(w, e), shown)
  {
  }

  lemma PrepareIsCareful(w: Worker, e: Report)
    requires Careful(w, e.prev) && Genuine(e) && Connected !in e.kinds && Disconnected !in e.kinds
    ensures var w' := SeeHoming(Attach(Reset(w, e), e), e);
            Careful(w', e.cur) && (Begins(e.kinds) && !w'.pass1Done ==> Observed(w'.log))
  {
    GenuineKinds(e);
  }

  lemma CheckIsCareful(w: Worker, c: CheckInput, shown: View)
    requires Issued(w.log) && Observed(w.log)
    ensures Careful(Check(w, c), shown) && Observed(Check(w, c).log)
  {
    var lit := LightUp(w, c.doc);
    assert Issued(lit.log) && Observed(lit.log);
    var stopped := Then(lit.log, StopSent(false));
    assert Issued(stopped) && Observed(stopped);
    StopsIff(w, c);
  }

  lemma PassesAreCareful(w: Worker, e: Report, startup: CheckInput, homing: CheckInput, shown: View)
    requires Careful(w, shown) && (Begins(e.kinds) && !w.pass1Done ==> Observed(w.log))
    ensures Careful(Homing(Startup(w, e, startup), e, homing), shown)
  {
    if Begins(e.kinds) && !w.pass1Done {
      CheckIsCareful(w.(pass1Done := true), startup, shown);
    }
    var w1 := Startup(w, e, startup);
    if w1.pass1Done && !w1.homingDone {
      CheckIsCareful(w1.(homingDone := true), homing, shown);
    }
  }

  lemma LightIsCareful(w: Worker, doc: View, shown: View)
    requires Careful(w, shown)
    ensures Careful(LightUp(w, doc), shown)
  {
  }

  lemma CheckLayerIsCareful(w: Worker, retry: bool, c: LayerInput, shown: View)
    requires Careful(w, shown)
    ensures Careful(CheckLayer(w, retry, c), shown)
  {
    LightIsCareful(w, c.doc, shown);
  }

  lemma LayersAreCareful(w: Worker, e: Report, on: bool, x: Input, shown: View)
    requires Careful(w, shown)
    ensures Careful(FirstLayer(Retry(w, e, x.now, x.retry), e, on, x.first), shown)
  {
    CheckLayerIsCareful(w.(layerRetryAt := None), true, x.retry, shown);
    CheckLayerIsCareful(Note(Retry(w, e, x.now, x.retry), FirstLayerSeen), false, x.first, shown);
  }

  lemma HandleIsCareful(w: Worker, e: Report, on: bool, x: Input)
    requires Careful(w, e.prev) && Stops(w) && Genuine(e)
    requires Connected in e.kinds || Disconnected in e.kinds ==> e.cur == e.prev
    ensures Careful(Handle(w, e, on, x), e.cur)
  {
    if Connected !in e.kinds && Disconnected !in e.kinds {
      ResolveIsCareful(w, e, x.resendDoc, e.prev);
      ResolveLayerIsCareful(ResolveStop(w, e, x.resendDoc), e, e.prev);
      var w1 := ResolveLayer(ResolveStop(w, e, x.resendDoc), e);
      PrepareIsCareful(w1, e);
      var w2 := SeeHoming(Attach(Reset(w1, e), e), e);
      PassesAreCareful(w2, e, x.startup, x.homing, e.cur);
      LayersAreCareful(Homing(Startup(w2, e, x.startup), e, x.homing), e, on, x, e.cur);
    }
  }

  /** The reports are those of the store's events, none lost. */
  ghost predicate Reported(evs: seq<Event>, reports: seq<Report>) {
    |reports| == |evs| && forall i :: 0 <= i < |evs| ==> reports[i] == ReportOf(evs[i])
  }

  lemma ChainIsGenuine(evs: seq<Event>, i: nat)
    requires Chain(evs) && i < |evs|
    ensures Genuine(ReportOf(evs[i])) && ReportOf(evs[i]).prev == Look(DocAt(evs, i))
    ensures Connected in evs[i].kinds || Disconnected in evs[i].kinds ==> ReportOf(evs[i]).cur == ReportOf(evs[i]).prev
  {
    assert Follows(DocAt(evs, i), OnlineAt(evs, i), evs[i]);
    if IsReport(DocAt(evs, i), OnlineAt(evs, i), evs[i]) {
      var oldProblems, newProblems :|
        evs[i].kinds == Transitions(Look(evs[i].prev), Look(evs[i].cur), oldProblems, newProblems);
      LinkKind(Connected, Look(evs[i].prev), Look(evs[i].cur), oldProblems, newProblems);
      LinkKind(Disconnected, Look(evs[i].prev), Look(evs[i].cur), oldProblems, newProblems);
    }
  }

  lemma EventIsCareful(ws: seq<Worker>, evs: seq<Event>, reports: seq<Report>, on: bool, xs: seq<Input>, k: nat)
    requires Chain(evs) && Reported(evs, reports) && Run(ws, reports, on, xs) && k < |reports|
    requires Stops(ws[k]) && Careful(ws[k], Look(DocAt(evs, k)))
    ensures Careful(ws[k + 1], Look(DocAt(evs, k + 1)))
  {
    ChainIsGenuine(evs, k);
    assert reports[k] == ReportOf(evs[k]);
    HandleIsCareful(ws[k], reports[k], on, xs[k]);
  }

  /**
   With every event of a printer delivered from the empty document on, each stop sent by a check follows a
   new print later than the latest first state, and each repetition follows such a stop on the same print:
   a print already under way when the proxy attaches is never stopped.
   */
  lemma {:induction false} StopsOnlyObservedPrints(ws: seq<Worker>, evs: seq<Event>, reports: seq<Report>, on: bool,
                                                   xs: seq<Input>, i: nat)
    requires Chain(evs) && Reported(evs, reports) && Run(ws, reports, on, xs) && i < |ws|
    ensures Careful(ws[i], Look(DocAt(evs, i)))
    ensures Issued(ws[i].log)
  {
    if i == 0 {
      EmptyShowsNothing();
    } else {
      StopsOnlyObservedPrints(ws, evs, reports, on, xs, i - 1);
      RunStops(ws, reports, on, xs, i - 1);
      EventIsCareful(ws, evs, reports, on, xs, i - 1);
    }
  }

  // How often a first layer can complete.

  /** How many of the reports a to i - 1 complete a first layer. */
  function Completions(reports: seq<Report>, a: nat, i: nat): nat
    requires i <= |reports|
  {
    if i <= a then 0 else Completions(reports, a, i - 1) + One(FirstLayerComplete in reports[i - 1].kinds)
  }

  predicate FallsBack(e: Report) {
    e.prev.LayerOrZero() >= 2 && e.cur.LayerOrZero() <= 1
  }

  /** How often in the reports a to i - 1 the layer falls from 2 or more back to 1 or less. */
  function Fallbacks(reports: seq<Report>, a: nat, i: nat): nat
    requires i <= |reports|
  {
    if i <= a then 0 else Fallbacks(reports, a, i - 1) + One(FallsBack(reports[i - 1]))
  }

  ghost predicate Linked(reports: seq<Report>) {
    && (forall i :: 0 <= i < |reports| ==> Genuine(reports[i]))
    && (forall i :: 0 < i < |reports| ==> reports[i].prev == reports[i - 1].cur)
    && (forall i :: 0 <= i < |reports| && LinkChange(reports[i]) ==>
          reports[i].cur == reports[i].prev && FirstLayerComplete !in reports[i].kinds && !reports[i].newJob)
  }

  predicate Crosses(e: Report) { e.prev.LayerOrZero() <= 1 && e.cur.LayerOrZero() >= 2 }

  lemma CompletionCrosses(e: Report)
    requires Genuine(e) && !LinkChange(e) && FirstLayerComplete in e.kinds
    ensures Crosses(e)
  {
    var oldProblems, newProblems :| e.kinds == Transitions(e.prev, e.cur, oldProblems, newProblems);
    FirstLayerKind(e.prev, e.cur, oldProblems, newProblems);
  }

  /** A walk that goes up across a line goes down across it at least as often, but for the first time. */
  lemma {:induction false} CrossingsNeedFallbacks(reports: seq<Report>, a: nat, i: nat)
    requires a < i <= |reports| && forall k :: a < k < i ==> reports[k].prev == reports[k - 1].cur
    requires forall k :: a <= k < i && FirstLayerComplete in reports[k].kinds ==> Crosses(reports[k])
    ensures Completions(reports, a, i) + One(reports[i - 1].cur.LayerOrZero() <= 1)
            <= Fallbacks(reports, a, i) + One(reports[a].prev.LayerOrZero() <= 1)
  {
    if a < i - 1 {
      CrossingsNeedFallbacks(reports, a, i - 1);
    }
  }

  /**
   Over any stretch of reports a first layer completes at most once more than the layer falls back, and not
   even once more when the stretch starts above it.
   */
  lemma CompletionsNeedFallbacks(reports: seq<Report>, a: nat, i: nat)
    requires Linked(reports) && a < i <= |reports|
    ensures Completions(reports, a, i) + One(reports[i - 1].cur.LayerOrZero() <= 1)
            <= Fallbacks(reports, a, i) + One(reports[a].prev.LayerOrZero() <= 1)
  {
    forall k | a <= k < i && FirstLayerComplete in reports[k].kinds ensures Crosses(reports[k]) {
      CompletionCrosses(reports[k]);
    }
    CrossingsNeedFallbacks(reports, a, i);
  }

  // The worker counts exactly the completions of the current print.

  function Seen(w: Worker): nat { Count(w.log).layers }

  lemma ResolveSeesNone(w: Worker, e: Report, resendDoc: View)
    ensures Seen(ResolveLayer(ResolveStop(w, e, resendDoc), e)) == Seen(w)
  {
    ResolveIs(w, e, resendDoc);
    assert Seen(ResolveStop(w, e, resendDoc)) == Seen(w);
    var w1 := ResolveStop(w, e, resendDoc);
    assert ResolveLayer(w1, e).log in {w1.log, Then(w1.log, PauseConfirmed), Then(w1.log, PauseUnconfirmed)};
  }

  lemma CheckSeesNone(w: Worker, c: CheckInput)
    ensures Seen(Check(w, c)) == Seen(w)
  {
    assert Seen(LightUp(w, c.doc)) == Seen(w);
  }

  lemma CheckLayerSeesNone(w: Worker, retry: bool, c: LayerInput)
    ensures Seen(CheckLayer(w, retry, c)) == Seen(w)
  {
    assert Seen(LightUp(w, c.doc)) == Seen(w);
  }

  lemma PassesSeeNone(w: Worker, e: Report, startup: CheckInput, homing: CheckInput)
    ensures Seen(Homing(Startup(w, e, startup), e, homing)) == Seen(w)
  {
    CheckSeesNone(w.(pass1Done := true), startup);
    CheckSeesNone(Startup(w, e, startup).(homingDone := true), homing);
  }

  lemma PrepareSees(w: Worker, e: Report)
    ensures Seen(SeeHoming(Attach(Reset(w, e), e), e)) == if e.newJob then 0 else Seen(w)
  {
    assert Seen(Attach(Reset(w, e), e)) == Seen(Reset(w, e));
  }

  lemma LayersSee(w: Worker, e: Report, on: bool, x: Input)
    ensures Seen(FirstLayer(Retry(w, e, x.now, x.retry), e, on, x.first))
            == Seen(w) + One(FirstLayerComplete in e.kinds)
  {
    CheckLayerSeesNone(w.(layerRetryAt := None), true, x.retry);
    var w1 := Retry(w, e, x.now, x.retry);
    CheckLayerSeesNone(Note(w1, FirstLayerSeen), false, x.first);
  }

  lemma ReportSees(w: Worker, e: Report, on: bool, x: Input)
    requires Connected !in e.kinds && Disconnected !in e.kinds
    ensures Seen(Handle(w, e, on, x)) == (if e.newJob then 0 else Seen(w)) + One(FirstLayerComplete in e.kinds)
  {
    ResolveSeesNone(w, e, x.resendDoc);
    var w1 := ResolveLayer(ResolveStop(w, e, x.resendDoc), e);
    PrepareSees(w1, e);
    var w2 := SeeHoming(Attach(Reset(w1, e), e), e);
    PassesSeeNone(w2, e, x.startup, x.homing);
    LayersSee(Homing(Startup(w2, e, x.startup), e, x.homing), e, on, x);
  }

  predicate LinkChange(e: Report) { Connected in e.kinds || Disconnected in e.kinds }

  lemma HandleSees(w: Worker, e: Report, on: bool, x: Input)
    requires LinkChange(e) ==> !e.newJob && FirstLayerComplete !in e.kinds
    ensures Seen(Handle(w, e, on, x)) == (if e.newJob then 0 else Seen(w)) + One(FirstLayerComplete in e.kinds)
  {
    if !LinkChange(e) {
      ReportSees(w, e, on, x);
    }
  }

  /** Report a begins a print and no later one before i does. */
  ghost predicate PrintSince(reports: seq<Report>, a: nat, i: nat) {
    && a < i <= |reports|
    && reports[a].newJob && !LinkChange(reports[a])
    && forall k :: a < k < i ==> !reports[k].newJob
  }

  lemma {:induction false} SeenIsCompletions(ws: seq<Worker>, reports: seq<Report>, on: bool, xs: seq<Input>,
                                             a: nat, i: nat)
    requires Run(ws, reports, on, xs) && PrintSince(reports, a, i)
    requires forall k :: 0 <= k < |reports| && LinkChange(reports[k]) ==> FirstLayerComplete !in reports[k].kinds
    ensures Seen(ws[i]) == Completions(reports, a, i)
  {
    var e := reports[i - 1];
    assert ws[i] == Handle(ws[i - 1], e, on, xs[i - 1]);
    assert e.newJob == (i - 1 == a);
    HandleSees(ws[i - 1], e, on, xs[i - 1]);
    if a < i - 1 {
      SeenIsCompletions(ws, reports, on, xs, a, i - 1);
    }
  }

  /**
   The first-layer pauses of a print, with an armed retry, never exceed its completed first layers, nor the times its
   reported layer fell back, plus one when it began at layer 1 or below.
   */
  lemma PausesPerPrint(ws: seq<Worker>, reports: seq<Report>, on: bool, xs: seq<Input>, a: nat, i: nat)
    requires Run(ws, reports, on, xs) && Linked(reports) && PrintSince(reports, a, i)
    ensures Count(ws[i].log).pauses + One(ws[i].layerRetryAt.Some?) <= Completions(reports, a, i)
    ensures Completions(reports, a, i) <= Fallbacks(reports, a, i) + One(reports[a].prev.LayerOrZero() <= 1)
  {
    PausesCovered(ws, reports, on, xs, i);
    SeenIsCompletions(ws, reports, on, xs, a, i);
    CompletionsNeedFallbacks(reports, a, i);
  }

  // That many pauses do occur.

  /** The print shown running at layer 2. */
  const SECOND_LAYER: View := View(Some(Running), None, None, None, None).(layer := Some(2))

  /** Startup checks find the printer offline; every first-layer check sees a defect and pauses. */
  const DEFECTS: Input :=
    var offline := CheckInput(SECOND_LAYER, false, false, false, Inconclusive, SECOND_LAYER, false, false);
    var defect := LayerInput(SECOND_LAYER, true, true, true, PauseDecision, false, 0, SECOND_LAYER, true, false, true);
    Input(SECOND_LAYER, offline, offline, 0, defect, defect)

  function Played(reports: seq<Report>, n: nat): Worker
    requires n <= |reports|
  {
    if n == 0 then Fresh else Handle(Played(reports, n - 1), reports[n - 1], true, DEFECTS)
  }

  /** Nothing stopped, nothing to repeat or retry. */
  predicate Idle(w: Worker) { !w.stopSent && w.pending.None? && w.layerRetryAt.None? }

  lemma OfflineCheckIs(w: Worker)
    ensures Check(w, DEFECTS.startup) == w
  {
  }

  lemma DefectCheckIs(w: Worker)
    ensures var w' := CheckLayer(w, false, DEFECTS.first);
            w' == Note(w, PauseSent).(layerPending := Some(Command(2, false)))
  {
  }

  lemma ResolveIdles(w: Worker, e: Report)
    requires Idle(w)
    ensures ResolveStop(w, e, SECOND_LAYER) == w
    ensures Idle(ResolveLayer(w, e)) && Count(ResolveLayer(w, e).log).pauses == Count(w.log).pauses
  {
  }

  lemma PrepareIdles(w: Worker, e: Report)
    requires Idle(w)
    ensures var w' := SeeHoming(Attach(Reset(w, e), e), e);
            Idle(w') && Count(w'.log).pauses == if e.newJob then 0 else Count(w.log).pauses
  {
  }

  lemma PassesIdle(w: Worker, e: Report)
    requires Idle(w)
    ensures var w' := Homing(Startup(w, e, DEFECTS.startup), e, DEFECTS.homing);
            Idle(w') && w'.log == w.log
  {
    OfflineCheckIs(w.(pass1Done := true));
    OfflineCheckIs(Startup(w, e, DEFECTS.startup).(homingDone := true));
  }

  lemma LayersPause(w: Worker, e: Report)
    requires Idle(w)
    ensures var w' := FirstLayer(Retry(w, e, DEFECTS.now, DEFECTS.retry), e, true, DEFECTS.first);
            Idle(w') && Count(w'.log).pauses == Count(w.log).pauses + One(FirstLayerComplete in e.kinds)
  {
    DefectCheckIs(Note(w, FirstLayerSeen));
  }

  lemma HandlePauses(w: Worker, e: Report)
    requires Idle(w) && (LinkChange(e) ==> !e.newJob && FirstLayerComplete !in e.kinds)
    ensures var w' := Handle(w, e, true, DEFECTS);
            && Idle(w')
            && Count(w'.log).pauses
               == (if e.newJob then 0 else Count(w.log).pauses) + One(FirstLayerComplete in e.kinds)
  {
    if !LinkChange(e) {
      ResolveIdles(w, e);
      var w1 := ResolveLayer(w, e);
      PrepareIdles(w1, e);
      var w2 := SeeHoming(Attach(Reset(w1, e), e), e);
      PassesIdle(w2, e);
      LayersPause(Homing(Startup(w2, e, DEFECTS.startup), e, DEFECTS.homing), e);
    }
  }

  /** Link changes neither begin a print nor complete a layer. */
  predicate QuietLinks(reports: seq<Report>) {
    forall k :: 0 <= k < |reports| && LinkChange(reports[k]) ==>
      !reports[k].newJob && FirstLayerComplete !in reports[k].kinds
  }

  function PlayedCount(reports: seq<Report>, n: nat): nat
    requires n <= |reports|
  {
    Count(Played(reports, n).log).pauses
  }

  lemma {:induction false} PlayedIdles(reports: seq<Report>, n: nat)
    requires QuietLinks(reports) && 0 < n <= |reports|
    ensures Idle(Played(reports, n))
    ensures var e := reports[n - 1];
            PlayedCount(reports, n)
            == (if e.newJob then 0 else PlayedCount(reports, n - 1)) + One(FirstLayerComplete in e.kinds)
  {
    if n > 1 {
      PlayedIdles(reports, n - 1);
    }
    HandlePauses(Played(reports, n - 1), reports[n - 1]);
  }

  lemma {:induction false} PlayedPauses(reports: seq<Report>, a: nat, i: nat)
    requires QuietLinks(reports) && PrintSince(reports, a, i)
    ensures PlayedCount(reports, i) == Completions(reports, a, i)
  {
    PlayedIdles(reports, i);
    assert reports[i - 1].newJob == (i - 1 == a);
    if a < i - 1 {
      PlayedPauses(reports, a, i - 1);
    }
  }

  lemma PlayedIsRun(reports: seq<Report>) returns (ws: seq<Worker>, xs: seq<Input>)
    ensures Run(ws, reports, true, xs) && forall n :: 0 <= n <= |reports| ==> ws[n] == Played(reports, n)
  {
    ws := seq(|reports| + 1, n requires 0 <= n <= |reports| => Played(reports, n));
    xs := seq(|reports|, n requires 0 <= n < |reports| => DEFECTS);
  }

  /** For any reports there are answers by which a print gets as many pauses as it completes first layers. */
  lemma EveryCompletionCanPause(reports: seq<Report>, a: nat, i: nat) returns (ws: seq<Worker>, xs: seq<Input>)
    requires Linked(reports) && PrintSince(reports, a, i)
    ensures Run(ws, reports, true, xs) && Count(ws[i].log).pauses == Completions(reports, a, i)
  {
    ws, xs := PlayedIsRun(reports);
    PlayedPauses(reports, a, i);
  }

  /** Whatever is answered, the print gets at most one first-layer pause. */
  ghost predicate OnePauseAtMost(reports: seq<Report>, i: nat) {
    forall ws: seq<Worker>, xs: seq<Input> :: Run(ws, reports, true, xs) && i < |ws| ==> Count(ws[i].log).pauses <= 1
  }

  /**
   A print is sure to get at most one first-layer pause if and only if its reports complete at most one first
   layer.
   */
  lemma OnePauseIff(reports: seq<Report>, a: nat, i: nat)
    requires Linked(reports) && PrintSince(reports, a, i)
    ensures OnePauseAtMost(reports, i) <==> Completions(reports, a, i) <= 1
  {
    forall ws: seq<Worker>, xs: seq<Input> | Run(ws, reports, true, xs)
      ensures Count(ws[i].log).pauses <= Completions(reports, a, i)
    {
      PausesPerPrint(ws, reports, true, xs, a, i);
    }
    var ws, xs := EveryCompletionCanPause(reports, a, i);
    assert Run(ws, reports, true, xs) && i < |ws|;
  }

  /** A report of a running print whose layer changes. */
  function LayerReport(before: int, after: int): Report {
    var kinds := if before <= 1 && after >= 2 then [FirstLayerComplete] else [];
    Report(SECOND_LAYER.(layer := Some(before)), SECOND_LAYER.(layer := Some(after)), true, kinds, false)
  }

  lemma LayerReportIsGenuine(before: int, after: int)
    ensures Genuine(LayerReport(before, after)) && !LinkChange(LayerReport(before, after))
  {
    var e := LayerReport(before, after);
    assert e.kinds == Transitions(e.prev, e.cur, [], []);
  }

  function BeginReport(): Report {
    Report(SECOND_LAYER.(gcode := Some(Finish), layer := Some(0)), SECOND_LAYER.(layer := Some(0)),
           true, [PrintStarted], true)
  }

  lemma BeginReportIsGenuine()
    ensures Genuine(BeginReport()) && !LinkChange(BeginReport())
  {
    var e := BeginReport();
    assert e.kinds == Transitions(e.prev, e.cur, [], []);
  }

  /** A print begins out of a finished one, and its layer is reported as 0, 2, 1 and 2. */
  function FallingBack(): seq<Report> { [BeginReport(), LayerReport(0, 2), LayerReport(2, 1), LayerReport(1, 2)] }

  /** Reports without link changes are linked when each continues the one before. */
  lemma GenuineIsLinked(reports: seq<Report>)
    requires forall i :: 0 <= i < |reports| ==> Genuine(reports[i]) && !LinkChange(reports[i])
    requires forall i :: 0 < i < |reports| ==> reports[i].prev == reports[i - 1].cur
    ensures Linked(reports)
  {
  }

  lemma FallingBackIsGenuine(i: nat)
    requires i < 4
    ensures Genuine(FallingBack()[i]) && !LinkChange(FallingBack()[i])
  {
    if i == 0 {
      BeginReportIsGenuine();
    } else if i == 1 {
      LayerReportIsGenuine(0, 2);
    } else if i == 2 {
      LayerReportIsGenuine(2, 1);
    } else {
      LayerReportIsGenuine(1, 2);
    }
  }

  lemma FallingBackGoesOn(i: nat)
    requires 0 < i < 4
    ensures FallingBack()[i].prev == FallingBack()[i - 1].cur
  {
  }

  lemma FallingBackIsLinked()
    ensures Linked(FallingBack())
  {
    var reports := FallingBack();
    forall i | 0 <= i < |reports| ensures Genuine(reports[i]) && !LinkChange(reports[i]) {
      FallingBackIsGenuine(i);
    }
    forall i | 0 < i < |reports| ensures reports[i].prev == reports[i - 1].cur {
      FallingBackGoesOn(i);
    }
    GenuineIsLinked(reports);
  }

  lemma FallingBackIsOnePrint()
    ensures PrintSince(FallingBack(), 0, 4)
  {
    BeginReportIsGenuine();
  }

  lemma FallingBackCompletesTwice()
    ensures Completions(FallingBack(), 0, 4) == 2
  {
    var reports := FallingBack();
    assert Completions(reports, 0, 1) == 0;
    assert Completions(reports, 0, 2) == 1;
    assert Completions(reports, 0, 3) == 1;
  }

  /** It can be paused twice for its first layer. */
  lemma TwoPausesInOnePrint()
    ensures Linked(FallingBack()) && PrintSince(FallingBack(), 0, 4)
    ensures exists ws: seq<Worker>, xs: seq<Input> :: Run(ws, FallingBack(), true, xs) && Count(ws[4].log).pauses == 2
  {
    FallingBackIsLinked();
    FallingBackIsOnePrint();
    FallingBackCompletesTwice();
    var ws, xs := EveryCompletionCanPause(FallingBack(), 0, 4);
  }

  /** The store's events of one printer are such reports. */
  lemma ChainIsLinked(evs: seq<Event>, reports: seq<Report>)
    requires Chain(evs) && Reported(evs, reports)
    ensures Linked(reports)
  {
    forall i | 0 <= i < |reports|
      ensures Genuine(reports[i])
      ensures i > 0 ==> reports[i].prev == reports[i - 1].cur
      ensures LinkChange(reports[i]) ==>
                reports[i].cur == reports[i].prev && FirstLayerComplete !in reports[i].kinds && !reports[i].newJob
    {
      ChainIsGenuine(evs, i);
      if LinkChange(reports[i]) {
        LinkAlone(evs, i);
      }
    }
  }

  lemma LinkAlone(evs: seq<Event>, i: nat)
    requires Chain(evs) && i < |evs| && (Connected in evs[i].kinds || Disconnected in evs[i].kinds)
    ensures FirstLayerComplete !in evs[i].kinds && !evs[i].newJob
  {
    assert Follows(DocAt(evs, i), OnlineAt(evs, i), evs[i]);
    if IsReport(DocAt(evs, i), OnlineAt(evs, i), evs[i]) {
      var oldProblems, newProblems :|
        evs[i].kinds == Transitions(Look(evs[i].prev), Look(evs[i].cur), oldProblems, newProblems);
      LinkKind(Connected, Look(evs[i].prev), Look(evs[i].cur), oldProblems, newProblems);
      LinkKind(Disconnected, Look(evs[i].prev), Look(evs[i].cur), oldProblems, newProblems);
    }
  }
}
