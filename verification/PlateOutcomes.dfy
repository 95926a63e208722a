/** What becomes of a stop or a first-layer pause, told from the reports that follow it. */
module PlateOutcomes {
  import opened Options
  import opened Doc
  import opened Events
  import opened PlateState
  import opened PlateTheorems
  import opened PlateChecks

  predicate PausedNow(e: Report) { e.cur.gcode in {Some(Pause), Some(Paused)} }

  /** The printer has paused or its print is over. */
  predicate Halted(e: Report) { PausedNow(e) || e.cur.gcode in {Some(Idle), Some(Finish), Some(Failed)} }

  /** It goes on printing above this layer. */
  predicate Beyond(layer: int, e: Report) {
    e.cur.gcode == Some(Running) && e.cur.layer.Some? && e.cur.layer.value > layer
  }

  /** A stop sent in PREPARE meets the end of PREPARE. */
  predicate Repeats(c: Command, e: Report) {
    c.prepare && e.prev.gcode == Some(Prepare) && e.cur.gcode == Some(Running)
  }

  /** The command a report leaves of a pending stop. */
  function AfterReport(c: Option<Command>, e: Report, resendDoc: View): Option<Command> {
    if c.None? || Halted(e) then None
    else if Repeats(c.value, e) then Some(Command(resendDoc.LayerOrZero(), false))
    else if Beyond(c.value.layer, e) then None
    else c
  }

  /** How often the current print's stop was repeated, confirmed and left unconfirmed. */
  datatype Fate = Fate(repeated: nat, stopped: nat, unconfirmed: nat)

  function FateOf(w: Worker): Fate {
    Fate(Count(w.log).resends, Count(w.log).stopped, Count(w.log).unconfirmed)
  }

  function AfterFate(f: Fate, c: Option<Command>, e: Report): Fate {
    if c.None? then f
    else if Halted(e) then f.(stopped := f.stopped + 1)
    else if Repeats(c.value, e) then f.(repeated := f.repeated + 1)
    else if Beyond(c.value.layer, e) then f.(unconfirmed := f.unconfirmed + 1)
    else f
  }

  lemma ResolveFate(w: Worker, e: Report, resendDoc: View)
    ensures var w' := ResolveLayer(ResolveStop(w, e, resendDoc), e);
            w'.pending == AfterReport(w.pending, e, resendDoc) && FateOf(w') == AfterFate(FateOf(w), w.pending, e)
  {
    StopFateStep(w, e, resendDoc);
    ResolveLayerIs(ResolveStop(w, e, resendDoc), e);
  }

  lemma ResolveStopIs(w: Worker, e: Report, resendDoc: View)
    ensures var w' := ResolveStop(w, e, resendDoc);
            && w'.pending == AfterReport(w.pending, e, resendDoc)
            && w'.log == if w.pending.None? then w.log
                         else if Halted(e) then Then(w.log, Stopped)
                         else if Repeats(w.pending.value, e) then Then(w.log, StopSent(true))
                         else if Beyond(w.pending.value.layer, e) then Then(w.log, StopUnconfirmed)
                         else w.log
  {
  }

  lemma StopFateStep(w: Worker, e: Report, resendDoc: View)
    ensures var w' := ResolveStop(w, e, resendDoc);
            w'.pending == AfterReport(w.pending, e, resendDoc) && FateOf(w') == AfterFate(FateOf(w), w.pending, e)
  {
    ResolveStopIs(w, e, resendDoc);
  }

  predicate SameFate(w: Worker, w': Worker) { w'.pending == w.pending && FateOf(w') == FateOf(w) }

  lemma PrepareFate(w: Worker, e: Report)
    ensures var w' := SeeHoming(Attach(Reset(w, e), e), e);
            if e.newJob then w'.pending.None? && FateOf(w') == Fate(0, 0, 0) else SameFate(w, w')
  {
    var w1 := Reset(w, e);
    assert if e.newJob then w1.pending.None? && FateOf(w1) == Fate(0, 0, 0) else w1 == w;
    assert SameFate(w1, Attach(w1, e));
  }

  lemma LitFate(log: Log, looks: bool, doc: View)
    ensures Count(Lit(log, looks, doc)) == Count(log)
  {
  }

  lemma CheckFate(w: Worker, c: CheckInput)
    ensures var w' := Check(w, c);
            FateOf(w') == FateOf(w) && w'.pending == if CallsForStop(c) then Some(StopOf(c)) else w.pending
  {
    CheckIs(w, c);
    LitFate(w.log, c.online && AtStart(c.doc), c.doc);
  }

  lemma CheckLayerFate(w: Worker, retry: bool, c: LayerInput)
    ensures SameFate(w, CheckLayer(w, retry, c))
  {
    CheckLayerIs(w, retry, c);
    LitFate(w.log, MayPause(c.doc, c.online, retry), c.doc);
  }

  lemma LayersFate(w: Worker, e: Report, on: bool, x: Input)
    ensures SameFate(w, FirstLayer(Retry(w, e, x.now, x.retry), e, on, x.first))
  {
    CheckLayerFate(w.(layerRetryAt := None), true, x.retry);
    var w1 := Retry(w, e, x.now, x.retry);
    assert SameFate(w, w1);
    CheckLayerFate(Note(w1, FirstLayerSeen), false, x.first);
  }

  lemma PassesFate(w: Worker, e: Report, x: Input)
    ensures var w' := Homing(Startup(w, e, x.startup), e, x.homing);
            && FateOf(w') == FateOf(w)
            && (w'.stopSent == w.stopSent ==> w.stopSent || w'.pending == w.pending)
            && (w.stopSent && !(Begins(e.kinds) && !w.pass1Done) ==> w'.pending == w.pending)
  {
    CheckFate(w.(pass1Done := true), x.startup);
    CheckIs(w.(pass1Done := true), x.startup);
    var w1 := Startup(w, e, x.startup);
    CheckFate(w1.(homingDone := true), x.homing);
    CheckIs(w1.(homingDone := true), x.homing);
  }

  /** A later report of a print already stopped settles or repeats that stop, and that is all. */
  lemma LaterFate(w: Worker, e: Report, on: bool, x: Input)
    requires !LinkChange(e) && !e.newJob && w.stopSent && w.pass1Done
    ensures var w' := Handle(w, e, on, x);
            w'.pending == AfterReport(w.pending, e, x.resendDoc) && FateOf(w') == AfterFate(FateOf(w), w.pending, e)
  {
    ResolveFate(w, e, x.resendDoc);
    ResolveKeepsLatches(w, e, x.resendDoc);
    var w1 := ResolveLayer(ResolveStop(w, e, x.resendDoc), e);
    PrepareFate(w1, e);
    PrepareLatches(w1, e);
    var w2 := SeeHoming(Attach(Reset(w1, e), e), e);
    PassesFate(w2, e, x);
    LayersFate(Homing(Startup(w2, e, x.startup), e, x.homing), e, on, x);
  }

  lemma StartupPending(w: Worker, e: Report, x: Input)
    requires Begins(e.kinds) && !w.pass1Done && !w.stopSent && CallsForStop(x.startup)
    ensures Homing(Startup(w, e, x.startup), e, x.homing).pending == Some(StopOf(x.startup))
  {
    CheckIs(w.(pass1Done := true), x.startup);
  }

  lemma HomingPending(w: Worker, e: Report, x: Input)
    requires Begins(e.kinds) && !w.pass1Done ==> !CallsForStop(x.startup)
    requires !w.stopSent && Homing(Startup(w, e, x.startup), e, x.homing).stopSent
    ensures Homing(Startup(w, e, x.startup), e, x.homing).pending == Some(StopOf(x.homing))
  {
    CheckIs(w.(pass1Done := true), x.startup);
    CheckIs(Startup(w, e, x.startup).(homingDone := true), x.homing);
  }

  /** The answers of the check that stops a print at report k. */
  function StopAnswers(xs: seq<Input>, a: nat, k: nat): CheckInput
    requires k < |xs|
  {
    if k == a && CallsForStop(xs[k].startup) then xs[k].startup else xs[k].homing
  }

  lemma SentFate(w: Worker, e: Report, on: bool, x: Input)
    requires !LinkChange(e) && (e.newJob || (!w.stopSent && w.pass1Done && w.pending.None?))
    requires e.newJob ==> Begins(e.kinds) && StateInitial !in e.kinds
    requires Handle(w, e, on, x).stopSent
    ensures var c := if e.newJob && CallsForStop(x.startup) then x.startup else x.homing;
            Handle(w, e, on, x).pending == Some(StopOf(c))
    ensures FateOf(Handle(w, e, on, x)) == if e.newJob then Fate(0, 0, 0) else FateOf(w)
  {
    ResolveFate(w, e, x.resendDoc);
    ResolveKeepsLatches(w, e, x.resendDoc);
    var w1 := ResolveLayer(ResolveStop(w, e, x.resendDoc), e);
    PrepareFate(w1, e);
    PrepareLatches(w1, e);
    var w2 := SeeHoming(Attach(Reset(w1, e), e), e);
    PassesFate(w2, e, x);
    var w3 := Homing(Startup(w2, e, x.startup), e, x.homing);
    LayersFate(w3, e, on, x);
    LayersKeepLatches(w3, e, on, x);
    if e.newJob && CallsForStop(x.startup) {
      StartupPending(w2, e, x);
    } else {
      HomingPending(w2, e, x);
    }
  }

  // Over a run.

  /** The report says nothing about the command. */
  predicate Quiet(c: Command, e: Report) {
    LinkChange(e) || (!Halted(e) && !Repeats(c, e) && !Beyond(c.layer, e))
  }

  predicate QuietBetween(c: Command, reports: seq<Report>, m: nat, i: nat)
    requires i <= |reports|
  {
    forall j :: m <= j < i ==> Quiet(c, reports[j])
  }

  /** Report j is the first from m on that says something about the command. */
  predicate FirstWord(c: Command, reports: seq<Report>, m: nat, j: nat)
    requires j < |reports|
  {
    m <= j && QuietBetween(c, reports, m, j) && !Quiet(c, reports[j])
  }

  /** The first check that stops the print begun at report a is made at report k. */
  ghost predicate StoppedAt(reports: seq<Report>, xs: seq<Input>, a: nat, k: nat)
    requires k < |reports| == |xs|
  {
    a <= k && CheckStops(reports, xs, a, k) && !WasStopped(reports, xs, a, k)
  }

  /** A run over the reports of one print. */
  ghost predicate OnePrint(ws: seq<Worker>, reports: seq<Report>, on: bool, xs: seq<Input>, a: nat, i: nat) {
    Run(ws, reports, on, xs) && PrintSince(reports, a, i) && Genuine(reports[a])
  }

  lemma NothingSentYet(w: Worker)
    requires Stops(w) && !w.stopSent
    ensures w.pending.None? && FateOf(w) == Fate(0, 0, 0)
  {
  }

  lemma StopIsPending(ws: seq<Worker>, reports: seq<Report>, on: bool, xs: seq<Input>, a: nat, k: nat)
    requires OnePrint(ws, reports, on, xs, a, k + 1) && StoppedAt(reports, xs, a, k)
    ensures ws[k + 1].pending == Some(StopOf(StopAnswers(xs, a, k))) && FateOf(ws[k + 1]) == Fate(0, 0, 0)
  {
    PrintLatches(ws, reports, on, xs, a, k + 1);
    assert WasStopped(reports, xs, a, k + 1);
    if k == a {
      NewPrintKinds(reports[a]);
    } else {
      PrintLatches(ws, reports, on, xs, a, k);
      RunStops(ws, reports, on, xs, k);
      NothingSentYet(ws[k]);
    }
    SentFate(ws[k], reports[k], on, xs[k]);
  }

  lemma ReportFate(ws: seq<Worker>, reports: seq<Report>, on: bool, xs: seq<Input>, a: nat, j: nat)
    requires OnePrint(ws, reports, on, xs, a, j + 1) && a < j && WasStopped(reports, xs, a, j)
    ensures if LinkChange(reports[j]) then SameFate(ws[j], ws[j + 1])
            else
              && ws[j + 1].pending == AfterReport(ws[j].pending, reports[j], xs[j].resendDoc)
              && FateOf(ws[j + 1]) == AfterFate(FateOf(ws[j]), ws[j].pending, reports[j])
  {
    PrintLatches(ws, reports, on, xs, a, j);
    if !LinkChange(reports[j]) {
      LaterFate(ws[j], reports[j], on, xs[j]);
    }
  }

  lemma StoppedStays(reports: seq<Report>, xs: seq<Input>, a: nat, m: nat, i: nat)
    requires m <= i <= |reports| == |xs| && WasStopped(reports, xs, a, m)
    ensures WasStopped(reports, xs, a, i)
  {
  }

  /** How one report changes a print already stopped. */
  predicate FateStep(w: Worker, w': Worker, e: Report, resendDoc: View) {
    if LinkChange(e) then SameFate(w, w')
    else w'.pending == AfterReport(w.pending, e, resendDoc) && FateOf(w') == AfterFate(FateOf(w), w.pending, e)
  }

  ghost predicate FateSteps(ws: seq<Worker>, reports: seq<Report>, xs: seq<Input>, m: nat, i: nat) {
    && |ws| == |reports| + 1 == |xs| + 1 && i <= |reports|
    && forall j :: m <= j < i ==> FateStep(ws[j], ws[j + 1], reports[j], xs[j].resendDoc)
  }

  lemma StoppedPrintSteps(ws: seq<Worker>, reports: seq<Report>, on: bool, xs: seq<Input>, a: nat, m: nat, i: nat)
    requires OnePrint(ws, reports, on, xs, a, i) && a < m <= i && WasStopped(reports, xs, a, m)
    ensures FateSteps(ws, reports, xs, m, i)
  {
    forall j | m <= j < i ensures FateStep(ws[j], ws[j + 1], reports[j], xs[j].resendDoc) {
      StoppedStays(reports, xs, a, m, j);
      ReportFate(ws, reports, on, xs, a, j);
    }
  }

  lemma {:induction false} CommandStays(ws: seq<Worker>, reports: seq<Report>, xs: seq<Input>,
                                        m: nat, i: nat, c: Command)
    requires FateSteps(ws, reports, xs, m, i) && m <= i && ws[m].pending == Some(c) && QuietBetween(c, reports, m, i)
    ensures SameFate(ws[m], ws[i])
  {
    if m < i {
      CommandStays(ws, reports, xs, m, i - 1, c);
      assert FateStep(ws[i - 1], ws[i], reports[i - 1], xs[i - 1].resendDoc) && Quiet(c, reports[i - 1]);
    }
  }

  lemma {:induction false} NothingStays(ws: seq<Worker>, reports: seq<Report>, xs: seq<Input>, m: nat, i: nat)
    requires FateSteps(ws, reports, xs, m, i) && m <= i && ws[m].pending.None?
    ensures SameFate(ws[m], ws[i])
  {
    if m < i {
      NothingStays(ws, reports, xs, m, i - 1);
      assert FateStep(ws[i - 1], ws[i], reports[i - 1], xs[i - 1].resendDoc);
    }
  }

  /** The first word on a pending command. */
  lemma WordIs(ws: seq<Worker>, reports: seq<Report>, xs: seq<Input>, m: nat, j: nat, i: nat, c: Command)
    requires FateSteps(ws, reports, xs, m, i) && m <= j < i
    requires ws[m].pending == Some(c) && FirstWord(c, reports, m, j)
    ensures ws[j + 1].pending == AfterReport(Some(c), reports[j], xs[j].resendDoc)
    ensures FateOf(ws[j + 1]) == AfterFate(FateOf(ws[m]), Some(c), reports[j])
  {
    CommandStays(ws, reports, xs, m, j, c);
    assert FateStep(ws[j], ws[j + 1], reports[j], xs[j].resendDoc);
  }

  /** The repetition of a stop remembers the layer shown when it is sent. */
  function SecondStop(xs: seq<Input>, j: nat): Command
    requires j < |xs|
  {
    Command(xs[j].resendDoc.LayerOrZero(), false)
  }

  /** The print in state i: its stop waits for a word, or the first word has settled it. */
  ghost predicate Settles(w: Worker, reports: seq<Report>, c: Command, m: nat, i: nat, repeated: nat)
    requires i <= |reports|
  {
    && (QuietBetween(c, reports, m, i) ==> w.pending == Some(c) && FateOf(w) == Fate(repeated, 0, 0))
    && forall j :: m <= j < i && FirstWord(c, reports, m, j) && !Repeats(c, reports[j]) ==>
         w.pending.None? && FateOf(w) == if Halted(reports[j]) then Fate(repeated, 1, 0) else Fate(repeated, 0, 1)
  }

  lemma PendingSettles(ws: seq<Worker>, reports: seq<Report>, xs: seq<Input>, m: nat, i: nat, c: Command, repeated: nat)
    requires FateSteps(ws, reports, xs, m, i) && m <= i
    requires ws[m].pending == Some(c) && FateOf(ws[m]) == Fate(repeated, 0, 0)
    ensures Settles(ws[i], reports, c, m, i, repeated)
  {
    if QuietBetween(c, reports, m, i) {
      CommandStays(ws, reports, xs, m, i, c);
    }
    forall j | m <= j < i && FirstWord(c, reports, m, j) && !Repeats(c, reports[j])
      ensures ws[i].pending.None? && FateOf(ws[i]) == AfterFate(Fate(repeated, 0, 0), Some(c), reports[j])
    {
      WordIs(ws, reports, xs, m, j, i, c);
      NothingStays(ws, reports, xs, j + 1, i);
    }
  }

  lemma RepeatSettles(ws: seq<Worker>, reports: seq<Report>, xs: seq<Input>, m: nat, j: nat, i: nat, c: Command)
    requires FateSteps(ws, reports, xs, m, i) && m <= j < i
    requires ws[m].pending == Some(c) && FateOf(ws[m]) == Fate(0, 0, 0)
    requires FirstWord(c, reports, m, j) && Repeats(c, reports[j])
    ensures Settles(ws[i], reports, SecondStop(xs, j), j + 1, i, 1)
  {
    WordIs(ws, reports, xs, m, j, i, c);
    assert FateSteps(ws, reports, xs, j + 1, i);
    PendingSettles(ws, reports, xs, j + 1, i, SecondStop(xs, j), 1);
  }

  /**
   The fate of a print's stop. It waits until the first report that says something about it: the printer halted, which
   confirms it; or, for a stop sent in PREPARE, the end of PREPARE, at which it is repeated and the repetition waits in
   the same way; or printing above the layer shown when the command was sent, which leaves it unconfirmed.
   */
  lemma StopFate(ws: seq<Worker>, reports: seq<Report>, on: bool, xs: seq<Input>, a: nat, k: nat, i: nat)
    requires OnePrint(ws, reports, on, xs, a, i) && k < i && StoppedAt(reports, xs, a, k)
    ensures var c := StopOf(StopAnswers(xs, a, k));
            && Settles(ws[i], reports, c, k + 1, i, 0)
            && forall j :: k < j < i && FirstWord(c, reports, k + 1, j) && Repeats(c, reports[j]) ==>
                 Settles(ws[i], reports, SecondStop(xs, j), j + 1, i, 1)
  {
    var c := StopOf(StopAnswers(xs, a, k));
    StopIsPending(ws, reports, on, xs, a, k);
    assert WasStopped(reports, xs, a, k + 1);
    StoppedPrintSteps(ws, reports, on, xs, a, k + 1, i);
    PendingSettles(ws, reports, xs, k + 1, i, c, 0);
    forall j | k < j < i && FirstWord(c, reports, k + 1, j) && Repeats(c, reports[j])
      ensures Settles(ws[i], reports, SecondStop(xs, j), j + 1, i, 1)
    {
      RepeatSettles(ws, reports, xs, k + 1, j, i, c);
    }
  }

  // First-layer pauses.

  /** How often the pauses of the current print were confirmed and left unconfirmed, and the one still pending. */
  datatype PauseFate = PauseFate(pending: Option<Command>, confirmed: nat, unconfirmed: nat)

  function PauseFateOf(w: Worker): PauseFate {
    PauseFate(w.layerPending, Count(w.log).pausesConfirmed, Count(w.log).pausesUnconfirmed)
  }

  /** A pause is confirmed by a paused printer and left unconfirmed by one that prints above its layer. */
  function AfterPause(f: PauseFate, e: Report): PauseFate {
    if f.pending.None? then f
    else if PausedNow(e) then PauseFate(None, f.confirmed + 1, f.unconfirmed)
    else if Beyond(f.pending.value.layer, e) then PauseFate(None, f.confirmed, f.unconfirmed + 1)
    else f
  }

  lemma ResolvePauseFate(w: Worker, e: Report, resendDoc: View)
    ensures PauseFateOf(ResolveLayer(ResolveStop(w, e, resendDoc), e)) == AfterPause(PauseFateOf(w), e)
  {
    ResolveIs(w, e, resendDoc);
    var w1 := ResolveStop(w, e, resendDoc);
    assert PauseFateOf(w1) == PauseFateOf(w);
    LayerFateStep(w1, e);
  }

  lemma LayerFateStep(w: Worker, e: Report)
    ensures PauseFateOf(ResolveLayer(w, e)) == AfterPause(PauseFateOf(w), e)
  {
    ResolveLogIs(w, e);
  }

  lemma ResolveLogIs(w: Worker, e: Report)
    ensures ResolveLayer(w, e).log ==
            if w.layerPending.None? then w.log
            else if PausedNow(e) then Then(w.log, PauseConfirmed)
            else if Beyond(w.layerPending.value.layer, e) then Then(w.log, PauseUnconfirmed)
            else w.log
  {
  }

  lemma PreparePauseFate(w: Worker, e: Report)
    ensures PauseFateOf(SeeHoming(Attach(Reset(w, e), e), e))
            == if e.newJob then PauseFate(None, 0, 0) else PauseFateOf(w)
  {
    assert PauseFateOf(Reset(w, e)) == if e.newJob then PauseFate(None, 0, 0) else PauseFateOf(w);
    assert PauseFateOf(Attach(Reset(w, e), e)) == PauseFateOf(Reset(w, e));
  }

  lemma PassesPauseFate(w: Worker, e: Report, x: Input)
    ensures PauseFateOf(Homing(Startup(w, e, x.startup), e, x.homing)) == PauseFateOf(w)
  {
    CheckIs(w.(pass1Done := true), x.startup);
    LitFate(w.log, x.startup.online && AtStart(x.startup.doc), x.startup.doc);
    var w1 := Startup(w, e, x.startup);
    assert PauseFateOf(w1) == PauseFateOf(w);
    CheckIs(w1.(homingDone := true), x.homing);
    LitFate(w1.log, x.homing.online && AtStart(x.homing.doc), x.homing.doc);
  }

  /** A pause command that was accepted is pending at the layer shown when it was sent. */
  function AfterSend(f: PauseFate, sent: bool, c: LayerInput): PauseFate {
    if sent && c.paused then f.(pending := Some(Command(c.later.LayerOrZero(), false))) else f
  }

  lemma CheckLayerPauseFate(w: Worker, retry: bool, c: LayerInput)
    ensures PauseFateOf(CheckLayer(w, retry, c)) == AfterSend(PauseFateOf(w), CallsForPause(retry, c), c)
  {
    CheckLayerIs(w, retry, c);
    LitFate(w.log, MayPause(c.doc, c.online, retry), c.doc);
  }

  lemma LayersPauseFate(w: Worker, e: Report, on: bool, x: Input)
    ensures var due := w.layerRetryAt.Some? && AtSecondLayer(e) && x.now >= w.layerRetryAt.value;
            var made := FirstLayerComplete in e.kinds && on && !w.stopSent;
            PauseFateOf(FirstLayer(Retry(w, e, x.now, x.retry), e, on, x.first)) ==
            AfterSend(AfterSend(PauseFateOf(w), due && CallsForPause(true, x.retry), x.retry),
                      made && CallsForPause(false, x.first), x.first)
  {
    CheckLayerPauseFate(w.(layerRetryAt := None), true, x.retry);
    var w1 := Retry(w, e, x.now, x.retry);
    RetryPauses(w, e, x.now, x.retry);
    CheckLayerPauseFate(Note(w1, FirstLayerSeen), false, x.first);
  }

  /** What a report does to the pauses: it settles the one pending, and then a check may send another. */
  lemma ReportPauseFate(w: Worker, e: Report, on: bool, x: Input)
    requires !LinkChange(e)
    ensures var armed := if e.newJob then None else w.layerRetryAt;
            var due := armed.Some? && AtSecondLayer(e) && x.now >= armed.value;
            var made := FirstLayerComplete in e.kinds && on && !Handle(w, e, on, x).stopSent;
            var before := if e.newJob then PauseFate(None, 0, 0) else AfterPause(PauseFateOf(w), e);
            PauseFateOf(Handle(w, e, on, x)) ==
            AfterSend(AfterSend(before, due && CallsForPause(true, x.retry), x.retry),
                      made && CallsForPause(false, x.first), x.first)
  {
    ResolvePauseFate(w, e, x.resendDoc);
    ResolveKeepsPauses(w, e, x.resendDoc);
    var w1 := ResolveLayer(ResolveStop(w, e, x.resendDoc), e);
    PreparePauseFate(w1, e);
    PrepareLayers(w1, e);
    var w2 := SeeHoming(Attach(Reset(w1, e), e), e);
    PassesPauseFate(w2, e, x);
    PassesKeepPauses(w2, e, x.startup, x.homing);
    var w3 := Homing(Startup(w2, e, x.startup), e, x.homing);
    LayersPauseFate(w3, e, on, x);
    LayersKeepLatches(w3, e, on, x);
    assert Handle(w, e, on, x) == FirstLayer(Retry(w3, e, x.now, x.retry), e, on, x.first);
    assert w3.layerRetryAt == (if e.newJob then None else w.layerRetryAt);
    assert PauseFateOf(w3) == if e.newJob then PauseFate(None, 0, 0) else AfterPause(PauseFateOf(w), e);
  }

  /** The pauses after a report, told from the reports and answers of the print begun at report a. */
  lemma PauseFateStep(ws: seq<Worker>, reports: seq<Report>, on: bool, xs: seq<Input>, a: nat, k: nat)
    requires OnePrint(ws, reports, on, xs, a, k + 1) && !LinkChange(reports[k])
    ensures var x := xs[k];
            var before := if k == a then PauseFate(None, 0, 0) else AfterPause(PauseFateOf(ws[k]), reports[k]);
            PauseFateOf(ws[k + 1]) ==
            AfterSend(AfterSend(before, RetryDue(reports, xs, on, a, k) && CallsForPause(true, x.retry), x.retry),
                      FirstCheck(reports, xs, on, a, k) && CallsForPause(false, x.first), x.first)
  {
    PrintLatches(ws, reports, on, xs, a, k + 1);
    ReportPauseFate(ws[k], reports[k], on, xs[k]);
    if a < k {
      PausedIff(ws, reports, on, xs, a, k);
      RetryIsDue(ws[k].layerRetryAt, reports, xs, on, a, k);
    }
  }

  predicate NoWord(c: Command, e: Report) { LinkChange(e) || (!PausedNow(e) && !Beyond(c.layer, e)) }

  predicate NoWordBetween(c: Command, reports: seq<Report>, m: nat, i: nat)
    requires i <= |reports|
  {
    forall j :: m <= j < i ==> NoWord(c, reports[j])
  }

  ghost predicate PauseSteps(ws: seq<Worker>, reports: seq<Report>, m: nat, i: nat) {
    && |ws| == |reports| + 1 && i <= |reports|
    && forall j :: m <= j < i ==>
         PauseFateOf(ws[j + 1]) ==
         if LinkChange(reports[j]) then PauseFateOf(ws[j]) else AfterPause(PauseFateOf(ws[j]), reports[j])
  }

  lemma {:induction false} PauseStays(ws: seq<Worker>, reports: seq<Report>, m: nat, i: nat)
    requires PauseSteps(ws, reports, m, i) && m <= i
    requires ws[m].layerPending.Some? ==> NoWordBetween(ws[m].layerPending.value, reports, m, i)
    ensures PauseFateOf(ws[i]) == PauseFateOf(ws[m])
  {
    if m < i {
      PauseStays(ws, reports, m, i - 1);
      assert ws[m].layerPending.Some? ==> NoWord(ws[m].layerPending.value, reports[i - 1]);
      var f := PauseFateOf(ws[i - 1]);
      assert PauseFateOf(ws[i - 1 + 1]) == if LinkChange(reports[i - 1]) then f else AfterPause(f, reports[i - 1]);
    }
  }

  lemma QuietPauseSteps(ws: seq<Worker>, reports: seq<Report>, on: bool, xs: seq<Input>, a: nat, m: nat, i: nat)
    requires OnePrint(ws, reports, on, xs, a, i) && a < m <= i
    requires forall k :: m <= k < i ==> PausesAt(reports, xs, on, a, k) == 0
    ensures PauseSteps(ws, reports, m, i)
  {
    forall j | m <= j < i
      ensures PauseFateOf(ws[j + 1]) ==
        if LinkChange(reports[j]) then PauseFateOf(ws[j]) else AfterPause(PauseFateOf(ws[j]), reports[j])
    {
      assert PausesAt(reports, xs, on, a, j) == 0;
      if !LinkChange(reports[j]) {
        PauseFateStep(ws, reports, on, xs, a, j);
      } else {
        assert ws[j + 1] == Handle(ws[j], reports[j], on, xs[j]);
      }
    }
  }

  /**
   The fate of a pause pending in state m while no other is sent: it waits until the first report that says something
   about it, which confirms it if the printer is paused and leaves it unconfirmed if it prints above the layer shown
   when the pause was sent.
   */
  lemma PauseIsSettled(ws: seq<Worker>, reports: seq<Report>, on: bool, xs: seq<Input>, a: nat, m: nat, i: nat)
    requires OnePrint(ws, reports, on, xs, a, i) && a < m <= i && ws[m].layerPending.Some?
    requires forall k :: m <= k < i ==> PausesAt(reports, xs, on, a, k) == 0
    ensures var c, f := ws[m].layerPending.value, PauseFateOf(ws[m]);
            && (NoWordBetween(c, reports, m, i) ==> PauseFateOf(ws[i]) == f)
            && forall j :: m <= j < i && NoWordBetween(c, reports, m, j) && !NoWord(c, reports[j]) ==>
                 PauseFateOf(ws[i]) ==
                 if PausedNow(reports[j]) then PauseFate(None, f.confirmed + 1, f.unconfirmed)
                 else PauseFate(None, f.confirmed, f.unconfirmed + 1)
  {
    var c, f := ws[m].layerPending.value, PauseFateOf(ws[m]);
    QuietPauseSteps(ws, reports, on, xs, a, m, i);
    if NoWordBetween(c, reports, m, i) {
      PauseStays(ws, reports, m, i);
    }
    forall j | m <= j < i && NoWordBetween(c, reports, m, j) && !NoWord(c, reports[j])
      ensures PauseFateOf(ws[i]) == AfterPause(f, reports[j])
    {
      PauseStays(ws, reports, m, j);
      assert PauseFateOf(ws[j + 1]) == AfterPause(PauseFateOf(ws[j]), reports[j]);
      PauseStays(ws, reports, j + 1, i);
    }
  }
}
