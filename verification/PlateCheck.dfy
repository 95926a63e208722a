/**
 The plate-check worker of one printer: the latches that decide which report may lead to a check, a
 stop, a resend or a first-layer pause. Camera frames, provider verdicts, command results, the state
 store's later answers and the clock are inputs.
 */
module PlateState {
  import opened Options
  import opened Doc
  import opened Events

  const LAYER_RETRY_DELAY: int := 15_000_000_000 // nanoseconds

  datatype Command = Command(layer: int, prepare: bool)

  /** What the worker did or took note of, in order. */
  datatype Act =
    | NewPrint | Attached | FirstLayerSeen
    | StopSent(resend: bool) | Stopped | StopUnconfirmed
    | PauseSent | PauseConfirmed | PauseUnconfirmed
    | LightSent

  datatype Log = Nothing | Then(before: Log, last: Act)

  datatype Worker = Worker(
    pass1Done: bool, homingSeen: bool, homingDone: bool, stopSent: bool,
    pending: Option<Command>, layerPending: Option<Command>, layerRetryAt: Option<int>,
    log: Log)

  const Fresh := Worker(false, false, false, false, None, None, None, Nothing)

  datatype Decision = Inconclusive | Clear | BelowThreshold | WouldStop

  /** The answers one startup check meets: the store before and after, the camera, the provider, the deadline. */
  datatype CheckInput = CheckInput(
    doc: View, online: bool, captured: bool, evaluated: bool, decision: Decision,
    later: View, laterOnline: bool, expired: bool)

  datatype LayerDecision = PauseDecision | Warning | Unclear | Passed

  datatype LayerInput = LayerInput(
    doc: View, online: bool, captured: bool, evaluated: bool, decision: LayerDecision, limited: bool, now: int,
    later: View, laterOnline: bool, expired: bool, paused: bool)

  datatype Input = Input(
    resendDoc: View, startup: CheckInput, homing: CheckInput, now: int, retry: LayerInput, first: LayerInput)

  function Note(w: Worker, a: Act): Worker {
    w.(log := Then(w.log, a))
  }

  datatype Reason = PrintPastStart | PrinterOffline | LayerNotReported | PrintEnded | NotPrinting

  /** Why a startup check must not act on this document, if there is a reason. */
  function StartupReason(doc: View, online: bool): Option<Reason> {
    var preparing := Preparing(doc.State());
    if doc.layer.Some? && doc.layer.value > 0 && !preparing then Some(PrintPastStart)
    else if !online then Some(PrinterOffline)
    else if preparing then None
    else if doc.State().Running? then (if doc.layer.Some? then None else Some(LayerNotReported))
    else Some(PrintEnded)
  }

  /** Why a first-layer check must not act on the live state, if there is a reason. */
  function LayerLiveReason(online: bool, state: Gcode, layer: Option<int>, retry: bool): Option<Reason> {
    if retry && !online then Some(PrinterOffline)
    else if !online || !state.Running? then Some(NotPrinting)
    else if retry && layer.None? then Some(LayerNotReported)
    else if retry && layer.value != 2 then Some(PrintPastStart)
    else None
  }

  function LightUp(w: Worker, doc: View): Worker {
    if doc.light == Some(LightOff) then Note(w, LightSent) else w
  }

  function Check(w: Worker, c: CheckInput): Worker {
    if StartupReason(c.doc, c.online).Some? then w
    else
      var w1 := LightUp(w, c.doc);
      var stops := c.captured && c.evaluated && c.decision.WouldStop?;
      if stops && StartupReason(c.later, c.laterOnline).None? && !c.expired then
        var command := Command(c.later.LayerOrZero(), c.later.State().Prepare?);
        Note(w1.(stopSent := true, pending := Some(command)), StopSent(false))
      else w1
  }

  function CheckLayer(w: Worker, retry: bool, c: LayerInput): Worker {
    if LayerLiveReason(c.online, c.doc.State(), c.doc.layer, retry).Some? then w
    else
      var w1 := LightUp(w, c.doc);
      if !c.captured || !c.evaluated then w1
      else if !c.decision.PauseDecision? then
        if !retry && c.limited && c.doc.layer == Some(2) then w1.(layerRetryAt := Some(c.now + LAYER_RETRY_DELAY))
        else w1
      else if LayerLiveReason(c.laterOnline, c.later.State(), c.later.layer, retry).Some? || c.expired then w1
      else
        var w2 := Note(w1, PauseSent);
        if c.paused then w2.(layerPending := Some(Command(c.later.LayerOrZero(), false))) else w2
  }

  /** A report may settle a pending stop, or ask for its one repetition. */
  function ResolveStop(w: Worker, e: Report, resendDoc: View): Worker {
    var state, prev, layer := e.cur.State(), e.prev.State(), e.cur.layer;
    if w.pending.None? then w
    else if IsPaused(state) || state.Idle? || state.Finish? || state.Failed? then Note(w.(pending := None), Stopped)
    else if w.pending.value.prepare && prev.Prepare? && state.Running? then
      Note(w.(pending := Some(Command(resendDoc.LayerOrZero(), false))), StopSent(true))
    else if state.Running? && layer.Some? && layer.value > w.pending.value.layer then
      Note(w.(pending := None), StopUnconfirmed)
    else w
  }

  function ResolveLayer(w: Worker, e: Report): Worker {
    var state, layer := e.cur.State(), e.cur.layer;
    if w.layerPending.None? then w
    else if IsPaused(state) then Note(w.(layerPending := None), PauseConfirmed)
    else if state.Running? && layer.Some? && layer.value > w.layerPending.value.layer then
      Note(w.(layerPending := None), PauseUnconfirmed)
    else w
  }

  function Reset(w: Worker, e: Report): Worker {
    if e.newJob then
      Note(w.(pass1Done := false, homingSeen := false, homingDone := false, stopSent := false,
              pending := None, layerPending := None, layerRetryAt := None), NewPrint)
    else w
  }

  function Attach(w: Worker, e: Report): Worker {
    if StateInitial in e.kinds then Note(w.(pass1Done := true, homingDone := true), Attached) else w
  }

  function SeeHoming(w: Worker, e: Report): Worker {
    if e.cur.stage == Some(13) || e.cur.stage == Some(14) then w.(homingSeen := true) else w
  }

  function Startup(w: Worker, e: Report, c: CheckInput): Worker {
    if Begins(e.kinds) && !w.pass1Done then Check(w.(pass1Done := true), c) else w
  }

  function Homing(w: Worker, e: Report, c: CheckInput): Worker {
    var state, layer := e.cur.State(), e.cur.layer;
    if !w.homingSeen || !w.pass1Done || w.homingDone || w.stopSent then w
    else if layer.Some? && layer.value > 0 && !Preparing(state) then w.(homingDone := true)
    else if state.Running? && layer == Some(0) then Check(w.(homingDone := true), c)
    else w
  }

  function Retry(w: Worker, e: Report, now: int, c: LayerInput): Worker {
    if w.layerRetryAt.None? then w
    else if !e.cur.State().Running? || e.cur.layer != Some(2) then w.(layerRetryAt := None)
    else if now >= w.layerRetryAt.value then CheckLayer(w.(layerRetryAt := None), true, c)
    else w
  }

  function FirstLayer(w: Worker, e: Report, on: bool, c: LayerInput): Worker {
    if FirstLayerComplete !in e.kinds then w
    else
      var w1 := Note(w, FirstLayerSeen);
      if on && !w.stopSent then CheckLayer(w1, false, c) else w1
  }

  /** One event; on tells whether first-layer checks are configured. */
  function Handle(w: Worker, e: Report, on: bool, x: Input): Worker {
    if Connected in e.kinds || Disconnected in e.kinds then w
    else
      var w1 := ResolveLayer(ResolveStop(w, e, x.resendDoc), e);
      var w2 := SeeHoming(Attach(Reset(w1, e), e), e);
      var w3 := Homing(Startup(w2, e, x.startup), e, x.homing);
      FirstLayer(Retry(w3, e, x.now, x.retry), e, on, x.first)
  }
}

/** The worker object: the same handling step by step on its fields. */
module PlateObject {
  import opened Options
  import opened Doc
  import opened Events
  import P = PlateState

  class PlateWorker {
    const firstLayerOn: bool
    var pass1Done: bool
    var homingSeen: bool
    var homingDone: bool
    var stopSent: bool
    var pending: Option<P.Command>
    var layerPending: Option<P.Command>
    var layerRetryAt: Option<int>
    var log: P.Log

    function Latches(): P.Worker
      reads this
    {
      P.Worker(pass1Done, homingSeen, homingDone, stopSent, pending, layerPending, layerRetryAt, log)
    }

    constructor (firstLayerOn: bool)
      ensures Latches() == P.Fresh && this.firstLayerOn == firstLayerOn
    {
      this.firstLayerOn := firstLayerOn;
      pass1Done, homingSeen, homingDone, stopSent := false, false, false, false;
      pending, layerPending, layerRetryAt, log := None, None, None, P.Nothing;
    }

    method LightUp(doc: View)
      modifies this
      ensures Latches() == P.LightUp(old(Latches()), doc)
    {
      if doc.light == Some(LightOff) {
        log := P.Then(log, P.LightSent);
      }
    }

    method SendStop(resend: bool)
      modifies this
      ensures Latches() == P.Note(old(Latches()), P.StopSent(resend))
    {
      log := P.Then(log, P.StopSent(resend));
    }

    method Check(c: P.CheckInput)
      modifies this
      ensures Latches() == P.Check(old(Latches()), c)
    {
      if P.StartupReason(c.doc, c.online).Some? {
        return;
      }
      LightUp(c.doc);
      if !c.captured {
        return;
      }
      if !c.evaluated {
        return;
      }
      if c.decision == P.WouldStop {
        if P.StartupReason(c.later, c.laterOnline).Some? {
          return;
        }
        if c.expired {
          return;
        }
        stopSent := true;
        pending := Some(P.Command(c.later.LayerOrZero(), c.later.State().Prepare?));
        SendStop(false);
      }
    }

    method CheckLayer(retry: bool, c: P.LayerInput)
      modifies this
      ensures Latches() == P.CheckLayer(old(Latches()), retry, c)
    {
      if P.LayerLiveReason(c.online, c.doc.State(), c.doc.layer, retry).Some? {
        return;
      }
      LightUp(c.doc);
      if !c.captured || !c.evaluated {
        return;
      }
      if c.decision != P.PauseDecision {
        if !retry && c.limited && c.doc.layer == Some(2) {
          layerRetryAt := Some(c.now + P.LAYER_RETRY_DELAY);
        }
        return;
      }
      if P.LayerLiveReason(c.laterOnline, c.later.State(), c.later.layer, retry).Some? {
        return;
      }
      if c.expired {
        return;
      }
      log := P.Then(log, P.PauseSent);
      if !c.paused {
        return;
      }
      layerPending := Some(P.Command(c.later.LayerOrZero(), false));
    }

    method Resolve(e: Report, resendDoc: View)
      modifies this
      ensures Latches() == P.ResolveLayer(P.ResolveStop(old(Latches()), e, resendDoc), e)
    {
      var state, prev, layer := e.cur.State(), e.prev.State(), e.cur.layer;
      var ended := state.Idle? || state.Finish? || state.Failed?;
      if pending.Some? {
        if IsPaused(state) || ended {
          log := P.Then(log, P.Stopped);
          pending := None;
        } else if pending.value.prepare && prev.Prepare? && state.Running? {
          pending := Some(P.Command(resendDoc.LayerOrZero(), false));
          SendStop(true);
        } else if state.Running? && layer.Some? && layer.value > pending.value.layer {
          log := P.Then(log, P.StopUnconfirmed);
          pending := None;
        }
      }
      if layerPending.Some? {
        if IsPaused(state) {
          log := P.Then(log, P.PauseConfirmed);
          layerPending := None;
        } else if state.Running? && layer.Some? && layer.value > layerPending.value.layer {
          log := P.Then(log, P.PauseUnconfirmed);
          layerPending := None;
        }
      }
    }

    method Prepare(e: Report)
      modifies this
      ensures Latches() == P.SeeHoming(P.Attach(P.Reset(old(Latches()), e), e), e)
    {
      if e.newJob {
        pass1Done, homingSeen, homingDone, stopSent := false, false, false, false;
        pending, layerPending, layerRetryAt := None, None, None;
        log := P.Then(log, P.NewPrint);
      }
      if StateInitial in e.kinds {
        pass1Done, homingDone := true, true;
        log := P.Then(log, P.Attached);
      }
      if e.cur.stage == Some(13) || e.cur.stage == Some(14) {
        homingSeen := true;
      }
    }

    method StartupPasses(e: Report, startup: P.CheckInput, homing: P.CheckInput)
      modifies this
      ensures Latches() == P.Homing(P.Startup(old(Latches()), e, startup), e, homing)
    {
      var state, layer := e.cur.State(), e.cur.layer;
      if Begins(e.kinds) && !pass1Done {
        pass1Done := true;
        Check(startup);
      }
      if homingSeen && pass1Done && !homingDone && !stopSent {
        if layer.Some? && layer.value > 0 && !Preparing(state) {
          homingDone := true;
        } else if state.Running? && layer == Some(0) {
          homingDone := true;
          Check(homing);
        }
      }
    }

    method LayerPasses(e: Report, now: int, retry: P.LayerInput, first: P.LayerInput)
      modifies this
      ensures Latches() == P.FirstLayer(P.Retry(old(Latches()), e, now, retry), e, firstLayerOn, first)
    {
      if layerRetryAt.Some? {
        if !e.cur.State().Running? || e.cur.layer != Some(2) {
          layerRetryAt := None;
        } else if now >= layerRetryAt.value {
          layerRetryAt := None;
          CheckLayer(true, retry);
        }
      }
      if FirstLayerComplete in e.kinds {
        log := P.Then(log, P.FirstLayerSeen);
        if firstLayerOn && !stopSent {
          CheckLayer(false, first);
        }
      }
    }

    method Handle(e: Report, x: P.Input)
      modifies this
      ensures Latches() == P.Handle(old(Latches()), e, firstLayerOn, x)
    {
      if Connected in e.kinds || Disconnected in e.kinds {
        return;
      }
      Resolve(e, x.resendDoc);
      Prepare(e);
      StartupPasses(e, x.startup, x.homing);
      LayerPasses(e, x.now, x.retry, x.first);
    }
  }
}
