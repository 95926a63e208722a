/**
 Every interleaving of calls on the report store. eventMu is held from before the change until every subscriber
 has the event; the section under mu is one step; recording and dispatching happen outside mu.
 */
module StoreProtocol {
  import opened Options
  import opened Doc
  import opened Events
  import opened EventChain
  import opened StoreState

  datatype Pc =
    | Wants(op: Op)       // before eventMu
    | Holds(op: Op)       // eventMu held, entry not yet changed
    | Records(e: Event)   // entry changed, transitions not yet recorded
    | Tells(e: Event)     // recorded, subscribers not yet told
    | Releases
    | Done

  datatype World = World(
    printers: Entries, holder: Option<nat>, pcs: map<nat, Pc>, recorded: seq<Record>, dispatched: seq<Event>,
    ops: seq<Op>) // history: the calls in the order they had the lock

  datatype Step =
    | Call(t: nat, op: Op)
    | Lock(t: nat)
    | Changes(t: nat, oldProblems: seq<Problem>, newProblems: seq<Problem>)
    | RecordsAll(t: nat)
    | TellsAll(t: nat)
    | Unlock(t: nat)

  predicate Enabled(w: World, step: Step) {
    match step
    case Call(t, _) => t !in w.pcs
    case Lock(t) => t in w.pcs && w.pcs[t].Wants? && w.holder.None?
    case Changes(t, _, _) => t in w.pcs && w.pcs[t].Holds?
    case RecordsAll(t) => t in w.pcs && w.pcs[t].Records?
    case TellsAll(t) => t in w.pcs && w.pcs[t].Tells?
    case Unlock(t) => t in w.pcs && w.pcs[t].Releases?
  }

  function Goto(w: World, t: nat, pc: Pc): World { w.(pcs := w.pcs[t := pc]) }

  function DoChange(w: World, t: nat, op: Op, oldProblems: seq<Problem>, newProblems: seq<Problem>): World {
    var (ps, event) := Change(w.printers, op, oldProblems, newProblems);
    Goto(w.(printers := ps, ops := w.ops + [op]), t, if event.Some? then Records(event.value) else Releases)
  }

  function Next(w: World, step: Step): World
    requires Enabled(w, step)
  {
    match step
    case Call(t, op) => Goto(w, t, Wants(op))
    case Lock(t) => Goto(w.(holder := Some(t)), t, Holds(w.pcs[t].op))
    case Changes(t, oldProblems, newProblems) => DoChange(w, t, w.pcs[t].op, oldProblems, newProblems)
    case RecordsAll(t) => Goto(w.(recorded := w.recorded + RecordsOf(w.pcs[t].e)), t, Tells(w.pcs[t].e))
    case TellsAll(t) => Goto(w.(dispatched := w.dispatched + [w.pcs[t].e]), t, Releases)
    case Unlock(t) => Goto(w.(holder := None), t, Done)
  }

  predicate IsInitial(w: World) {
    && (forall s :: s in w.printers ==> w.printers[s] == Stored(Empty, false, None))
    && w.holder.None? && w.pcs == map[] && w.recorded == [] && w.dispatched == [] && w.ops == []
  }

  ghost predicate Run(ws: seq<World>, steps: seq<Step>) {
    && |ws| == |steps| + 1 && IsInitial(ws[0])
    && forall i :: 0 <= i < |steps| ==> Enabled(ws[i], steps[i]) && ws[i + 1] == Next(ws[i], steps[i])
  }

  // The invariant.

  predicate Holding(pc: Pc) { pc.Holds? || pc.Records? || pc.Tells? || pc.Releases? }

  ghost predicate HoldOk(w: World) {
    && (w.holder.Some? ==> w.holder.value in w.pcs)
    && forall t :: t in w.pcs ==> (Holding(w.pcs[t]) <==> w.holder == Some(t))
  }

  /** The event that changed an entry but has not reached the subscribers. */
  function Untold(w: World): seq<Event> {
    if w.holder.None? || w.holder.value !in w.pcs then []
    else
      match w.pcs[w.holder.value]
      case Records(e) => [e]
      case Tells(e) => [e]
      case _ => []
  }

  function Unrecorded(w: World): seq<Event> {
    if w.holder.None? || w.holder.value !in w.pcs || !w.pcs[w.holder.value].Records? then []
    else [w.pcs[w.holder.value].e]
  }

  function AllRecords(evs: seq<Event>): seq<Record> {
    if evs == [] then [] else AllRecords(evs[..|evs| - 1]) + RecordsOf(evs[|evs| - 1])
  }

  /**
   Entries stand at the end of what was or is about to be dispatched; records run ahead of it by at most that
   event.
   */
  ghost predicate StoreOk(w: World) {
    && EntriesOk(w.printers, w.dispatched + Untold(w))
    && AllRecords(w.dispatched + Untold(w)) == w.recorded + AllRecords(Unrecorded(w))
  }

  lemma StepKeepsHold(w: World, step: Step)
    requires HoldOk(w) && Enabled(w, step)
    ensures HoldOk(Next(w, step))
  {
  }

  lemma RecordsSnoc(evs: seq<Event>, e: Event)
    ensures AllRecords(evs + [e]) == AllRecords(evs) + RecordsOf(e)
    ensures AllRecords([e]) == RecordsOf(e)
  {
    assert (evs + [e])[..|evs|] == evs;
    assert [e][..0] == [];
  }

  lemma UpdateKeepsStore(w: World, t: nat, ps: Entries, e: Event)
    requires HoldOk(w) && StoreOk(w) && t in w.pcs && w.pcs[t].Holds? && EntriesOk(ps, w.dispatched + [e])
    ensures StoreOk(Goto(w.(printers := ps), t, Records(e)))
  {
    assert w.holder == Some(t) && w.dispatched + [] == w.dispatched && w.recorded + [] == w.recorded;
    RecordsSnoc(w.dispatched, e);
    var w' := Goto(w.(printers := ps), t, Records(e));
    assert Untold(w') == [e] && Unrecorded(w') == [e];
  }

  lemma NothingKeepsStore(w: World, t: nat)
    requires HoldOk(w) && StoreOk(w) && t in w.pcs && w.pcs[t].Holds?
    ensures StoreOk(Goto(w, t, Releases))
  {
    assert w.holder == Some(t);
    var w' := Goto(w, t, Releases);
    assert Untold(w') == Untold(w) && Unrecorded(w') == Unrecorded(w);
  }

  lemma ChangeKeepsStore(w: World, t: nat, oldProblems: seq<Problem>, newProblems: seq<Problem>)
    requires HoldOk(w) && StoreOk(w) && Enabled(w, Changes(t, oldProblems, newProblems))
    ensures StoreOk(DoChange(w, t, w.pcs[t].op, oldProblems, newProblems))
  {
    var op := w.pcs[t].op;
    ChangeUpdates(w.printers, op, oldProblems, newProblems);
    var (ps, event) := Change(w.printers, op, oldProblems, newProblems);
    var w' := w.(ops := w.ops + [op]);
    assert w.holder == Some(t) && w.dispatched + [] == w.dispatched;
    assert StoreOk(w') && HoldOk(w');
    if event.Some? {
      UpdateKeepsEntries(w.printers, ps, w.dispatched, event.value);
      UpdateKeepsStore(w', t, ps, event.value);
    } else {
      NothingKeepsStore(w', t);
    }
  }

  lemma RecordKeepsStore(w: World, t: nat)
    requires HoldOk(w) && StoreOk(w) && Enabled(w, RecordsAll(t))
    ensures StoreOk(Next(w, RecordsAll(t)))
  {
    var e := w.pcs[t].e;
    assert w.holder == Some(t) && Untold(w) == [e] && Unrecorded(w) == [e];
    RecordsSnoc(w.dispatched, e);
    var w' := Next(w, RecordsAll(t));
    assert Untold(w') == [e] && Unrecorded(w') == [] && w'.recorded + [] == w'.recorded;
  }

  lemma TellKeepsStore(w: World, t: nat)
    requires HoldOk(w) && StoreOk(w) && Enabled(w, TellsAll(t))
    ensures StoreOk(Next(w, TellsAll(t)))
  {
    var e := w.pcs[t].e;
    assert w.holder == Some(t) && Untold(w) == [e] && Unrecorded(w) == [];
    var w' := Next(w, TellsAll(t));
    assert Untold(w') == [] && Unrecorded(w') == [] && w'.dispatched + [] == w.dispatched + [e];
  }

  lemma MoveKeepsStore(w: World, step: Step)
    requires HoldOk(w) && StoreOk(w) && Enabled(w, step) && (step.Call? || step.Lock? || step.Unlock?)
    ensures StoreOk(Next(w, step))
  {
    assert Untold(Next(w, step)) == Untold(w) && Unrecorded(Next(w, step)) == Unrecorded(w);
  }

  lemma StepKeepsStore(w: World, step: Step)
    requires HoldOk(w) && StoreOk(w) && Enabled(w, step)
    ensures StoreOk(Next(w, step))
  {
    match step {
      case Changes(t, oldProblems, newProblems) => ChangeKeepsStore(w, t, oldProblems, newProblems);
      case RecordsAll(t) => RecordKeepsStore(w, t);
      case TellsAll(t) => TellKeepsStore(w, t);
      case _ => MoveKeepsStore(w, step);
    }
  }

  lemma InitialIsOk(w: World)
    requires IsInitial(w)
    ensures HoldOk(w) && StoreOk(w)
  {
    forall s | s in w.printers ensures EntryOk(w.printers[s], EventsOf([], s)) {}
    assert w.dispatched + Untold(w) == [];
  }

  lemma {:induction false} RunKeeps(ws: seq<World>, steps: seq<Step>, i: nat)
    requires Run(ws, steps) && i < |ws|
    ensures HoldOk(ws[i]) && StoreOk(ws[i])
  {
    if i == 0 {
      InitialIsOk(ws[0]);
    } else {
      RunKeeps(ws, steps, i - 1);
      StepKeepsHold(ws[i - 1], steps[i - 1]);
      StepKeepsStore(ws[i - 1], steps[i - 1]);
    }
  }

  // What subscribers see.

  lemma ChainFront(evs: seq<Event>, e: Event)
    requires Chain(evs + [e])
    ensures Chain(evs)
  {
    var all := evs + [e];
    forall i | 0 <= i < |evs| ensures Follows(DocAt(evs, i), OnlineAt(evs, i), evs[i]) {
      assert all[i] == evs[i] && DocAt(all, i) == DocAt(evs, i) && OnlineAt(all, i) == OnlineAt(evs, i);
      assert Follows(DocAt(all, i), OnlineAt(all, i), all[i]);
    }
  }

  /**
   However calls interleave, each configured printer's events reach every subscriber as one chain from the empty
   document, and whenever eventMu is free the stored entry is the end of that chain and the activity log holds
   exactly the transitions of the dispatched events, in order.
   */
  lemma SubscribersSeeChains(ws: seq<World>, steps: seq<Step>, i: nat, serial: string)
    requires Run(ws, steps) && i < |ws| && serial in ws[i].printers
    ensures Chain(EventsOf(ws[i].dispatched, serial))
    ensures ws[i].holder.None? ==>
              && EntryOk(ws[i].printers[serial], EventsOf(ws[i].dispatched, serial))
              && ws[i].recorded == AllRecords(ws[i].dispatched)
  {
    RunKeeps(ws, steps, i);
    var w := ws[i];
    assert EntryOk(w.printers[serial], EventsOf(w.dispatched + Untold(w), serial));
    if Untold(w) == [] {
      assert w.dispatched + Untold(w) == w.dispatched;
    } else {
      var e := Untold(w)[0];
      assert Untold(w) == [e];
      EventsOfSnoc(w.dispatched, e, serial);
      if e.serial == serial {
        ChainFront(EventsOf(w.dispatched, serial), e);
      } else {
        assert EventsOf(w.dispatched, serial) + [] == EventsOf(w.dispatched, serial);
      }
    }
    if w.holder.None? {
      assert w.recorded + [] == w.recorded;
    }
  }

  // What the store holds.

  /** The reports of one printer, in order. */
  function DeltasOf(ops: seq<Op>, serial: string): seq<Fields> {
    if ops == [] then []
    else
      var last := ops[|ops| - 1];
      DeltasOf(ops[..|ops| - 1], serial) + if last.Report? && last.serial == serial then [last.delta] else []
  }

  function LastReportAt(ops: seq<Op>, serial: string): Option<int> {
    if ops == [] then None
    else
      var last := ops[|ops| - 1];
      if last.Report? && last.serial == serial then Some(last.now) else LastReportAt(ops[..|ops| - 1], serial)
  }

  function LastLink(ops: seq<Op>, serial: string): bool {
    if ops == [] then false
    else
      var last := ops[|ops| - 1];
      if last.Link? && last.serial == serial then last.online else LastLink(ops[..|ops| - 1], serial)
  }

  /** Every report makes an event, and so does every change of connectivity. */
  function EventsMade(ops: seq<Op>, serial: string): nat {
    if ops == [] then 0
    else
      var front, last := ops[..|ops| - 1], ops[|ops| - 1];
      EventsMade(front, serial)
      + if last.serial == serial && (last.Report? || last.online != LastLink(front, serial)) then 1 else 0
  }

  lemma {:induction false} ApplySnoc(d: Fields, deltas: seq<Fields>, delta: Fields)
    ensures Doc.Apply(d, deltas + [delta]) == MergeDoc(Doc.Apply(d, deltas), delta, true)
    decreases |deltas|
  {
    if deltas == [] {
      assert ([delta])[1..] == [];
    } else {
      ApplySnoc(MergeDoc(d, deltas[0], true), deltas[1..], delta);
      assert (deltas + [delta])[1..] == deltas[1..] + [delta];
    }
  }

  /** One printer's entry and events, read off the calls. */
  ghost predicate HistoryOk(p: Stored, told: seq<Event>, ops: seq<Op>, serial: string) {
    && p.doc == Doc.Apply(Empty, DeltasOf(ops, serial))
    && p.online == LastLink(ops, serial) && p.reportedAt == LastReportAt(ops, serial)
    && |EventsOf(told, serial)| == EventsMade(ops, serial)
  }

  lemma OneMoreOp(ops: seq<Op>, op: Op, serial: string)
    ensures var all := ops + [op];
            && DeltasOf(all, serial)
               == DeltasOf(ops, serial) + (if op.Report? && op.serial == serial then [op.delta] else [])
            && LastReportAt(all, serial)
               == (if op.Report? && op.serial == serial then Some(op.now) else LastReportAt(ops, serial))
            && LastLink(all, serial) == (if op.Link? && op.serial == serial then op.online else LastLink(ops, serial))
            && EventsMade(all, serial)
               == EventsMade(ops, serial)
                  + if op.serial == serial && (op.Report? || op.online != LastLink(ops, serial)) then 1 else 0
  {
    assert (ops + [op])[..|ops|] == ops;
  }

  /** What one call does to this printer's entry, and whether its event is this printer's. */
  lemma ChangeOf(ps: Entries, op: Op, oldProblems: seq<Problem>, newProblems: seq<Problem>, serial: string)
    requires serial in ps
    ensures var (ps', event) := Change(ps, op, oldProblems, newProblems);
            && ps'.Keys == ps.Keys
            && ps'[serial] == (if op.serial != serial then ps[serial]
                               else if op.Report? then
                                 Stored(MergeDoc(ps[serial].doc, op.delta, true), ps[serial].online, Some(op.now))
                               else ps[serial].(online := op.online))
            && (event.Some? ==> event.value.serial == op.serial)
            && (op.serial == serial ==> (event.Some? <==> op.Report? || op.online != ps[serial].online))
  {
  }

  lemma ChangeKeepsHistory(ps: Entries, op: Op, oldProblems: seq<Problem>, newProblems: seq<Problem>,
                           told: seq<Event>, ops: seq<Op>, serial: string)
    requires serial in ps && HistoryOk(ps[serial], told, ops, serial)
    ensures var (ps', event) := Change(ps, op, oldProblems, newProblems);
            && ps'.Keys == ps.Keys
            && HistoryOk(ps'[serial], told + (if event.Some? then [event.value] else []), ops + [op], serial)
  {
    var event := Change(ps, op, oldProblems, newProblems).1;
    ChangeOf(ps, op, oldProblems, newProblems, serial);
    OneMoreOp(ops, op, serial);
    if event.Some? {
      EventsOfSnoc(told, event.value, serial);
    } else {
      assert told + [] == told;
    }
    if op.Report? && op.serial == serial {
      ApplySnoc(Empty, DeltasOf(ops, serial), op.delta);
    } else {
      assert DeltasOf(ops, serial) + [] == DeltasOf(ops, serial);
    }
  }

  lemma StepKeepsHistory(w: World, step: Step, serial: string)
    requires HoldOk(w) && Enabled(w, step) && serial in w.printers
    requires HistoryOk(w.printers[serial], w.dispatched + Untold(w), w.ops, serial)
    ensures var w' := Next(w, step);
            && w'.printers.Keys == w.printers.Keys
            && HistoryOk(w'.printers[serial], w'.dispatched + Untold(w'), w'.ops, serial)
  {
    var w' := Next(w, step);
    if step.Changes? {
      var op := w.pcs[step.t].op;
      assert w.holder == Some(step.t) && Untold(w) == [] && w.dispatched + [] == w.dispatched;
      ChangeKeepsHistory(w.printers, op, step.oldProblems, step.newProblems, w.dispatched, w.ops, serial);
      var event := Change(w.printers, op, step.oldProblems, step.newProblems).1;
      assert Untold(w') == if event.Some? then [event.value] else [];
    } else if step.TellsAll? {
      var e := w.pcs[step.t].e;
      assert w.holder == Some(step.t) && Untold(w) == [e] && Untold(w') == [];
      assert w'.dispatched + [] == w.dispatched + [e];
    } else {
      assert Untold(w') == Untold(w);
    }
  }

  /**
   However calls interleave, a configured printer's document is the merge of all its reports, its connectivity the last
   one set and its time the last report's, in the order the calls had the lock; and each report and each change of
   connectivity makes exactly one event, dispatched by the time eventMu is free.
   */
  lemma {:induction false} StoreIsHistory(ws: seq<World>, steps: seq<Step>, i: nat, serial: string)
    requires Run(ws, steps) && i < |ws| && serial in ws[0].printers
    ensures serial in ws[i].printers
    ensures HistoryOk(ws[i].printers[serial], ws[i].dispatched + Untold(ws[i]), ws[i].ops, serial)
    ensures ws[i].holder.None? ==> |EventsOf(ws[i].dispatched, serial)| == EventsMade(ws[i].ops, serial)
  {
    if i == 0 {
      assert ws[0].dispatched + Untold(ws[0]) == [];
    } else {
      StoreIsHistory(ws, steps, i - 1, serial);
      RunKeeps(ws, steps, i - 1);
      StepKeepsHistory(ws[i - 1], steps[i - 1], serial);
    }
    if ws[i].holder.None? {
      assert ws[i].dispatched + [] == ws[i].dispatched;
    }
  }
}
