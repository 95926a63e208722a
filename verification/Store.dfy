/** What a subscriber may rely on about the events of one printer, started at the empty document. */
module EventChain {
  import opened Doc
  import opened Events

  const Empty: Fields := map[]

  function DocAt(evs: seq<Event>, i: nat): Fields
    requires i <= |evs|
  {
    if i == 0 then Empty else evs[i - 1].cur
  }

  function OnlineAt(evs: seq<Event>, i: nat): bool
    requires i <= |evs|
  {
    i > 0 && evs[i - 1].online
  }

  /** e is a merged report on top of document d, or a connectivity change that leaves it alone. */
  ghost predicate Follows(d: Fields, online: bool, e: Event) {
    e.prev == d && (IsReport(d, online, e) || IsLink(d, online, e))
  }

  ghost predicate IsReport(d: Fields, online: bool, e: Event) {
    && e.online == online && e.newJob == NewJob(Look(d), Look(e.cur))
    && (exists delta :: e.cur == MergeDoc(d, delta, true))
    && (exists oldProblems, newProblems :: e.kinds == Transitions(Look(d), Look(e.cur), oldProblems, newProblems))
  }

  ghost predicate IsLink(d: Fields, online: bool, e: Event) {
    e.cur == d && e.online != online && !e.newJob && e.kinds == [if e.online then Connected else Disconnected]
  }

  ghost predicate Chain(evs: seq<Event>) {
    forall i :: 0 <= i < |evs| ==> Follows(DocAt(evs, i), OnlineAt(evs, i), evs[i])
  }

  lemma ChainExtends(evs: seq<Event>, e: Event)
    requires Chain(evs) && Follows(DocAt(evs, |evs|), OnlineAt(evs, |evs|), e)
    ensures Chain(evs + [e])
  {
    var all := evs + [e];
    forall i | 0 <= i < |all|
      ensures Follows(DocAt(all, i), OnlineAt(all, i), all[i])
    {
      assert DocAt(all, i) == DocAt(evs, i) && OnlineAt(all, i) == OnlineAt(evs, i);
      if i < |evs| {
        assert all[i] == evs[i] && Follows(DocAt(evs, i), OnlineAt(evs, i), evs[i]);
      } else {
        assert all[i] == e;
      }
    }
  }

  /** The events of one printer in a dispatch log. */
  function EventsOf(log: seq<Event>, serial: string): seq<Event> {
    if log == [] then []
    else
      var rest := EventsOf(log[..|log| - 1], serial);
      if log[|log| - 1].serial == serial then rest + [log[|log| - 1]] else rest
  }

  lemma EventsOfSnoc(log: seq<Event>, e: Event, serial: string)
    ensures EventsOf(log + [e], serial) == EventsOf(log, serial) + (if e.serial == serial then [e] else [])
  {
    assert (log + [e])[..|log|] == log;
  }
}

/** What one report or connectivity change does to the stored entries, and the event it makes. */
module StoreState {
  import opened Options
  import opened Doc
  import opened Events
  import opened EventChain

  datatype Stored = Stored(doc: Fields, online: bool, reportedAt: Option<int>)

  type Entries = map<string, Stored>

  /** A record of the activity log. */
  datatype Record = Record(serial: string, kind: Kind)

  datatype Op = Report(serial: string, delta: Fields, now: int) | Link(serial: string, online: bool)

  /** The problems displayed before and after are one catalog's reading of the two documents. */
  function Change(ps: Entries, op: Op, oldProblems: seq<Problem>, newProblems: seq<Problem>): (Entries, Option<Event>) {
    if op.serial !in ps then (ps, None)
    else
      var p := ps[op.serial];
      match op
      case Report(serial, delta, now) =>
        var cur := MergeDoc(p.doc, delta, true);
        var kinds := Transitions(Look(p.doc), Look(cur), oldProblems, newProblems);
        (ps[serial := Stored(cur, p.online, Some(now))],
         Some(Event(serial, p.doc, cur, p.online, kinds, NewJob(Look(p.doc), Look(cur)))))
      case Link(serial, online) =>
        if p.online == online then (ps, None)
        else
          (ps[serial := p.(online := online)],
           Some(Event(serial, p.doc, p.doc, online, [if online then Connected else Disconnected], false)))
  }

  function RecordsOf(e: Event): seq<Record> {
    seq(|e.kinds|, i requires 0 <= i < |e.kinds| => Record(e.serial, e.kinds[i]))
  }

  /** The event follows on the entry it changes, and every other entry stays. */
  ghost predicate Updates(ps: Entries, ps': Entries, e: Event) {
    && e.serial in ps && Follows(ps[e.serial].doc, ps[e.serial].online, e) && ps'.Keys == ps.Keys
    && ps'[e.serial].doc == e.cur && ps'[e.serial].online == e.online
    && forall s :: s in ps && s != e.serial ==> ps'[s] == ps[s]
  }

  lemma ChangeUpdates(ps: Entries, op: Op, oldProblems: seq<Problem>, newProblems: seq<Problem>)
    ensures var (ps', event) := Change(ps, op, oldProblems, newProblems);
            if event.Some? then Updates(ps, ps', event.value) else ps' == ps
  {
  }

  /** The entry is the end of the chain. */
  ghost predicate EntryOk(p: Stored, evs: seq<Event>) {
    Chain(evs) && p.doc == DocAt(evs, |evs|) && p.online == OnlineAt(evs, |evs|)
  }

  lemma EntryExtends(p: Stored, evs: seq<Event>, p': Stored, e: Event)
    requires EntryOk(p, evs) && Follows(p.doc, p.online, e) && p'.doc == e.cur && p'.online == e.online
    ensures EntryOk(p', evs + [e])
  {
    ChainExtends(evs, e);
  }

  /** Every printer's entry is the end of its own chain of dispatched events. */
  ghost predicate EntriesOk(ps: Entries, dispatched: seq<Event>) {
    forall s :: s in ps ==> EntryOk(ps[s], EventsOf(dispatched, s))
  }

  lemma UpdateKeepsEntries(ps: Entries, ps': Entries, dispatched: seq<Event>, e: Event)
    requires EntriesOk(ps, dispatched) && Updates(ps, ps', e)
    ensures EntriesOk(ps', dispatched + [e])
  {
    forall s | s in ps'
      ensures EntryOk(ps'[s], EventsOf(dispatched + [e], s))
    {
      EventsOfSnoc(dispatched, e, s);
      if s == e.serial {
        EntryExtends(ps[s], EventsOf(dispatched, s), ps'[s], e);
      }
    }
  }
}

/** The report store: its methods run one after the other under eventMu. */
module StoreObject {
  import opened Options
  import opened Doc
  import opened Events
  import opened EventChain
  import S = StoreState

  class Store {
    var printers: map<string, S.Stored>
    var recorded: seq<S.Record> // the activity log, in order
    var dispatched: seq<Event>  // what every subscriber received, in order

    ghost predicate Valid()
      reads `printers, `dispatched
    {
      S.EntriesOk(printers, dispatched)
    }

    constructor (serials: seq<string>)
      ensures Valid() && dispatched == [] && recorded == []
      ensures forall s :: s in printers <==> s in serials
    {
      printers := map s | s in serials :: S.Stored(Empty, false, None);
      recorded, dispatched := [], [];
    }

    /** A change of the entries with its event, if any, recorded and dispatched. */
    twostate predicate Made(change: (S.Entries, Option<Event>))
      reads this
    {
      && printers == change.0
      && recorded == old(recorded) + (if change.1.Some? then S.RecordsOf(change.1.value) else [])
      && dispatched == old(dispatched) + (if change.1.Some? then [change.1.value] else [])
    }

    method RecordAll(e: Event)
      modifies `recorded
      ensures recorded == old(recorded) + S.RecordsOf(e)
    {
      for i := 0 to |e.kinds|
        invariant recorded == old(recorded) + S.RecordsOf(e)[..i]
      {
        recorded := recorded + [S.Record(e.serial, e.kinds[i])];
      }
    }

    /** Stores the entry an event leaves, records its transitions and hands it to the subscribers. */
    method Publish(p: S.Stored, e: Event)
      requires S.EntriesOk(printers[e.serial := p], dispatched + [e])
      modifies this
      ensures Valid() && Made((old(printers)[e.serial := p], Some(e)))
    {
      printers := printers[e.serial := p];
      RecordAll(e);
      dispatched := dispatched + [e];
    }

    /**
     payload is None when the bytes are not a JSON object; problems projects a document under one catalog
     snapshot.
     */
    method Apply(serial: string, payload: Option<Fields>, now: int, problems: Fields -> seq<Problem>)
      requires Valid()
      modifies this
      ensures Valid()
      ensures payload.None? ==> printers == old(printers) && recorded == old(recorded) && dispatched == old(dispatched)
      ensures payload.Some? ==>
                var prev := if serial in old(printers) then old(printers)[serial].doc else Empty;
                Made(S.Change(old(printers), S.Report(serial, payload.value, now),
                              problems(prev), problems(MergeDoc(prev, payload.value, true))))
    {
      if payload.None? || serial !in printers {
        return;
      }
      var p := printers[serial];
      var cur := MergeDoc(p.doc, payload.value, true);
      var kinds := Transitions(Look(p.doc), Look(cur), problems(p.doc), problems(cur));
      var e := Event(serial, p.doc, cur, p.online, kinds, NewJob(Look(p.doc), Look(cur)));
      S.ChangeUpdates(printers, S.Report(serial, payload.value, now), problems(p.doc), problems(cur));
      var p' := p.(doc := cur, reportedAt := Some(now));
      S.UpdateKeepsEntries(printers, printers[serial := p'], dispatched, e);
      Publish(p', e);
    }

    method SetOnline(serial: string, online: bool)
      requires Valid()
      modifies this
      ensures Valid() && Made(S.Change(old(printers), S.Link(serial, online), [], []))
    {
      if serial !in printers || printers[serial].online == online {
        return;
      }
      var p := printers[serial];
      var kind := Disconnected;
      if online {
        kind := Connected;
      }
      S.ChangeUpdates(printers, S.Link(serial, online), [], []);
      var e := Event(serial, p.doc, p.doc, online, [kind], false);
      S.UpdateKeepsEntries(printers, printers[serial := p.(online := online)], dispatched, e);
      Publish(p.(online := online), e);
    }

    method Get(serial: string) returns (doc: Fields, online: bool, ok: bool)
      ensures ok == (serial in printers)
      ensures ok ==> doc == printers[serial].doc && online == printers[serial].online
      ensures !ok ==> doc == Empty && !online
    {
      ok := serial in printers;
      doc, online := Empty, false;
      if ok {
        doc, online := printers[serial].doc, printers[serial].online;
      }
    }
  }
}
