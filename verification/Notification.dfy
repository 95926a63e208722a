/** The notification batcher: one batch per printer, opened by its first event and delivered two seconds later. */
module NotificationState {
  import opened Options

  const BATCH_WINDOW: int := 2000 // milliseconds

  datatype Notice = Notice(serial: string, summary: string, pause: bool)

  datatype Batch = Batch(notices: seq<Notice>, deadline: int, at: int)

  datatype Batcher = Batcher(
    pending: map<string, seq<Notice>>,
    deadlines: map<string, int>,
    sent: map<string, seq<Batch>>)  // what each printer's deliveries were

  const Fresh := Batcher(map[], map[], map[])

  function Get<T>(m: map<string, seq<T>>, k: string): seq<T> { if k in m then m[k] else [] }

  function Add(batch: seq<Notice>, n: Notice): seq<Notice> { if n in batch then batch else batch + [n] }

  function Arrive(b: Batcher, n: Notice, now: int): Batcher {
    var batch := Get(b.pending, n.serial);
    b.(pending := b.pending[n.serial := Add(batch, n)],
       deadlines := if batch == [] then b.deadlines[n.serial := now + BATCH_WINDOW] else b.deadlines)
  }

  predicate Due(b: Batcher, k: string, now: int) { k in b.deadlines && b.deadlines[k] <= now }

  function DueSet(b: Batcher, now: int): set<string> { set k | k in b.deadlines && Due(b, k, now) }

  /** Delivers the batches of these printers. */
  function Deliver(b: Batcher, ks: set<string>, now: int): Batcher
    requires ks <= b.deadlines.Keys
  {
    Batcher(b.pending - ks, b.deadlines - ks,
            map k | k in b.sent.Keys + ks ::
              if k in ks then Get(b.sent, k) + [Batch(Get(b.pending, k), b.deadlines[k], now)] else b.sent[k])
  }

  function Tick(b: Batcher, now: int): Batcher { Deliver(b, DueSet(b, now), now) }

  datatype Input = Arrival(notice: Notice, at: int) | Timer(now: int)

  function Handle(b: Batcher, x: Input): Batcher {
    match x
    case Arrival(n, at) => Arrive(b, n, at)
    case Timer(now) => Tick(b, now)
  }

  /** Inputs in order, newest last. */
  datatype Feed = Start | More(before: Feed, last: Input)

  function Play(f: Feed): Batcher {
    match f
    case Start => Fresh
    case More(before, x) => Handle(Play(before), x)
  }

  predicate Selected(n: Notice, problems: bool) { !n.pause || problems }

  /** The distinct summaries of the notices that count, in order of arrival. */
  function Summaries(notices: seq<Notice>, problems: bool): seq<string> {
    if notices == [] then []
    else
      var last := notices[|notices| - 1];
      var rest := Summaries(notices[..|notices| - 1], problems);
      if !Selected(last, problems) || last.summary in rest then rest else rest + [last.summary]
  }
}

/** The service loop's state and its steps. */
module NotificationObject {
  import opened Options
  import N = NotificationState

  class Service {
    var pending: map<string, seq<N.Notice>>
    var deadlines: map<string, int>
    ghost var sent: map<string, seq<N.Batch>>

    ghost function State(): N.Batcher
      reads this
    {
      N.Batcher(pending, deadlines, sent)
    }

    ghost predicate Valid()
      reads this
    {
      pending.Keys == deadlines.Keys
    }

    constructor ()
      ensures Valid() && State() == N.Fresh
    {
      pending, deadlines, sent := map[], map[], map[];
    }

    /** When the timer is set for: the earliest deadline. */
    method NextWake() returns (next: Option<int>)
      ensures next.None? <==> deadlines == map[]
      ensures next.Some? ==> next.value in deadlines.Values && forall k :: k in deadlines ==> next.value <= deadlines[k]
    {
      next := None;
      var todo := deadlines.Keys;
      while todo != {}
        invariant todo <= deadlines.Keys
        invariant next.None? ==> todo == deadlines.Keys
        invariant next.Some? ==> next.value in deadlines.Values
        invariant next.Some? ==> forall k :: k in deadlines && k !in todo ==> next.value <= deadlines[k]
      {
        var k :| k in todo;
        todo := todo - {k};
        if next.None? || deadlines[k] < next.value {
          next := Some(deadlines[k]);
        }
      }
    }

    method Arrive(n: N.Notice, now: int)
      requires Valid()
      modifies this
      ensures Valid() && State() == N.Arrive(old(State()), n, now)
    {
      var batch := if n.serial in pending then pending[n.serial] else [];
      if |batch| == 0 {
        deadlines := deadlines[n.serial := now + N.BATCH_WINDOW];
      }
      if n !in batch {
        batch := batch + [n];
      }
      pending := pending[n.serial := batch];
    }

    method Deliver(k: string, now: int)
      requires Valid() && k in deadlines
      modifies this
      ensures Valid() && State() == N.Deliver(old(State()), {k}, now)
    {
      sent := sent[k := N.Get(sent, k) + [N.Batch(pending[k], deadlines[k], now)]];
      pending := pending - {k};
      deadlines := deadlines - {k};
    }

    lemma OneMore(b: N.Batcher, ks: set<string>, k: string, now: int)
      requires ks <= b.deadlines.Keys && k in b.deadlines && k !in ks
      ensures N.Deliver(N.Deliver(b, ks, now), {k}, now) == N.Deliver(b, ks + {k}, now)
    {
      assert b.pending - ks - {k} == b.pending - (ks + {k});
      assert b.deadlines - ks - {k} == b.deadlines - (ks + {k});
    }

    /** Delivers the due batches, in whatever order the map is ranged over. */
    method Tick(now: int)
      requires Valid()
      modifies this
      ensures Valid() && State() == N.Tick(old(State()), now)
    {
      var todo := deadlines.Keys;
      ghost var was, done := State(), {};
      while todo != {}
        invariant Valid() && todo <= was.deadlines.Keys && done <= was.deadlines.Keys && todo !! done
        invariant State() == N.Deliver(was, done, now)
        invariant forall k :: k in was.deadlines && k !in todo ==> (k in done <==> N.Due(was, k, now))
      {
        var k :| k in todo;
        todo := todo - {k};
        if deadlines[k] <= now {
          OneMore(was, done, k, now);
          Deliver(k, now);
          done := done + {k};
        }
      }
      assert done == N.DueSet(was, now);
    }

    /** What a delivered batch says; it stays silent when nothing is left. */
    method Choose(notices: seq<N.Notice>, problems: bool) returns (summaries: seq<string>)
      ensures summaries == N.Summaries(notices, problems)
    {
      summaries := [];
      for i := 0 to |notices|
        invariant summaries == N.Summaries(notices[..i], problems)
      {
        assert notices[..i + 1][..i] == notices[..i];
        var n := notices[i];
        if n.pause && !problems {
          continue;
        }
        if n.summary !in summaries {
          summaries := summaries + [n.summary];
        }
      }
      assert notices[..|notices|] == notices;
    }
  }
}

/** Every event is delivered in the batch of its window, once, not before the window's fixed end. */
module NotificationTheorems {
  import opened Options
  import opened NotificationState

  /** An accepted event and when it arrived. */
  datatype Item = Item(notice: Notice, at: int)

  /** One printer alone: windows already delivered, with their delivery times, and the one still open. */
  datatype Windows = Windows(closed: seq<(seq<Item>, int)>, open: seq<Item>)

  /** A window opens at its first event and ends at the first timer at least BATCH_WINDOW later. */
  function WindowsOf(f: Feed, k: string): Windows {
    match f
    case Start => Windows([], [])
    case More(before, Arrival(n, at)) =>
      var w := WindowsOf(before, k);
      if n.serial == k then w.(open := w.open + [Item(n, at)]) else w
    case More(before, Timer(now)) =>
      var w := WindowsOf(before, k);
      if w.open != [] && w.open[0].at + BATCH_WINDOW <= now then Windows(w.closed + [(w.open, now)], []) else w
  }

  /** The events of one printer in order of arrival. */
  function Arrived(f: Feed, k: string): seq<Item> {
    match f
    case Start => []
    case More(before, Arrival(n, at)) => Arrived(before, k) + if n.serial == k then [Item(n, at)] else []
    case More(before, Timer(_)) => Arrived(before, k)
  }

  function Flatten(closed: seq<(seq<Item>, int)>): seq<Item> {
    if closed == [] then [] else Flatten(closed[..|closed| - 1]) + closed[|closed| - 1].0
  }

  /** The values of a window in order of first arrival. */
  function Distinct(items: seq<Item>): seq<Notice> {
    if items == [] then [] else Add(Distinct(items[..|items| - 1]), items[|items| - 1].notice)
  }

  lemma DistinctSnoc(items: seq<Item>, x: Item)
    ensures Distinct(items + [x]) == Add(Distinct(items), x.notice)
  {
    assert (items + [x])[..|items|] == items;
  }

  lemma {:induction false} DistinctIsSet(items: seq<Item>)
    ensures forall i, j :: 0 <= i < j < |Distinct(items)| ==> Distinct(items)[i] != Distinct(items)[j]
    ensures forall n :: n in Distinct(items) <==> exists i :: 0 <= i < |items| && items[i].notice == n
    ensures items != [] ==> Distinct(items) != []
  {
    if items != [] {
      var last := |items| - 1;
      DistinctIsSet(items[..last]);
      forall n
        ensures n in Distinct(items) <==> exists i :: 0 <= i < |items| && items[i].notice == n
      {
        if n in Distinct(items[..last]) {
          var i :| 0 <= i < last && items[..last][i].notice == n;
          assert items[i].notice == n;
        }
        if exists i :: 0 <= i < |items| && items[i].notice == n {
          var i :| 0 <= i < |items| && items[i].notice == n;
          assert i < last ==> items[..last][i].notice == n;
        }
      }
    }
  }

  /** A batch keeps the order of arrival: before any copy of a later value came a copy of each earlier one. */
  lemma {:induction false} DistinctInOrder(items: seq<Item>, i: nat, j: nat, q: nat)
    requires i < j < |Distinct(items)| && q < |items| && items[q].notice == Distinct(items)[j]
    ensures exists p :: 0 <= p < q && items[p].notice == Distinct(items)[i]
    decreases |items|
  {
    var last := |items| - 1;
    var front := items[..last];
    DistinctIsSet(front);
    assert forall p :: 0 <= p < last ==> front[p] == items[p];
    if q < last {
      assert items[q].notice in Distinct(front);
      DistinctInOrder(front, i, j, q);
      var p :| 0 <= p < q && front[p].notice == Distinct(front)[i];
      assert items[p].notice == Distinct(items)[i];
    } else {
      assert Distinct(front)[i] in Distinct(front);
      var p :| 0 <= p < |front| && front[p].notice == Distinct(front)[i];
      assert items[p].notice == Distinct(items)[i];
    }
  }

  lemma DistinctIsEmpty(items: seq<Item>)
    ensures Distinct(items) == [] <==> items == []
  {
  }

  /** What one printer's entries in the two maps and its deliveries are, in terms of its windows. */
  ghost predicate Agrees(b: Batcher, k: string, w: Windows) {
    && (k in b.pending <==> w.open != []) && (k in b.deadlines <==> w.open != [])
    && Get(b.pending, k) == Distinct(w.open)
    && (w.open != [] ==> b.deadlines[k] == w.open[0].at + BATCH_WINDOW)
    && |Get(b.sent, k)| == |w.closed|
    && forall j :: 0 <= j < |w.closed| ==>
         w.closed[j].0 != []
         && Get(b.sent, k)[j] == Batch(Distinct(w.closed[j].0), w.closed[j].0[0].at + BATCH_WINDOW, w.closed[j].1)
  }

  lemma ArriveAgrees(b: Batcher, n: Notice, at: int, k: string, w: Windows)
    requires Agrees(b, k, w)
    ensures Agrees(Arrive(b, n, at), k, if n.serial == k then w.(open := w.open + [Item(n, at)]) else w)
  {
    if n.serial == k {
      DistinctSnoc(w.open, Item(n, at));
      DistinctIsEmpty(w.open);
    }
  }

  lemma TickAgrees(b: Batcher, now: int, k: string, w: Windows)
    requires Agrees(b, k, w)
    ensures Agrees(Tick(b, now), k,
                   if w.open != [] && w.open[0].at + BATCH_WINDOW <= now then Windows(w.closed + [(w.open, now)], [])
                   else w)
  {
    var b' := Tick(b, now);
    if Due(b, k, now) {
      assert Get(b'.sent, k) == Get(b.sent, k) + [Batch(Distinct(w.open), w.open[0].at + BATCH_WINDOW, now)];
    } else {
      assert Get(b'.sent, k) == Get(b.sent, k);
    }
  }

  /** The two maps shared by all printers behave as one window at a time for each printer on its own. */
  lemma {:induction false} BatcherIsWindows(f: Feed, k: string)
    ensures Agrees(Play(f), k, WindowsOf(f, k))
  {
    match f {
      case Start =>
      case More(before, Arrival(n, at)) =>
        BatcherIsWindows(before, k);
        ArriveAgrees(Play(before), n, at, k, WindowsOf(before, k));
      case More(before, Timer(now)) =>
        BatcherIsWindows(before, k);
        TickAgrees(Play(before), now, k, WindowsOf(before, k));
    }
  }

  lemma FlattenSnoc(closed: seq<(seq<Item>, int)>, w: seq<Item>, now: int)
    ensures Flatten(closed + [(w, now)]) == Flatten(closed) + w
  {
    assert (closed + [(w, now)])[..|closed|] == closed;
  }

  /** The windows cut the arrivals into consecutive stretches: no event is lost, none is in two. */
  lemma {:induction false} WindowsPartition(f: Feed, k: string)
    ensures Flatten(WindowsOf(f, k).closed) + WindowsOf(f, k).open == Arrived(f, k)
  {
    match f {
      case Start =>
      case More(before, Arrival(n, at)) =>
        WindowsPartition(before, k);
      case More(before, Timer(now)) =>
        WindowsPartition(before, k);
        var w := WindowsOf(before, k);
        FlattenSnoc(w.closed, w.open, now);
    }
  }

  /** Not before the window's end, which the first event fixes. */
  lemma {:induction false} NotEarly(f: Feed, k: string, j: nat)
    requires j < |WindowsOf(f, k).closed|
    ensures var (items, at) := WindowsOf(f, k).closed[j]; items != [] && items[0].at + 2000 <= at
  {
    if f.before != Start {
      var w := WindowsOf(f.before, k);
      if j < |w.closed| {
        NotEarly(f.before, k, j);
      }
    }
  }

  /** Whenever the batcher is between inputs: the same keys, and batches without repetition that are not empty. */
  lemma BatchesAreSound(f: Feed)
    ensures Play(f).pending.Keys == Play(f).deadlines.Keys
    ensures forall k :: k in Play(f).pending ==>
              Play(f).pending[k] != []
              && forall i, j :: 0 <= i < j < |Play(f).pending[k]| ==> Play(f).pending[k][i] != Play(f).pending[k][j]
  {
    forall k
      ensures k in Play(f).pending <==> k in Play(f).deadlines
      ensures k in Play(f).pending ==> Get(Play(f).pending, k) == Distinct(WindowsOf(f, k).open) != []
    {
      BatcherIsWindows(f, k);
      DistinctIsSet(WindowsOf(f, k).open);
    }
    forall k, i, j | k in Play(f).pending && 0 <= i < j < |Play(f).pending[k]|
      ensures Play(f).pending[k][i] != Play(f).pending[k][j]
    {
      DistinctIsSet(WindowsOf(f, k).open);
    }
  }

  /**
   Conservation: every delivery is the distinct events of one window, delivered no earlier than two seconds after
   that window's first event; the windows and what is pending are exactly the events that arrived, in order.
   */
  lemma DeliveriesConserve(f: Feed, k: string)
    ensures var w := WindowsOf(f, k);
            && Flatten(w.closed) + w.open == Arrived(f, k)
            && |Get(Play(f).sent, k)| == |w.closed| && Get(Play(f).pending, k) == Distinct(w.open)
            && forall j :: 0 <= j < |w.closed| ==>
                 w.closed[j].0 != [] && Get(Play(f).sent, k)[j].notices == Distinct(w.closed[j].0)
                 && Get(Play(f).sent, k)[j].deadline == w.closed[j].0[0].at + 2000 <= Get(Play(f).sent, k)[j].at
  {
    WindowsPartition(f, k);
    BatcherIsWindows(f, k);
    forall j | 0 <= j < |WindowsOf(f, k).closed|
      ensures WindowsOf(f, k).closed[j].0[0].at + 2000 <= WindowsOf(f, k).closed[j].1
    {
      NotEarly(f, k, j);
    }
  }

  /** A timer at or past a printer's deadline leaves nothing pending for it. */
  lemma TimerEmpties(f: Feed, k: string, now: int)
    requires k in Play(f).deadlines && Play(f).deadlines[k] <= now
    ensures k !in Play(More(f, Timer(now))).pending && k !in Play(More(f, Timer(now))).deadlines
  {
    BatcherIsWindows(More(f, Timer(now)), k);
    BatcherIsWindows(f, k);
  }

  // What a batch says.

  lemma {:induction false} SummariesAre(notices: seq<Notice>, problems: bool)
    ensures forall s :: s in Summaries(notices, problems)
              <==> exists i :: 0 <= i < |notices| && notices[i].summary == s && Selected(notices[i], problems)
    ensures forall i, j :: 0 <= i < j < |Summaries(notices, problems)| ==>
            Summaries(notices, problems)[i] != Summaries(notices, problems)[j]
  {
    if notices != [] {
      var last := |notices| - 1;
      SummariesAre(notices[..last], problems);
      forall s
        ensures s in Summaries(notices, problems)
          <==> exists i :: 0 <= i < |notices| && notices[i].summary == s && Selected(notices[i], problems)
      {
        if s in Summaries(notices[..last], problems) {
          var i :| 0 <= i < last && notices[..last][i].summary == s && Selected(notices[..last][i], problems);
          assert notices[i].summary == s;
        }
        if i :| 0 <= i < |notices| && notices[i].summary == s && Selected(notices[i], problems) {
          assert i < last ==> notices[..last][i].summary == s;
        }
      }
    }
  }

  /** The summaries keep the order of arrival: before any copy of a later one came a copy of each earlier one. */
  lemma {:induction false} SummariesInOrder(notices: seq<Notice>, problems: bool, i: nat, j: nat, q: nat)
    requires i < j < |Summaries(notices, problems)| && q < |notices| && Selected(notices[q], problems)
    requires notices[q].summary == Summaries(notices, problems)[j]
    ensures exists p :: 0 <= p < q && Selected(notices[p], problems)
              && notices[p].summary == Summaries(notices, problems)[i]
    decreases |notices|
  {
    var last := |notices| - 1;
    var front := notices[..last];
    SummariesAre(front, problems);
    assert forall p :: 0 <= p < last ==> front[p] == notices[p];
    if q < last {
      assert notices[q].summary in Summaries(front, problems);
      SummariesInOrder(front, problems, i, j, q);
      var p :| 0 <= p < q && Selected(front[p], problems) && front[p].summary == Summaries(front, problems)[i];
      assert notices[p].summary == Summaries(notices, problems)[i];
    } else {
      assert Summaries(front, problems)[i] in Summaries(front, problems);
      var p :| 0 <= p < |front| && front[p].summary == Summaries(front, problems)[i] && Selected(front[p], problems);
      assert notices[p].summary == Summaries(notices, problems)[i];
    }
  }

  /** A batch is silent exactly when it holds nothing but pauses and the printer shows no problem. */
  lemma SilentIff(notices: seq<Notice>, problems: bool)
    requires notices != []
    ensures Summaries(notices, problems) == [] <==> !problems && forall i :: 0 <= i < |notices| ==> notices[i].pause
  {
    SummariesAre(notices, problems);
    if Summaries(notices, problems) == [] {
      forall i | 0 <= i < |notices| ensures notices[i].pause && !problems {
        assert notices[i].summary !in Summaries(notices, problems);
      }
    } else {
      assert Summaries(notices, problems)[0] in Summaries(notices, problems);
    }
  }
}
