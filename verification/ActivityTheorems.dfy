/** What readers of the log get: the newest entries, and for a polling client every entry once. */
module ActivityTheorems {
  import opened Options
  import opened ActivityState

  /** How many entries have IDs at or below after. */
  function Position(h: seq<Entry>, after: nat): (p: nat)
    ensures p <= |h|
  {
    if h == [] || h[|h| - 1].id <= after then |h| else Position(h[..|h| - 1], after)
  }

  /** The entries with IDs above after, oldest first. */
  function Since(h: seq<Entry>, after: nat): seq<Entry> { h[Position(h, after)..] }

  lemma {:induction false} PositionSplits(h: seq<Entry>, after: nat)
    requires Sorted(h)
    ensures forall i :: 0 <= i < Position(h, after) ==> h[i].id <= after
    ensures forall i :: Position(h, after) <= i < |h| ==> h[i].id > after
  {
    if h == [] {
    } else if h[|h| - 1].id <= after {
      forall i | 0 <= i < |h| ensures h[i].id <= after {
        assert i == |h| - 1 || h[i].id < h[|h| - 1].id;
      }
    } else {
      var g := h[..|h| - 1];
      PositionSplits(g, after);
      forall i | 0 <= i < Position(g, after) ensures h[i].id <= after { assert g[i] == h[i]; }
      forall i | Position(g, after) <= i < |h| ensures h[i].id > after { assert i < |g| ==> g[i] == h[i]; }
    }
  }

  lemma PositionIs(h: seq<Entry>, after: nat, p: nat)
    requires Sorted(h) && p <= |h|
    requires forall i :: 0 <= i < p ==> h[i].id <= after
    requires forall i :: p <= i < |h| ==> h[i].id > after
    ensures Position(h, after) == p
  {
    PositionSplits(h, after);
  }

  function Reverse<T>(s: seq<T>): (r: seq<T>)
    ensures |r| == |s| && forall i :: 0 <= i < |s| ==> r[i] == s[|s| - 1 - i]
  {
    seq(|s|, i requires 0 <= i < |s| => s[|s| - 1 - i])
  }

  function Max(a: int, b: int): int { if a >= b then a else b }

  lemma ReverseCons<T>(s: seq<T>, lo: nat)
    requires lo < |s|
    ensures Reverse(s[lo..]) == Reverse(s[lo + 1..]) + [s[lo]]
  {
  }

  /** Below the position nothing qualifies, above it everything does. */
  lemma {:induction false} NewestIsReversed(h: seq<Entry>, lo: nat, after: nat)
    requires Sorted(h) && lo <= |h|
    ensures Newest(h, lo, after) == Reverse(h[Max(lo, Position(h, after))..])
    decreases |h| - lo
  {
    var p := Position(h, after);
    if lo < |h| {
      NewestIsReversed(h, lo + 1, after);
      assert h[lo].id > after <==> lo >= p by {
        PositionSplits(h, after);
      }
      if lo >= p {
        assert Max(lo, p) == lo && Max(lo + 1, p) == lo + 1;
        ReverseCons(h, lo);
      } else {
        assert Max(lo, p) == Max(lo + 1, p);
      }
    }
  }

  /** Recent gives the newest min(n, 50) entries, newest first, with strictly decreasing IDs. */
  lemma RecentIsNewest(h: seq<Entry>)
    requires Sorted(h) && forall i :: 0 <= i < |h| ==> h[i].id > 0
    ensures |Read(h, 0)| == if |h| < 50 then |h| else 50
    ensures forall k :: 0 <= k < |Read(h, 0)| ==> Read(h, 0)[k] == h[|h| - 1 - k]
    ensures forall j, k :: 0 <= j < k < |Read(h, 0)| ==> Read(h, 0)[j].id > Read(h, 0)[k].id
  {
    PositionIs(h, 0, 0);
    NewestIsReversed(h, Start(h), 0);
  }

  // The log keeps its histories sorted.

  ghost predicate LogOk(l: Log) {
    forall s :: s in l.histories ==>
      Sorted(l.histories[s]) && forall i :: 0 <= i < |l.histories[s]| ==> 0 < l.histories[s][i].id <= l.nextId
  }

  lemma RecordKeeps(l: Log, serial: string, time: int, kind: string, severity: string, message: string, url: string)
    requires LogOk(l)
    ensures LogOk(Record(l, serial, time, kind, severity, message, url))
    ensures forall s :: s in l.histories ==>
              l.histories[s] <= Record(l, serial, time, kind, severity, message, url).histories[s]
  {
  }

  // A client that polls with the returned ID.

  /** The tool's loop over the returned events. */
  function Cursor(after: nat, events: seq<Entry>): nat {
    if events == [] then after
    else
      var c := Cursor(after, events[..|events| - 1]);
      if events[|events| - 1].id > c then events[|events| - 1].id else c
  }

  method AdvanceCursor(after: nat, events: seq<Entry>) returns (cursor: nat)
    ensures cursor == Cursor(after, events)
    ensures cursor >= after && forall i :: 0 <= i < |events| ==> cursor >= events[i].id
    ensures cursor == after || exists i :: 0 <= i < |events| && cursor == events[i].id
  {
    cursor := after;
    for i := 0 to |events|
      invariant cursor == Cursor(after, events[..i])
      invariant cursor >= after && forall j :: 0 <= j < i ==> cursor >= events[j].id
      invariant cursor == after || exists j :: 0 <= j < i && cursor == events[j].id
    {
      assert events[..i + 1][..i] == events[..i];
      if events[i].id > cursor {
        cursor := events[i].id;
      }
    }
    assert events[..|events|] == events;
  }

  /** Newest first with the largest ID in front: the cursor moves to it. */
  lemma {:induction false} CursorIsFirst(after: nat, events: seq<Entry>)
    requires forall i :: 0 <= i < |events| ==> events[i].id > after
    requires forall i, j :: 0 <= i < j < |events| ==> events[i].id > events[j].id
    ensures Cursor(after, events) == if events == [] then after else events[0].id
  {
    if |events| > 0 {
      CursorIsFirst(after, events[..|events| - 1]);
    }
  }

  /** hs[k] is the history at the k-th read and cursors[k] the ID it is asked with. */
  ghost predicate Polls(hs: seq<seq<Entry>>, cursors: seq<nat>) {
    && |cursors| == |hs| + 1
    && (forall k :: 0 <= k < |hs| ==> Sorted(hs[k]) && cursors[k + 1] == Cursor(cursors[k], Read(hs[k], cursors[k])))
    && (forall k :: 0 < k < |hs| ==> hs[k - 1] <= hs[k])
  }

  /** Everything received in the first n reads, oldest first. */
  function Received(hs: seq<seq<Entry>>, cursors: seq<nat>, n: nat): seq<Entry>
    requires n <= |hs| < |cursors|
  {
    if n == 0 then [] else Received(hs, cursors, n - 1) + Reverse(Read(hs[n - 1], cursors[n - 1]))
  }

  /** How many entries the k-th read should bring. */
  function Unread(hs: seq<seq<Entry>>, cursors: seq<nat>, k: nat): nat
    requires k < |hs| < |cursors|
  {
    |Since(hs[k], cursors[k])|
  }

  function Missed(hs: seq<seq<Entry>>, cursors: seq<nat>, n: nat): nat
    requires n <= |hs| < |cursors|
  {
    if n == 0 then 0 else Missed(hs, cursors, n - 1) + Max(Unread(hs, cursors, n - 1) - CAPACITY, 0)
  }

  /** After a read the cursor covers exactly what was there. */
  ghost predicate Covers(h: seq<Entry>, first: nat, cursor: nat) {
    cursor == if Position(h, first) == |h| then first else h[|h| - 1].id
  }

  lemma ReverseTwice<T>(s: seq<T>)
    ensures Reverse(Reverse(s)) == s
  {
  }

  /** The newest entries from lo on come in decreasing order, all above after. */
  lemma ReversedDecreases(h: seq<Entry>, lo: nat, after: nat)
    requires Sorted(h) && Position(h, after) <= lo <= |h|
    ensures var r := Reverse(h[lo..]);
            && (forall i :: 0 <= i < |r| ==> r[i].id > after)
            && (forall i, j :: 0 <= i < j < |r| ==> r[i].id > r[j].id)
  {
    PositionSplits(h, after);
    var r := Reverse(h[lo..]);
    assert forall i :: 0 <= i < |r| ==> r[i] == h[|h| - 1 - i];
  }

  lemma CursorOfReversed(h: seq<Entry>, lo: nat, after: nat)
    requires Sorted(h) && Position(h, after) <= lo <= |h|
    ensures Cursor(after, Reverse(h[lo..])) == if lo == |h| then after else h[|h| - 1].id
  {
    ReversedDecreases(h, lo, after);
    CursorIsFirst(after, Reverse(h[lo..]));
  }

  lemma ReadIs(h: seq<Entry>, after: nat)
    requires Sorted(h)
    ensures Reverse(Read(h, after)) == h[Max(Start(h), Position(h, after))..]
    ensures Cursor(after, Read(h, after)) == if Position(h, after) == |h| then after else h[|h| - 1].id
  {
    var lo := Max(Start(h), Position(h, after));
    assert Read(h, after) == Reverse(h[lo..]) by {
      NewestIsReversed(h, Start(h), after);
    }
    ReverseTwice(h[lo..]);
    CursorOfReversed(h, lo, after);
  }

  lemma PrefixPosition(g: seq<Entry>, h: seq<Entry>, after: nat)
    requires Sorted(g) && Sorted(h) && g <= h && Position(g, after) < |g|
    ensures Position(h, after) == Position(g, after)
  {
    var p := Position(g, after);
    PositionSplits(g, after);
    assert forall i :: 0 <= i < |g| ==> g[i] == h[i];
    forall i | p <= i < |h| ensures h[i].id > after {
      assert h[p].id > after && (p < i ==> h[p].id < h[i].id);
    }
    PositionIs(h, after, p);
  }

  lemma LastPosition(g: seq<Entry>, h: seq<Entry>)
    requires Sorted(h) && g <= h && g != []
    ensures Position(h, g[|g| - 1].id) == |g|
  {
    assert forall i :: 0 <= i < |g| ==> g[i] == h[i];
    PositionIs(h, g[|g| - 1].id, |g|);
  }

  lemma WholePosition(g: seq<Entry>, h: seq<Entry>, after: nat)
    requires Sorted(g) && Sorted(h) && g <= h && Position(g, after) == |g|
    ensures Position(h, after) >= |g|
  {
    PositionSplits(g, after);
    PositionSplits(h, after);
    if g != [] {
      assert g[|g| - 1] == h[|g| - 1];
    }
  }

  lemma SinceJoins(g: seq<Entry>, h: seq<Entry>, p: nat)
    requires g <= h && p <= |g|
    ensures g[p..] + h[|g|..] == h[p..]
  {
  }

  /** What is new since the cursor, after a read at g, is exactly what was appended and passes the first ID. */
  lemma NewSince(g: seq<Entry>, h: seq<Entry>, first: nat, cursor: nat)
    requires Sorted(g) && Sorted(h) && g <= h && Covers(g, first, cursor)
    ensures Since(g, first) + Since(h, cursor) == Since(h, first)
    ensures Position(h, cursor) >= |g|
    ensures Covers(h, first, if Position(h, cursor) == |h| then cursor else h[|h| - 1].id)
  {
    if Position(g, first) < |g| {
      PrefixPosition(g, h, first);
      LastPosition(g, h);
      SinceJoins(g, h, Position(g, first));
    } else {
      WholePosition(g, h, first);
      assert Since(g, first) == [];
    }
  }

  lemma {:induction false} ReadsCover(hs: seq<seq<Entry>>, cursors: seq<nat>, n: nat)
    requires Polls(hs, cursors) && 0 < n <= |hs|
    ensures Covers(hs[n - 1], cursors[0], cursors[n])
  {
    var k := n - 1;
    ReadIs(hs[k], cursors[k]);
    if n > 1 {
      ReadsCover(hs, cursors, n - 1);
      NewSince(hs[k - 1], hs[k], cursors[0], cursors[k]);
    }
  }

  lemma SliceOfSlice(h: seq<Entry>, p: nat, lo: nat)
    requires p <= lo <= |h|
    ensures h[lo..] == h[p..][lo - p..]
  {
  }

  /** One read delivers its new entries but for the oldest beyond fifty. */
  lemma ReadMisses(h: seq<Entry>, cursor: nat)
    requires Sorted(h)
    ensures var batch := Reverse(Read(h, cursor)); var unread := Since(h, cursor);
            && |batch| + Max(|unread| - CAPACITY, 0) == |unread|
            && (|unread| <= CAPACITY ==> batch == unread)
            && batch == unread[|unread| - |batch|..]
  {
    var p, lo := Position(h, cursor), Max(Start(h), Position(h, cursor));
    assert Reverse(Read(h, cursor)) == h[lo..] by {
      ReadIs(h, cursor);
    }
    SliceOfSlice(h, p, lo);
  }

  /** From one read to the next nothing lies between what was due before and what is new. */
  lemma DueNext(hs: seq<seq<Entry>>, cursors: seq<nat>, k: nat)
    requires Polls(hs, cursors) && 0 < k < |hs|
    ensures Since(hs[k - 1], cursors[0]) + Since(hs[k], cursors[k]) == Since(hs[k], cursors[0])
  {
    ReadsCover(hs, cursors, k);
    NewSince(hs[k - 1], hs[k], cursors[0], cursors[k]);
  }

  lemma {:induction false} ReceivedCount(hs: seq<seq<Entry>>, cursors: seq<nat>, n: nat)
    requires Polls(hs, cursors) && 0 < n <= |hs|
    ensures |Received(hs, cursors, n)| + Missed(hs, cursors, n) == |Since(hs[n - 1], cursors[0])|
    ensures Missed(hs, cursors, n) == 0 ==> Received(hs, cursors, n) == Since(hs[n - 1], cursors[0])
  {
    var k := n - 1;
    var batch, unread := Reverse(Read(hs[k], cursors[k])), Since(hs[k], cursors[k]);
    assert |batch| + Max(|unread| - CAPACITY, 0) == |unread| && (|unread| <= CAPACITY ==> batch == unread) by {
      ReadMisses(hs[k], cursors[k]);
    }
    assert Received(hs, cursors, n) == Received(hs, cursors, k) + batch;
    if k > 0 {
      ReceivedCount(hs, cursors, k);
      DueNext(hs, cursors, k);
    }
  }

  lemma {:induction false} MissedIsSum(hs: seq<seq<Entry>>, cursors: seq<nat>, n: nat)
    requires n <= |hs| < |cursors|
    ensures Missed(hs, cursors, n) == 0 <==> forall k :: 0 <= k < n ==> Unread(hs, cursors, k) <= CAPACITY
  {
    if n > 0 {
      MissedIsSum(hs, cursors, n - 1);
    }
  }

  /**
   A client that polls with the returned ID has received, at every read, exactly the entries above its first ID,
   each once and in order, if and only if at most fifty were unread at each read.
   */
  lemma ClientGetsEverythingIff(hs: seq<seq<Entry>>, cursors: seq<nat>, n: nat)
    requires Polls(hs, cursors) && 0 < n <= |hs|
    ensures Received(hs, cursors, n) == Since(hs[n - 1], cursors[0])
            <==> forall k :: 0 <= k < n ==> Unread(hs, cursors, k) <= 50
  {
    ReceivedCount(hs, cursors, n);
    MissedIsSum(hs, cursors, n);
  }

  /** One entry too many. */
  function TooMany(): (h: seq<Entry>)
    ensures |h| == CAPACITY + 1 && forall i :: 0 <= i < |h| ==> h[i].id == i + 1
  {
    seq(CAPACITY + 1, i requires 0 <= i < CAPACITY + 1 => Entry(i + 1, 0, "", "", "", ""))
  }

  lemma OneReadOverflows(h: seq<Entry>)
    requires Sorted(h) && |h| == CAPACITY + 1 && forall i :: 0 <= i < |h| ==> h[i].id > 0
    ensures var cursors := [0, Cursor(0, Read(h, 0))]; Polls([h], cursors) && Unread([h], cursors, 0) == CAPACITY + 1
  {
    PositionIs(h, 0, 0);
  }

  /** A client that asks for everything when fifty-one entries are unread misses one. */
  lemma PollCanMiss()
    ensures var cursors := [0, Cursor(0, Read(TooMany(), 0))];
            Polls([TooMany()], cursors) && Received([TooMany()], cursors, 1) != Since(TooMany(), 0)
  {
    OneReadOverflows(TooMany());
    ClientGetsEverythingIff([TooMany()], [0, Cursor(0, Read(TooMany(), 0))], 1);
  }

  /** In particular when at most fifty entries arrive between reads. */
  lemma ArrivalsBoundUnread(hs: seq<seq<Entry>>, cursors: seq<nat>, k: nat)
    requires Polls(hs, cursors) && 0 < k < |hs|
    ensures Unread(hs, cursors, k) <= |hs[k]| - |hs[k - 1]|
  {
    ReadsCover(hs, cursors, k);
    NewSince(hs[k - 1], hs[k], cursors[0], cursors[k]);
  }

  /** A read brings increasing IDs above the old cursor and up to the new one. */
  lemma BatchIsBetween(h: seq<Entry>, cursor: nat)
    requires Sorted(h)
    ensures var batch, next := Reverse(Read(h, cursor)), Cursor(cursor, Read(h, cursor));
            Sorted(batch) && next >= cursor && forall i :: 0 <= i < |batch| ==> cursor < batch[i].id <= next
  {
    ReadIs(h, cursor);
    PositionSplits(h, cursor);
  }

  lemma SortedAppend(a: seq<Entry>, b: seq<Entry>, cursor: nat, next: nat)
    requires Sorted(a) && Sorted(b) && cursor <= next
    requires forall i :: 0 <= i < |a| ==> a[i].id <= cursor
    requires forall i :: 0 <= i < |b| ==> cursor < b[i].id <= next
    ensures Sorted(a + b) && forall i :: 0 <= i < |a + b| ==> (a + b)[i].id <= next
  {
  }

  /** Even when entries are missed, none is received twice or out of order. */
  lemma {:induction false} NeverTwice(hs: seq<seq<Entry>>, cursors: seq<nat>, n: nat)
    requires Polls(hs, cursors) && n <= |hs|
    ensures Sorted(Received(hs, cursors, n))
    ensures forall i :: 0 <= i < |Received(hs, cursors, n)| ==> Received(hs, cursors, n)[i].id <= cursors[n]
  {
    if n > 0 {
      var k := n - 1;
      NeverTwice(hs, cursors, k);
      BatchIsBetween(hs[k], cursors[k]);
      SortedAppend(Received(hs, cursors, k), Reverse(Read(hs[k], cursors[k])), cursors[k], cursors[n]);
    }
  }

  // Waiters.

  datatype Waiter =
    | Looking(serial: string, after: nat)             // about to take the lock
    | Blocked(serial: string, after: nat, wake: nat)  // waiting on the channel it saw
    | Returned(serial: string, after: nat, entries: Option<seq<Entry>>)

  datatype World = World(log: Log, closed: set<nat>, waiters: map<nat, Waiter>)

  datatype Step =
    | Recorded(serial: string, time: int, kind: string, severity: string, message: string, url: string)
    | Arrives(w: nat, serial: string, after: nat)
    | Looks(w: nat)
    | Wakes(w: nat)
    | GivesUp(w: nat)

  predicate Enabled(s: World, step: Step) {
    match step
    case Recorded(_, _, _, _, _, _) => true
    case Arrives(w, _, _) => w !in s.waiters
    case Looks(w) => w in s.waiters && s.waiters[w].Looking?
    case Wakes(w) => w in s.waiters && s.waiters[w].Blocked? && s.waiters[w].wake in s.closed
    case GivesUp(w) => w in s.waiters && s.waiters[w].Blocked?
  }

  function AfterLook(l: Log, serial: string, after: nat): Waiter {
    match Look(l, serial, after)
    case None => Returned(serial, after, None)
    case Some((entries, wake)) =>
      if entries != [] then Returned(serial, after, Some(entries)) else Blocked(serial, after, wake)
  }

  function Next(s: World, step: Step): World
    requires Enabled(s, step)
  {
    match step
    case Recorded(serial, time, kind, severity, message, url) =>
      s.(log := Record(s.log, serial, time, kind, severity, message, url),
         closed := if serial in s.log.histories then s.closed + {s.log.changed} else s.closed)
    case Arrives(w, serial, after) => s.(waiters := s.waiters[w := Looking(serial, after)])
    case Looks(w) => s.(waiters := s.waiters[w := AfterLook(s.log, s.waiters[w].serial, s.waiters[w].after)])
    case Wakes(w) => s.(waiters := s.waiters[w := Looking(s.waiters[w].serial, s.waiters[w].after)])
    case GivesUp(w) => s.(waiters := s.waiters[w := Returned(s.waiters[w].serial, s.waiters[w].after, None)])
  }

  ghost predicate Run(ws: seq<World>, steps: seq<Step>) {
    && |ws| == |steps| + 1 && LogOk(ws[0].log) && ws[0].closed == {} && ws[0].log.changed == 0 && ws[0].waiters == map[]
    && forall i :: 0 <= i < |steps| ==> Enabled(ws[i], steps[i]) && ws[i + 1] == Next(ws[i], steps[i])
  }

  /** Exactly the channels before the one in use are closed. */
  ghost predicate ChannelsOk(s: World) {
    forall c: nat :: c in s.closed <==> c < s.log.changed
  }

  /** A blocked waiter's channel is closed, or it holds the one in use and has nothing to read. */
  ghost predicate WaiterOk(l: Log, w: Waiter) {
    w.Blocked? ==>
      && w.wake <= l.changed && w.serial in l.histories
      && (w.wake == l.changed ==> Read(l.histories[w.serial], w.after) == [])
  }

  ghost predicate WaitOk(s: World) {
    LogOk(s.log) && ChannelsOk(s) && forall w :: w in s.waiters ==> WaiterOk(s.log, s.waiters[w])
  }

  lemma StepKeepsWait(s: World, step: Step)
    requires WaitOk(s) && Enabled(s, step)
    ensures WaitOk(Next(s, step))
  {
    if step.Recorded? {
      RecordKeeps(s.log, step.serial, step.time, step.kind, step.severity, step.message, step.url);
    }
  }

  lemma {:induction false} RunKeepsWait(ws: seq<World>, steps: seq<Step>, i: nat)
    requires Run(ws, steps) && i < |ws|
    ensures WaitOk(ws[i])
  {
    if i > 0 {
      RunKeepsWait(ws, steps, i - 1);
      StepKeepsWait(ws[i - 1], steps[i - 1]);
    }
  }

  lemma EmptyRead(h: seq<Entry>, after: nat)
    requires Sorted(h) && Read(h, after) == []
    ensures Since(h, after) == []
  {
    NewestIsReversed(h, Start(h), after);
  }

  /** No wake-up is missed: as soon as an entry newer than asked for exists, the waiter's channel is closed. */
  lemma NoMissedWakeup(ws: seq<World>, steps: seq<Step>, i: nat, w: nat)
    requires Run(ws, steps) && i < |ws| && w in ws[i].waiters && ws[i].waiters[w].Blocked?
    ensures ws[i].waiters[w].serial in ws[i].log.histories
    ensures Since(ws[i].log.histories[ws[i].waiters[w].serial], ws[i].waiters[w].after) != [] ==>
            Enabled(ws[i], Wakes(w))
  {
    RunKeepsWait(ws, steps, i);
    var b := ws[i].waiters[w];
    assert WaiterOk(ws[i].log, b);
    if b.wake == ws[i].log.changed {
      EmptyRead(ws[i].log.histories[b.serial], b.after);
    }
  }

  /** Each channel is closed at most once. */
  lemma ClosesOnce(ws: seq<World>, steps: seq<Step>, i: nat)
    requires Run(ws, steps) && i < |steps| && steps[i].Recorded?
    ensures ws[i].log.changed !in ws[i].closed
  {
    RunKeepsWait(ws, steps, i);
  }
}
