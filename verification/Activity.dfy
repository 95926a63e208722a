/** The activity log as an unbounded history per printer, of which the last fifty entries can be read. */
module ActivityState {
  import opened Options

  const CAPACITY: nat := 50

  datatype Entry = Entry(id: nat, time: int, kind: string, severity: string, message: string, url: string)

  /** IDs strictly increase. */
  ghost predicate Sorted(h: seq<Entry>) {
    forall i, j :: 0 <= i < j < |h| ==> h[i].id < h[j].id
  }

  /** The oldest entry still in the ring. */
  function Start(h: seq<Entry>): nat {
    if |h| > CAPACITY then |h| - CAPACITY else 0
  }

  /** The entries from lo on with IDs above after, newest first. */
  function Newest(h: seq<Entry>, lo: nat, after: nat): seq<Entry>
    requires lo <= |h|
    decreases |h| - lo
  {
    if lo == |h| then [] else Newest(h, lo + 1, after) + if h[lo].id > after then [h[lo]] else []
  }

  function Read(h: seq<Entry>, after: nat): seq<Entry> { Newest(h, Start(h), after) }

  /** changed numbers the wake-up channel in use; every lower channel has been closed. */
  datatype Log = Log(nextId: nat, histories: map<string, seq<Entry>>, changed: nat)

  function Record(l: Log, serial: string, time: int, kind: string, severity: string, message: string, url: string): Log
  {
    if serial !in l.histories then l
    else
      var e := Entry(l.nextId + 1, time, kind, severity, message, url);
      Log(l.nextId + 1, l.histories[serial := l.histories[serial] + [e]], l.changed + 1)
  }

  /** What a waiter sees under the lock: the newer entries and the channel to wait on. */
  function Look(l: Log, serial: string, after: nat): Option<(seq<Entry>, nat)> {
    if serial !in l.histories then None else Some((Read(l.histories[serial], after), l.changed))
  }
}

/** The ring buffer, overwritten in place, and the log of rings behind one mutex. */
module ActivityObject {
  import opened Options
  import A = ActivityState

  class Ring {
    const buf: array<A.Entry>
    var len: nat   // entries in use; the slice grows to its capacity and stays there
    var next: nat  // the slot the next write overwrites once the buffer is full
    ghost var history: seq<A.Entry>

    /** The slots in use hold exactly the last CAPACITY entries. */
    ghost predicate Valid()
      reads this, buf
    {
      && buf.Length == A.CAPACITY
      && len == |history| - A.Start(history)
      && next == (if len < A.CAPACITY then 0 else |history| % A.CAPACITY)
      && forall j :: A.Start(history) <= j < |history| ==> buf[j % A.CAPACITY] == history[j]
    }

    constructor ()
      ensures Valid() && fresh(buf) && history == []
    {
      buf := new A.Entry[A.CAPACITY](_ => A.Entry(0, 0, "", "", "", ""));
      len, next, history := 0, 0, [];
    }

    method Push(e: A.Entry)
      requires Valid()
      modifies this, buf
      ensures Valid() && history == old(history) + [e]
    {
      ghost var n := |history|;
      if len < A.CAPACITY {
        buf[len] := e;
        len := len + 1;
      } else {
        buf[next] := e;
        next := (next + 1) % A.CAPACITY;
      }
      history := history + [e];
      SlotsApart(n);
    }

    /** The last CAPACITY entries sit in different slots. */
    lemma SlotsApart(n: nat)
      ensures forall j :: n - A.CAPACITY < j < n && j >= 0 ==> j % A.CAPACITY != n % A.CAPACITY
    {
    }

    lemma SmallMod(x: nat, m: nat)
      requires x < m
      ensures x % m == x
    {
    }

    lemma FullBack(n: nat, i: nat)
      requires i < 50
      ensures (n % 50 - 1 - i + 50) % 50 == (n - 1 - i) % 50
    {
    }

    /** Walking back from next visits the entries newest first. */
    lemma SlotBack(n: nat, used: nat, slot: nat, i: nat)
      requires i < used == (if n > A.CAPACITY then A.CAPACITY else n)
      requires slot == if used < A.CAPACITY then 0 else n % A.CAPACITY
      ensures (slot - 1 - i + used) % used == (n - 1 - i) % A.CAPACITY
    {
      if used < A.CAPACITY {
        assert slot - 1 - i + used == n - 1 - i;
        SmallMod(n - 1 - i, used);
        SmallMod(n - 1 - i, A.CAPACITY);
      } else {
        FullBack(n, i);
      }
    }

    method Snapshot(after: nat) returns (out: seq<A.Entry>)
      requires Valid()
      ensures out == A.Read(history, after)
    {
      out := [];
      for i := 0 to len
        invariant out == A.Newest(history, |history| - i, after)
      {
        var e := buf[(next - 1 - i + len) % len];
        assert e == history[|history| - 1 - i] by {
          SlotBack(|history|, len, next, i);
        }
        if e.id > after {
          out := out + [e];
        }
      }
    }
  }

  class Log {
    var nextId: nat
    const rings: map<string, Ring>
    var changed: nat

    /** No two printers share a ring; a ring of another printer is left alone by what changes this one's. */
    ghost predicate Distinct() {
      forall s, t :: s in rings && t in rings && s != t ==> rings[s] != rings[t] && rings[s].buf != rings[t].buf
    }

    ghost function Cells(serial: string): set<object> {
      if serial in rings then {rings[serial], rings[serial].buf} else {}
    }

    ghost predicate Ready(serial: string)
      reads Cells(serial)
    {
      serial in rings ==> rings[serial].Valid()
    }

    ghost function Histories(): map<string, seq<A.Entry>>
      reads rings.Values
    {
      map s | s in rings :: rings[s].history
    }

    ghost function State(): A.Log
      reads this, rings.Values
    {
      A.Log(nextId, Histories(), changed)
    }

    constructor (rings: map<string, Ring>, seed: nat)
      requires forall s :: s in rings ==> rings[s].history == []
      requires forall s, t :: s in rings && t in rings && s != t ==>
              rings[s] != rings[t] && rings[s].buf != rings[t].buf
      ensures this.rings == rings && Distinct()
      ensures State() == A.Log(seed, map s | s in rings :: [], 0)
    {
      this.nextId, this.rings, this.changed := seed, rings, 0;
    }

    /** observed is the entry handed to the observer after the section. */
    method Record(serial: string, time: int, kind: string, severity: string, message: string, url: string)
      returns (observed: Option<A.Entry>)
      requires Distinct() && Ready(serial)
      modifies `nextId, `changed, Cells(serial)
      ensures Ready(serial)
      ensures observed ==
              if serial in rings then Some(A.Entry(old(nextId) + 1, time, kind, severity, message, url)) else None
      ensures nextId == old(nextId) + (if observed.Some? then 1 else 0)
      ensures changed == old(changed) + (if observed.Some? then 1 else 0)
      ensures forall s :: s in rings ==>
                rings[s].history ==
                if s == serial then old(rings[s].history) + [observed.value] else old(rings[s].history)
    {
      if serial !in rings {
        return None;
      }
      nextId := nextId + 1;
      var e := A.Entry(nextId, time, kind, severity, message, url);
      rings[serial].Push(e);
      changed := changed + 1;
      observed := Some(e);
    }

    /** So the log as a whole changes as recording does. */
    twostate lemma RecordedIs(serial: string, e: Option<A.Entry>)
      requires e.Some? <==> serial in rings
      requires e.Some? ==> e.value.id == old(nextId) + 1
      requires nextId == old(nextId) + (if e.Some? then 1 else 0)
              && changed == old(changed) + (if e.Some? then 1 else 0)
      requires forall s :: s in rings ==>
                 rings[s].history == if s == serial then old(rings[s].history) + [e.value] else old(rings[s].history)
      ensures e.Some? ==>
                State() == A.Record(old(State()), serial, e.value.time, e.value.kind, e.value.severity,
                                    e.value.message, e.value.url)
      ensures e.None? ==> State() == old(State())
    {
      if e.Some? {
        assert Histories() == old(Histories())[serial := old(rings[serial].history) + [e.value]];
      } else {
        assert Histories() == old(Histories());
      }
    }

    method Recent(serial: string) returns (out: seq<A.Entry>)
      requires Ready(serial)
      ensures out == if serial in rings then A.Read(State().histories[serial], 0) else []
    {
      if serial !in rings || rings[serial].len == 0 {
        return [];
      }
      out := rings[serial].Snapshot(0);
    }

    /** The locked section of Wait. */
    method Look(serial: string, after: nat) returns (r: Option<(seq<A.Entry>, nat)>)
      requires Ready(serial)
      ensures r == A.Look(State(), serial, after)
    {
      if serial !in rings {
        return None;
      }
      var entries := rings[serial].Snapshot(after);
      r := Some((entries, changed));
    }
  }
}
