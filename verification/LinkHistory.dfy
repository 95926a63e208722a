/** When a link is online, told from the callbacks of a run. */
module LinkHistory {
  import opened Options
  import opened LinkState
  import opened LinkProtocol
  import opened LinkTheorems

  /** Thread t is at this place when step j moves it. */
  predicate Moves(ws: seq<World>, steps: seq<Step>, j: nat, pc: Pc)
    requires j < |steps| && j < |ws|
  {
    steps[j].Move? && steps[j].t in ws[j].pcs && ws[j].pcs[steps[j].t] == pc
  }

  /** Before state i a close has begun. */
  predicate CloseBegan(ws: seq<World>, steps: seq<Step>, i: nat)
    requires i <= |steps| < |ws|
  {
    exists j :: 0 <= j < i && Moves(ws, steps, j, Closing)
  }

  /** Step j ends epoch e: a connection, reconnect, real loss or close while it is current, or its own end. */
  predicate Ends(ws: seq<World>, steps: seq<Step>, j: nat, e: nat)
    requires j < |steps| < |ws|
  {
    || Moves(ws, steps, j, Leaving(e))
    || (&& ws[j].link.current == Some(e)
        && (|| Moves(ws, steps, j, Reconnecting)
            || Moves(ws, steps, j, Closing)
            || (Moves(ws, steps, j, Connecting) && !CloseBegan(ws, steps, j))
            || (Moves(ws, steps, j, HoldsLost) && !steps[j].open && !CloseBegan(ws, steps, j))))
  }

  predicate Ended(ws: seq<World>, steps: seq<Step>, i: nat, e: nat)
    requires i <= |steps| < |ws|
  {
    exists j :: 0 <= j < i && Ends(ws, steps, j, e)
  }

  lemma ClosingStep(w: World, step: Step)
    requires Enabled(w, step)
    ensures Next(w, step).link.closed == (w.link.closed || (step.Move? && w.pcs[step.t].Closing?))
  {
  }

  lemma {:induction false} ClosedIff(ws: seq<World>, steps: seq<Step>, i: nat)
    requires Run(ws, steps) && i < |ws|
    ensures ws[i].link.closed <==> CloseBegan(ws, steps, i)
  {
    if i > 0 {
      ClosedIff(ws, steps, i - 1);
      ClosingStep(ws[i - 1], steps[i - 1]);
      assert Moves(ws, steps, i - 1, Closing) <==> steps[i - 1].Move? && ws[i - 1].pcs[steps[i - 1].t].Closing?;
    }
  }

  lemma CancellingStep(w: World, step: Step, e: nat)
    requires Enabled(w, step)
    ensures e in Next(w, step).link.cancelled <==>
            || e in w.link.cancelled
            || (&& step.Move?
                && (|| w.pcs[step.t] == Leaving(e)
                    || (w.link.current == Some(e) && EndsEpoch(w.link, w.pcs[step.t], step.open))))
  {
  }

  lemma EndsIs(ws: seq<World>, steps: seq<Step>, j: nat, e: nat)
    requires Run(ws, steps) && j < |steps|
    ensures Ends(ws, steps, j, e) <==>
            && steps[j].Move?
            && (|| ws[j].pcs[steps[j].t] == Leaving(e)
                || (ws[j].link.current == Some(e) && EndsEpoch(ws[j].link, ws[j].pcs[steps[j].t], steps[j].open)))
  {
    ClosedIff(ws, steps, j);
    assert steps[j].Move? ==> steps[j].t in ws[j].pcs;
  }

  /** An epoch is cancelled exactly when an earlier step ended it. */
  lemma {:induction false} CancelledIff(ws: seq<World>, steps: seq<Step>, i: nat, e: nat)
    requires Run(ws, steps) && i < |ws|
    ensures e in ws[i].link.cancelled <==> Ended(ws, steps, i, e)
  {
    if i > 0 {
      CancelledIff(ws, steps, i - 1, e);
      CancellingStep(ws[i - 1], steps[i - 1], e);
      EndsIs(ws, steps, i - 1, e);
    }
  }

  /** Step j turns the link online for epoch e: the socket is open, no close has begun and nothing has ended e. */
  predicate Grants(ws: seq<World>, steps: seq<Step>, j: nat)
    requires j < |steps| < |ws|
  {
    && steps[j].Move? && steps[j].t in ws[j].pcs
    && ws[j].pcs[steps[j].t].Holds? && ws[j].pcs[steps[j].t].request.Some?
    && steps[j].open && !CloseBegan(ws, steps, j) && !Ended(ws, steps, j, ws[j].pcs[steps[j].t].request.value)
  }

  /** Step j takes the link offline: a status change that is not granted, or a real loss. */
  predicate Withdraws(ws: seq<World>, steps: seq<Step>, j: nat)
    requires j < |steps| < |ws|
  {
    && steps[j].Move? && steps[j].t in ws[j].pcs
    && (|| (ws[j].pcs[steps[j].t].Holds? && !Grants(ws, steps, j))
        || (ws[j].pcs[steps[j].t].HoldsLost? && !steps[j].open && !CloseBegan(ws, steps, j)))
  }

  lemma StatusStep(ws: seq<World>, steps: seq<Step>, j: nat)
    requires Run(ws, steps) && j < |steps|
    ensures ws[j + 1].link.online == (Grants(ws, steps, j) || (ws[j].link.online && !Withdraws(ws, steps, j)))
  {
    ClosedIff(ws, steps, j);
    var w, step := ws[j], steps[j];
    if step.Move? && w.pcs[step.t].Holds? && w.pcs[step.t].request.Some? {
      CancelledIff(ws, steps, j, w.pcs[step.t].request.value);
    }
    assert ws[j + 1] == Next(w, step);
  }

  /** Step j granted the link online and nothing has withdrawn it before state i. */
  predicate OnlineSince(ws: seq<World>, steps: seq<Step>, j: nat, i: nat)
    requires j < i <= |steps| < |ws|
  {
    Grants(ws, steps, j) && forall k :: j < k < i ==> !Withdraws(ws, steps, k)
  }

  predicate Granted(ws: seq<World>, steps: seq<Step>, i: nat)
    requires i <= |steps| < |ws|
  {
    exists j :: 0 <= j < i && OnlineSince(ws, steps, j, i)
  }

  lemma OneMoreGranted(ws: seq<World>, steps: seq<Step>, i: nat)
    requires i < |steps| < |ws|
    ensures Granted(ws, steps, i + 1) <==>
            Grants(ws, steps, i) || (Granted(ws, steps, i) && !Withdraws(ws, steps, i))
  {
    if Grants(ws, steps, i) {
      assert OnlineSince(ws, steps, i, i + 1);
    } else if Granted(ws, steps, i) && !Withdraws(ws, steps, i) {
      var j :| 0 <= j < i && OnlineSince(ws, steps, j, i);
      assert OnlineSince(ws, steps, j, i + 1);
    } else if Granted(ws, steps, i + 1) {
      var j :| 0 <= j < i + 1 && OnlineSince(ws, steps, j, i + 1);
      assert j < i && OnlineSince(ws, steps, j, i);
    }
  }

  /**
   A link is online if and only if it was turned online for an epoch not ended by then, with the socket open and no
   close begun, and neither a later status change nor a real loss has taken that back.
   */
  lemma {:induction false} OnlineIff(ws: seq<World>, steps: seq<Step>, i: nat)
    requires Run(ws, steps) && i < |ws|
    ensures ws[i].link.online <==> Granted(ws, steps, i)
  {
    if i > 0 {
      OnlineIff(ws, steps, i - 1);
      StatusStep(ws, steps, i - 1);
      OneMoreGranted(ws, steps, i - 1);
    }
  }

  // Going online.

  /** vs goes on from its first state by these moves. */
  ghost predicate Path(vs: seq<World>, moves: seq<Step>) {
    && |vs| == |moves| + 1
    && forall i :: 0 <= i < |moves| ==> Enabled(vs[i], moves[i]) && vs[i + 1] == Next(vs[i], moves[i])
  }

  ghost predicate Reaches(w: World, w': World, n: nat) {
    exists vs, moves :: Path(vs, moves) && vs[0] == w && vs[|moves|] == w' && |moves| <= n
  }

  lemma ReachesOn(w: World, step: Step, w': World, n: nat)
    requires Enabled(w, step) && Reaches(Next(w, step), w', n)
    ensures Reaches(w, w', n + 1)
  {
    var vs, moves :| Path(vs, moves) && vs[0] == Next(w, step) && vs[|moves|] == w' && |moves| <= n;
    assert Path([w] + vs, [step] + moves);
    assert ([w] + vs)[|[step] + moves|] == w';
  }

  lemma ReachesHere(w: World, n: nat)
    ensures Reaches(w, w, n)
  {
    assert Path([w], []);
  }

  /** A closed link has no epoch left. */
  predicate NoneLeft(l: Link) { l.closed && l.current.Some? ==> l.current.value in l.cancelled }

  lemma {:induction false} RunLeavesNone(ws: seq<World>, steps: seq<Step>, i: nat)
    requires Run(ws, steps) && i < |ws|
    ensures NoneLeft(ws[i].link)
  {
    if i > 0 {
      RunLeavesNone(ws, steps, i - 1);
    }
  }

  /** What going online needs of a state. */
  ghost predicate Ready(w: World, t: nat, e: nat) {
    && t in w.pcs && w.pcs[t] == Subscribing(e) && e !in w.link.cancelled && !w.link.closed
    && HoldOk(w) && ToldOk(w)
  }

  /** With transitions free, a granted subscription tells the link online in four moves of its thread. */
  lemma SubscribedTells(w: World, t: nat, e: nat) returns (w': World)
    requires Ready(w, t, e) && w.holder.None?
    ensures Reaches(w, w', 4)
    ensures w'.link.online && LastTold(w'.told) && t in w'.pcs && w'.pcs[t].Told?
  {
    var w1 := Next(w, Move(t, true));
    assert w1.pcs[t] == Wants(Some(e), ToLeave(e));
    var w2 := Next(w1, Move(t, true));
    assert w2.pcs[t] == Holds(Some(e), ToLeave(e));
    var w3 := Next(w2, Move(t, true));
    if w.link.online {
      assert w3.pcs[t] == Told(ToLeave(e));
      w' := w3;
      ReachesHere(w3, 1);
    } else {
      assert w3.pcs[t] == Tells(true, ToLeave(e));
      w' := Next(w3, Move(t, true));
      ReachesHere(w', 0);
      ReachesOn(w3, Move(t, true), w', 0);
    }
    ReachesOn(w2, Move(t, true), w', 1);
    ReachesOn(w1, Move(t, true), w', 2);
    ReachesOn(w, Move(t, true), w', 3);
  }

  lemma MoveKeepsReady(w: World, u: nat, t: nat, e: nat)
    requires Ready(w, t, e) && Enabled(w, Move(u, true)) && Holding(w.pcs[u])
    ensures Ready(Next(w, Move(u, true)), t, e)
  {
    StepKeepsHold(w, Move(u, true));
    StepKeepsTold(w, Move(u, true));
  }

  /** How many moves whoever holds transitions needs to release it. */
  function ToRelease(w: World): nat {
    if w.holder.None? || w.holder.value !in w.pcs then 0
    else
      match w.pcs[w.holder.value]
      case Told(_) => 1
      case Tells(_, _) => 2
      case _ => 3
  }

  lemma HolderMoves(w: World)
    requires HoldOk(w) && w.holder.Some?
    ensures var u := w.holder.value;
            && Enabled(w, Move(u, true)) && Holding(w.pcs[u])
            && ToRelease(Next(w, Move(u, true))) < ToRelease(w)
  {
  }

  lemma {:induction false} TransitionsIsReleased(w: World, t: nat, e: nat) returns (w': World)
    requires Ready(w, t, e)
    ensures Reaches(w, w', ToRelease(w)) && Ready(w', t, e) && w'.holder.None?
    decreases ToRelease(w)
  {
    if w.holder.None? {
      w' := w;
      ReachesHere(w, ToRelease(w));
    } else {
      var u := w.holder.value;
      HolderMoves(w);
      MoveKeepsReady(w, u, t, e);
      var w1 := Next(w, Move(u, true));
      w' := TransitionsIsReleased(w1, t, e);
      Sooner(w1, w', ToRelease(w1), ToRelease(w) - 1);
      ReachesOn(w, Move(u, true), w', ToRelease(w) - 1);
    }
  }

  lemma Sooner(w: World, w': World, m: nat, n: nat)
    requires Reaches(w, w', m) && m <= n
    ensures Reaches(w, w', n)
  {
    var vs, moves :| Path(vs, moves) && vs[0] == w && vs[|moves|] == w' && |moves| <= m;
  }

  lemma {:induction false} PathReaches(vs: seq<World>, moves: seq<Step>, w': World, n: nat)
    requires Path(vs, moves) && Reaches(vs[|moves|], w', n)
    ensures Reaches(vs[0], w', |moves| + n)
    decreases |moves|
  {
    if moves != [] {
      var last := |moves| - 1;
      ReachesOn(vs[last], moves[last], w', n);
      PathReaches(vs[..|moves|], moves[..last], w', n + 1);
    }
  }

  lemma Joined(w: World, v: World, w': World, m: nat, n: nat)
    requires Reaches(w, v, m) && Reaches(v, w', n)
    ensures Reaches(w, w', m + n)
  {
    var vs, moves :| Path(vs, moves) && vs[0] == w && vs[|moves|] == v && |moves| <= m;
    PathReaches(vs, moves, w', n);
    Sooner(w, w', |moves| + n, m + n);
  }

  /**
   From every state of every run: a thread whose subscription was granted for an epoch nothing has ended can bring the
   link online, and its observer told so, in at most seven moves with the socket open.
   */
  lemma SubscribedGoesOnline(ws: seq<World>, steps: seq<Step>, i: nat, t: nat, e: nat) returns (w': World)
    requires Run(ws, steps) && i < |ws| && t in ws[i].pcs && ws[i].pcs[t] == Subscribing(e)
    requires !Ended(ws, steps, i, e)
    ensures Reaches(ws[i], w', 7)
    ensures w'.link.online && LastTold(w'.told) && t in w'.pcs && w'.pcs[t].Told?
  {
    RunKeeps(ws, steps, i);
    CancelledIff(ws, steps, i, e);
    RunLeavesNone(ws, steps, i);
    LiveIsOpen(ws[i], t, e);
    var w := TransitionsIsReleased(ws[i], t, e);
    w' := SubscribedTells(w, t, e);
    Joined(ws[i], w, w', ToRelease(ws[i]), 4);
    Sooner(ws[i], w', ToRelease(ws[i]) + 4, 7);
  }

  lemma LiveIsOpen(w: World, t: nat, e: nat)
    requires Inv(w) && NoneLeft(w.link) && t in w.pcs && w.pcs[t] == Subscribing(e) && e !in w.link.cancelled
    ensures !w.link.closed
  {
    assert Owner(w.pcs[t]) == Some(e);
  }

  // Leaving.

  /** On the way from a subscription for epoch e to its end. */
  predicate Departs(pc: Pc, e: nat) {
    || pc == Subscribing(e) || pc == Leaving(e)
    || ((pc.Wants? || pc.Holds? || pc.Tells? || pc.Told?) && pc.after == ToLeave(e))
  }

  lemma DepartureStep(w: World, step: Step, t: nat, e: nat)
    requires Enabled(w, step) && t in w.pcs && (Departs(w.pcs[t], e) || e in w.link.cancelled)
    ensures var w' := Next(w, step); t in w'.pcs && (Departs(w'.pcs[t], e) || e in w'.link.cancelled)
  {
    CancellingStep(w, step, e);
  }

  /** A connection callback that has returned, whether it subscribed or gave up, has ended its epoch. */
  lemma {:induction false} ReturnedHasEnded(ws: seq<World>, steps: seq<Step>, j: nat, i: nat, t: nat, e: nat)
    requires Run(ws, steps) && j <= i < |ws| && t in ws[j].pcs && ws[j].pcs[t] == Subscribing(e)
    ensures t in ws[i].pcs && (Departs(ws[i].pcs[t], e) || Ended(ws, steps, i, e))
    ensures ws[i].pcs[t].Done? ==> Ended(ws, steps, i, e)
  {
    CancelledIff(ws, steps, i, e);
    if j < i {
      ReturnedHasEnded(ws, steps, j, i - 1, t, e);
      CancelledIff(ws, steps, i - 1, e);
      DepartureStep(ws[i - 1], steps[i - 1], t, e);
    }
  }
}
