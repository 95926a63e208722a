/** One printer's connection: online state, connection epochs and shutdown, as its mutex protects them. */
module LinkState {
  import opened Options

  datatype Link = Link(
    online: bool,
    closed: bool,
    current: Option<nat>,  // the epoch the stored cancel function ends
    epochs: nat,           // epochs begun
    cancelled: set<nat>)

  const Fresh := Link(false, false, None, 0, {})

  function Cancel(l: Link): Link {
    if l.current.Some? then l.(cancelled := l.cancelled + {l.current.value}) else l
  }

  /** A connection opens: the previous epoch ends and a new one begins, unless the link is closed. */
  function Connect(l: Link): (Link, Option<nat>) {
    if l.closed then (l, None)
    else (Cancel(l).(current := Some(l.epochs), epochs := l.epochs + 1), Some(l.epochs))
  }

  /** The value setOnline settles on: Some(e) asks for online on behalf of epoch e, None for offline. */
  predicate Settles(l: Link, request: Option<nat>, open: bool) {
    request.Some? && !l.closed && request.value !in l.cancelled && open
  }

  function SetOnline(l: Link, request: Option<nat>, open: bool): (Link, bool) {
    var online := Settles(l, request, open);
    (l.(online := online), l.online != online)
  }

  /** A loss is stale when the connection is open again. */
  function Lose(l: Link, open: bool): (Link, bool) {
    if open || l.closed then (l, false) else (Cancel(l).(online := false), l.online)
  }

  function Close(l: Link): Link { Cancel(l.(closed := true)) }

  /** What isOnline answers. */
  predicate IsOnline(l: Link, open: bool) { !l.closed && l.online && open }

  function Leave(l: Link, epoch: nat): Link { l.(cancelled := l.cancelled + {epoch}) }
}

/** The link object: each method is one section under mu. */
module LinkObject {
  import opened Options
  import L = LinkState

  class Link {
    var online: bool
    var closed: bool
    var current: Option<nat>
    var epochs: nat
    var cancelled: set<nat>

    function State(): L.Link
      reads this
    {
      L.Link(online, closed, current, epochs, cancelled)
    }

    constructor ()
      ensures State() == L.Fresh
    {
      online, closed, current, epochs, cancelled := false, false, None, 0, {};
    }

    method Cancel()
      modifies `cancelled
      ensures State() == L.Cancel(old(State()))
    {
      if current.Some? {
        cancelled := cancelled + {current.value};
      }
    }

    method Connect() returns (epoch: Option<nat>)
      modifies this
      ensures (State(), epoch) == L.Connect(old(State()))
    {
      if closed {
        return None;
      }
      Cancel();
      epoch := Some(epochs);
      current := epoch;
      epochs := epochs + 1;
    }

    method SetOnline(request: Option<nat>, open: bool) returns (value: bool, changed: bool)
      modifies this
      ensures (State(), changed) == L.SetOnline(old(State()), request, open)
      ensures value == online
    {
      value := request.Some?;
      if value {
        value := !closed && request.value !in cancelled && open;
      }
      changed := online != value;
      online := value;
    }

    method Lose(open: bool) returns (changed: bool)
      modifies this
      ensures (State(), changed) == L.Lose(old(State()), open)
    {
      if open || closed {
        return false;
      }
      Cancel();
      changed := online;
      online := false;
    }

    method Close()
      modifies this
      ensures State() == L.Close(old(State()))
    {
      closed := true;
      Cancel();
    }

    method IsOnline(open: bool) returns (b: bool)
      ensures b == L.IsOnline(State(), open)
    {
      b := !closed && online && open;
    }
  }
}

/**
 Every interleaving of the connection callbacks and shutdown. transitions is held from a status change to the
 end of its notification; mu sections are single steps; whether the socket is open is read anew each time.
 */
module LinkProtocol {
  import opened Options
  import opened LinkState

  /** Where a thread goes on after setOnline. */
  datatype After = ToSubscribe(epoch: nat) | ToLeave(epoch: nat) | ToDone | ToClosed

  datatype Pc =
    | Connecting | Reconnecting | Losing | Closing   // callback entered
    | Wants(request: Option<nat>, after: After)      // setOnline, waiting for transitions
    | Holds(request: Option<nat>, after: After)      // transitions held, status not yet changed
    | HoldsLost
    | Tells(value: bool, after: After)               // status changed, about to notify
    | Told(after: After)                             // about to release transitions
    | Subscribing(epoch: nat)
    | Leaving(epoch: nat)                            // about to run the deferred cancel
    | Done | Closed

  datatype Callback = OnConnect | OnReconnecting | OnLost | OnClose

  datatype World = World(
    link: Link,
    holder: Option<nat>,   // who holds transitions
    pcs: map<nat, Pc>,
    told: seq<bool>,       // notifications so far
    owners: seq<nat>)      // the epoch behind each change to online

  datatype Step = Call(t: nat, callback: Callback) | Move(t: nat, open: bool) | GiveUp(t: nat)

  const Initial := World(Fresh, None, map[], [], [])

  predicate Enabled(w: World, step: Step) {
    match step
    case Call(t, _) => t !in w.pcs
    case GiveUp(t) => t in w.pcs && w.pcs[t].Subscribing?
    case Move(t, open) =>
      && t in w.pcs && !w.pcs[t].Done? && !w.pcs[t].Closed?
      && (w.pcs[t].Wants? || w.pcs[t].Losing? ==> w.holder.None?)
      && (w.pcs[t].Subscribing? ==> open && w.pcs[t].epoch !in w.link.cancelled)
  }

  function Goto(w: World, t: nat, pc: Pc): World { w.(pcs := w.pcs[t := pc]) }

  function Entry(callback: Callback): Pc {
    match callback
    case OnConnect => Connecting
    case OnReconnecting => Reconnecting
    case OnLost => Losing
    case OnClose => Closing
  }

  function Resume(after: After): Pc {
    match after
    case ToSubscribe(e) => Subscribing(e)
    case ToLeave(e) => Leaving(e)
    case ToDone => Done
    case ToClosed => Closed
  }

  function DoConnect(w: World, t: nat): World {
    var (l, epoch) := Connect(w.link);
    Goto(w.(link := l), t, if epoch.Some? then Wants(None, ToSubscribe(epoch.value)) else Done)
  }

  function DoSet(w: World, t: nat, request: Option<nat>, after: After, open: bool): World {
    var (l, changed) := SetOnline(w.link, request, open);
    Goto(w.(link := l, owners := if changed && l.online && request.Some? then w.owners + [request.value] else w.owners),
         t, if changed then Tells(l.online, after) else Told(after))
  }

  function DoLose(w: World, t: nat, open: bool): World {
    var (l, changed) := Lose(w.link, open);
    Goto(w.(link := l), t, if changed then Tells(false, ToDone) else Told(ToDone))
  }

  function DoMove(w: World, t: nat, pc: Pc, open: bool): World {
    match pc
    case Connecting => DoConnect(w, t)
    case Reconnecting => Goto(w.(link := Cancel(w.link)), t, Wants(None, ToDone))
    case Losing => Goto(w.(holder := Some(t)), t, HoldsLost)
    case Closing => Goto(w.(link := Close(w.link)), t, Wants(None, ToClosed))
    case Wants(request, after) => Goto(w.(holder := Some(t)), t, Holds(request, after))
    case Holds(request, after) => DoSet(w, t, request, after, open)
    case HoldsLost => DoLose(w, t, open)
    case Tells(value, after) => Goto(w.(told := w.told + [value]), t, Told(after))
    case Told(after) => Goto(w.(holder := None), t, Resume(after))
    case Subscribing(e) => Goto(w, t, Wants(Some(e), ToLeave(e)))
    case Leaving(e) => Goto(w.(link := Leave(w.link, e)), t, Done)
    case Done => w
    case Closed => w
  }

  function Next(w: World, step: Step): World
    requires Enabled(w, step)
  {
    match step
    case Call(t, callback) => Goto(w, t, Entry(callback))
    case GiveUp(t) => Goto(w, t, Leaving(w.pcs[t].epoch))
    case Move(t, open) => DoMove(w, t, w.pcs[t], open)
  }

  ghost predicate Run(ws: seq<World>, steps: seq<Step>) {
    && |ws| == |steps| + 1 && ws[0] == Initial
    && forall i :: 0 <= i < |steps| ==> Enabled(ws[i], steps[i]) && ws[i + 1] == Next(ws[i], steps[i])
  }
}

module LinkTheorems {
  import opened Options
  import opened LinkState
  import opened LinkProtocol

  // Who holds transitions.

  predicate Holding(pc: Pc) { pc.Holds? || pc.HoldsLost? || pc.Tells? || pc.Told? }

  ghost predicate HoldOk(w: World) {
    && (w.holder.Some? ==> w.holder.value in w.pcs)
    && forall t :: t in w.pcs ==> (Holding(w.pcs[t]) <==> w.holder == Some(t))
  }

  lemma StepKeepsHold(w: World, step: Step)
    requires HoldOk(w) && Enabled(w, step)
    ensures HoldOk(Next(w, step))
  {
  }

  // Notifications.

  predicate Alternates(told: seq<bool>) {
    forall i :: 0 <= i < |told| ==> told[i] == (i % 2 == 0)
  }

  /** The last notification; offline before any. */
  predicate LastTold(told: seq<bool>) { |told| > 0 && told[|told| - 1] }

  predicate Telling(w: World) {
    w.holder.Some? && w.holder.value in w.pcs && w.pcs[w.holder.value].Tells?
  }

  predicate ToldOk(w: World) {
    && Alternates(w.told)
    && LastTold(w.told) == (if Telling(w) then !w.link.online else w.link.online)
    && (Telling(w) ==> w.pcs[w.holder.value].value == w.link.online)
  }

  lemma TellAlternates(told: seq<bool>, value: bool)
    requires Alternates(told) && LastTold(told) == !value
    ensures Alternates(told + [value]) && LastTold(told + [value]) == value
  {
  }

  lemma MoveKeepsTold(w: World, t: nat, open: bool)
    requires HoldOk(w) && ToldOk(w) && Enabled(w, Move(t, open))
    ensures ToldOk(DoMove(w, t, w.pcs[t], open))
  {
    if w.pcs[t].Tells? {
      TellAlternates(w.told, w.pcs[t].value);
    }
  }

  lemma StepKeepsTold(w: World, step: Step)
    requires HoldOk(w) && ToldOk(w) && Enabled(w, step)
    ensures ToldOk(Next(w, step))
  {
    if step.Move? {
      MoveKeepsTold(w, step.t, step.open);
    }
  }

  // Epochs.

  /** Only the newest epoch can be alive. */
  ghost predicate EpochsOk(l: Link) {
    && l.current == (if l.epochs == 0 then None else Some(l.epochs - 1))
    && forall e: nat :: e < l.epochs && e !in l.cancelled ==> e == l.epochs - 1
  }

  /** The epoch this thread may still turn the link online for. */
  function Owner(pc: Pc): Option<nat> {
    match pc
    case Wants(Some(e), _) => Some(e)
    case Holds(Some(e), _) => Some(e)
    case Wants(None, ToSubscribe(e)) => Some(e)
    case Holds(None, ToSubscribe(e)) => Some(e)
    case Tells(_, ToSubscribe(e)) => Some(e)
    case Told(ToSubscribe(e)) => Some(e)
    case Subscribing(e) => Some(e)
    case _ => None
  }

  /** An epoch's request is made on its way out of connected. */
  predicate Shaped(pc: Pc) {
    (pc.Wants? || pc.Holds?) && pc.request.Some? ==> pc.after.ToLeave?
  }

  ghost predicate ClaimsOk(pcs: map<nat, Pc>, owners: seq<nat>, epochs: nat) {
    && (forall t :: t in pcs ==> Shaped(pcs[t]))
    && (forall t :: t in pcs && Owner(pcs[t]).Some? ==> Owner(pcs[t]).value < epochs && Owner(pcs[t]).value !in owners)
    && (forall t, u :: t in pcs && u in pcs && Owner(pcs[t]).Some? && Owner(pcs[t]) == Owner(pcs[u]) ==> t == u)
  }

  ghost predicate NewerOk(owners: seq<nat>, epochs: nat) {
    && (forall i :: 0 <= i < |owners| ==> owners[i] < epochs)
    && (forall i, j :: 0 <= i < j < |owners| ==> owners[i] < owners[j])
  }

  ghost predicate OwnersOk(w: World) {
    EpochsOk(w.link) && ClaimsOk(w.pcs, w.owners, w.link.epochs) && NewerOk(w.owners, w.link.epochs)
  }

  /** Moving one thread without a new claim keeps the claims apart. */
  lemma SameClaim(pcs: map<nat, Pc>, owners: seq<nat>, epochs: nat, t: nat, pc: Pc)
    requires ClaimsOk(pcs, owners, epochs) && Shaped(pc)
    requires Owner(pc).None? || (t in pcs && Owner(pc) == Owner(pcs[t]))
    ensures ClaimsOk(pcs[t := pc], owners, epochs)
  {
  }

  lemma NewClaim(pcs: map<nat, Pc>, owners: seq<nat>, epochs: nat, t: nat)
    requires ClaimsOk(pcs, owners, epochs) && NewerOk(owners, epochs)
    ensures ClaimsOk(pcs[t := Wants(None, ToSubscribe(epochs))], owners, epochs + 1) && NewerOk(owners, epochs + 1)
  {
    var pcs' := pcs[t := Wants(None, ToSubscribe(epochs))];
    assert epochs !in owners;
    forall u | u in pcs' && u != t ensures Shaped(pcs'[u]) && Owner(pcs'[u]) != Some(epochs) {
      assert u in pcs;
    }
  }

  /** The claim of the newest epoch is used up. */
  lemma UsedClaim(pcs: map<nat, Pc>, owners: seq<nat>, e: nat, t: nat, pc: Pc)
    requires ClaimsOk(pcs, owners, e + 1) && NewerOk(owners, e + 1)
    requires t in pcs && Owner(pcs[t]) == Some(e) && Shaped(pc) && Owner(pc).None?
    ensures ClaimsOk(pcs[t := pc], owners + [e], e + 1) && NewerOk(owners + [e], e + 1)
  {
    var owners' := owners + [e];
    forall i | 0 <= i < |owners| ensures owners'[i] < e {
      assert owners[i] in owners;
    }
  }

  lemma ConnectKeepsOwners(w: World, t: nat)
    requires OwnersOk(w)
    ensures OwnersOk(DoConnect(w, t))
  {
    if w.link.closed {
      SameClaim(w.pcs, w.owners, w.link.epochs, t, Done);
    } else {
      NewClaim(w.pcs, w.owners, w.link.epochs, t);
      assert EpochsOk(Connect(w.link).0);
    }
  }

  lemma SetKeepsOwners(w: World, t: nat, request: Option<nat>, after: After, open: bool)
    requires OwnersOk(w) && t in w.pcs && w.pcs[t] == Holds(request, after)
    ensures OwnersOk(DoSet(w, t, request, after, open))
  {
    var (l, changed) := SetOnline(w.link, request, open);
    var pc := if changed then Tells(l.online, after) else Told(after);
    if changed && l.online {
      assert request.value == w.link.epochs - 1;
      UsedClaim(w.pcs, w.owners, request.value, t, pc);
    } else {
      assert Shaped(w.pcs[t]);
      SameClaim(w.pcs, w.owners, w.link.epochs, t, pc);
    }
  }

  lemma EpochsKept(l: Link, open: bool, epoch: nat)
    requires EpochsOk(l)
    ensures EpochsOk(Cancel(l)) && Cancel(l).epochs == l.epochs
    ensures EpochsOk(Close(l)) && Close(l).epochs == l.epochs
    ensures EpochsOk(Lose(l, open).0) && Lose(l, open).0.epochs == l.epochs
    ensures EpochsOk(Leave(l, epoch)) && Leave(l, epoch).epochs == l.epochs
  {
  }

  /** The thread state after a step that begins no epoch and turns nothing online. */
  function PlainMove(pc: Pc, lost: bool): Pc {
    match pc
    case Reconnecting => Wants(None, ToDone)
    case Losing => HoldsLost
    case Closing => Wants(None, ToClosed)
    case Wants(request, after) => Holds(request, after)
    case HoldsLost => if lost then Tells(false, ToDone) else Told(ToDone)
    case Tells(_, after) => Told(after)
    case Told(after) => Resume(after)
    case Subscribing(e) => Wants(Some(e), ToLeave(e))
    case _ => Done
  }

  lemma PlainMoveKeepsClaim(pc: Pc, lost: bool)
    requires Shaped(pc)
    ensures Shaped(PlainMove(pc, lost)) && (Owner(PlainMove(pc, lost)).None? || Owner(PlainMove(pc, lost)) == Owner(pc))
  {
  }

  lemma PlainMoveIs(w: World, t: nat, pc: Pc, open: bool)
    requires !pc.Connecting? && !pc.Holds? && !pc.Done? && !pc.Closed?
    ensures DoMove(w, t, pc, open).pcs == w.pcs[t := PlainMove(pc, Lose(w.link, open).1)]
    ensures DoMove(w, t, pc, open).owners == w.owners
    ensures DoMove(w, t, pc, open).link
            in {w.link, Cancel(w.link), Close(w.link), Lose(w.link, open).0,
                Leave(w.link, if pc.Leaving? then pc.epoch else 0)}
  {
  }

  lemma MoveKeepsOwners(w: World, t: nat, open: bool)
    requires OwnersOk(w) && Enabled(w, Move(t, open))
    ensures OwnersOk(DoMove(w, t, w.pcs[t], open))
  {
    var pc := w.pcs[t];
    if pc.Connecting? {
      ConnectKeepsOwners(w, t);
    } else if pc.Holds? {
      SetKeepsOwners(w, t, pc.request, pc.after, open);
    } else {
      PlainMoveKeepsClaim(pc, Lose(w.link, open).1);
      SameClaim(w.pcs, w.owners, w.link.epochs, t, PlainMove(pc, Lose(w.link, open).1));
      EpochsKept(w.link, open, if pc.Leaving? then pc.epoch else 0);
      PlainMoveIs(w, t, pc, open);
    }
  }

  lemma StepKeepsOwners(w: World, step: Step)
    requires OwnersOk(w) && Enabled(w, step)
    ensures OwnersOk(Next(w, step))
  {
    match step {
      case Call(t, callback) => SameClaim(w.pcs, w.owners, w.link.epochs, t, Entry(callback));
      case GiveUp(t) => SameClaim(w.pcs, w.owners, w.link.epochs, t, Leaving(w.pcs[t].epoch));
      case Move(t, open) => MoveKeepsOwners(w, t, open);
    }
  }

  // Shutdown.

  /** This thread's close has told the link offline. */
  predicate PastClose(pc: Pc) { pc.Closed? || pc == Told(ToClosed) }

  predicate InClose(pc: Pc) {
    PastClose(pc) || ((pc.Wants? || pc.Holds? || pc.Tells?) && pc.after.ToClosed?)
  }

  /** A close only ever asks for offline. */
  predicate Closes(pc: Pc) {
    && ((pc.Wants? || pc.Holds?) && pc.after.ToClosed? ==> pc.request.None?)
    && (pc.Tells? && pc.after.ToClosed? ==> !pc.value)
  }

  ghost predicate ClosedOk(w: World) {
    && (forall t :: t in w.pcs ==> Closes(w.pcs[t]) && (InClose(w.pcs[t]) ==> w.link.closed))
    && (forall t :: t in w.pcs && PastClose(w.pcs[t]) ==> !w.link.online && !Telling(w))
  }

  lemma MoveKeepsCloses(w: World, t: nat, pc: Pc, open: bool)
    requires t in w.pcs && w.pcs[t] == pc && Closes(pc) && (InClose(pc) ==> w.link.closed)
    ensures var w' := DoMove(w, t, pc, open);
            && w'.pcs == w.pcs[t := w'.pcs[t]] && Closes(w'.pcs[t])
            && (InClose(w'.pcs[t]) ==> w'.link.closed) && (w.link.closed ==> w'.link.closed)
  {
  }

  /** On a closed link that is offline nothing changes the status. */
  lemma ClosedStaysOffline(w: World, t: nat, open: bool)
    requires HoldOk(w) && Enabled(w, Move(t, open)) && w.link.closed && !w.link.online && !Telling(w)
    ensures !DoMove(w, t, w.pcs[t], open).link.online && !Telling(DoMove(w, t, w.pcs[t], open))
    ensures DoMove(w, t, w.pcs[t], open).told == w.told
  {
  }

  lemma CloseTellsOffline(w: World, t: nat, open: bool)
    requires HoldOk(w) && ToldOk(w) && ClosedOk(w) && Enabled(w, Move(t, open)) && !PastClose(w.pcs[t])
    ensures var w' := DoMove(w, t, w.pcs[t], open); PastClose(w'.pcs[t]) ==> !w'.link.online && !Telling(w')
  {
  }

  lemma StepKeepsClosed(w: World, step: Step)
    requires HoldOk(w) && ToldOk(w) && ClosedOk(w) && Enabled(w, step)
    ensures ClosedOk(Next(w, step))
  {
    if step.Move? {
      var t := step.t;
      MoveKeepsCloses(w, t, w.pcs[t], step.open);
      var w' := DoMove(w, t, w.pcs[t], step.open);
      forall u | u in w'.pcs && PastClose(w'.pcs[u])
        ensures !w'.link.online && !Telling(w')
      {
        if u == t && !PastClose(w.pcs[t]) {
          CloseTellsOffline(w, t, step.open);
        } else {
          assert u in w.pcs && PastClose(w.pcs[u]) && InClose(w.pcs[u]);
          ClosedStaysOffline(w, t, step.open);
        }
      }
    }
  }

  // The theorems.

  ghost predicate Inv(w: World) { HoldOk(w) && ToldOk(w) && OwnersOk(w) && ClosedOk(w) }

  lemma {:induction false} RunKeeps(ws: seq<World>, steps: seq<Step>, i: nat)
    requires Run(ws, steps) && i < |ws|
    ensures Inv(ws[i])
  {
    if i > 0 {
      RunKeeps(ws, steps, i - 1);
      StepKeepsHold(ws[i - 1], steps[i - 1]);
      StepKeepsTold(ws[i - 1], steps[i - 1]);
      StepKeepsOwners(ws[i - 1], steps[i - 1]);
      StepKeepsClosed(ws[i - 1], steps[i - 1]);
    }
  }

  /** Notifications alternate, starting with online; whenever transitions is free the last one is the status. */
  lemma NotificationsFollowStatus(ws: seq<World>, steps: seq<Step>, i: nat)
    requires Run(ws, steps) && i < |ws|
    ensures Alternates(ws[i].told)
    ensures ws[i].holder.None? ==> LastTold(ws[i].told) == ws[i].link.online
  {
    RunKeeps(ws, steps, i);
  }

  lemma {:induction false} CancelledStays(ws: seq<World>, steps: seq<Step>, j: nat, i: nat)
    requires Run(ws, steps) && j <= i < |ws|
    ensures ws[j].link.cancelled <= ws[i].link.cancelled
    ensures ws[j].owners <= ws[i].owners
  {
    if j < i {
      CancelledStays(ws, steps, j, i - 1);
    }
  }

  /** What turns the link online. */
  lemma TurningOnline(w: World, step: Step)
    requires OwnersOk(w) && Enabled(w, step) && !w.link.online && Next(w, step).link.online
    ensures w.link.current.Some? && w.link.current.value !in w.link.cancelled
    ensures Next(w, step).owners == w.owners + [w.link.current.value]
  {
    var pc := w.pcs[step.t];
    assert step.Move? && pc.Holds?;
    assert Owner(pc) == pc.request;
  }

  /**
   Each time the link turns online it does so for a newer epoch than every time before, and never for an epoch
   cancelled earlier in the run.
   */
  lemma OnlineOnlyForNewerEpochs(ws: seq<World>, steps: seq<Step>, i: nat)
    requires Run(ws, steps) && i < |steps| && !ws[i].link.online && ws[i + 1].link.online
    ensures ws[i].link.current.Some? && ws[i + 1].owners == ws[i].owners + [ws[i].link.current.value]
    ensures forall k :: 0 <= k < |ws[i].owners| ==> ws[i].owners[k] < ws[i].link.current.value
    ensures forall j :: 0 <= j <= i ==> ws[i].link.current.value !in ws[j].link.cancelled
  {
    RunKeeps(ws, steps, i);
    RunKeeps(ws, steps, i + 1);
    TurningOnline(ws[i], steps[i]);
    var owners := ws[i + 1].owners;
    assert forall k :: 0 <= k < |ws[i].owners| ==> owners[k] == ws[i].owners[k] && owners[k] < owners[|ws[i].owners|];
    forall j | 0 <= j <= i ensures ws[i].link.current.value !in ws[j].link.cancelled {
      CancelledStays(ws, steps, j, i);
    }
  }

  /** A new connection, a reconnect, a loss that is not stale, or a close. */
  predicate EndsEpoch(l: Link, pc: Pc, open: bool) {
    (pc.Connecting? && !l.closed) || pc.Reconnecting? || pc.Closing? || (pc.HoldsLost? && !open && !l.closed)
  }

  lemma EndingCancels(w: World, t: nat, open: bool)
    requires Enabled(w, Move(t, open)) && EndsEpoch(w.link, w.pcs[t], open) && w.link.current.Some?
    ensures w.link.current.value in DoMove(w, t, w.pcs[t], open).link.cancelled
  {
  }

  /** An epoch ended at step j is cancelled ever after, and the link never turns online for it again. */
  lemma EndedEpochStaysOffline(ws: seq<World>, steps: seq<Step>, j: nat, i: nat)
    requires Run(ws, steps) && j < i < |ws| && steps[j].Move? && ws[j].link.current.Some?
    requires EndsEpoch(ws[j].link, ws[j].pcs[steps[j].t], steps[j].open)
    ensures ws[j].link.current.value in ws[i].link.cancelled
    ensures i < |steps| && !ws[i].link.online && ws[i + 1].link.online ==> ws[i].link.current != ws[j].link.current
  {
    EndingCancels(ws[j], steps[j].t, steps[j].open);
    CancelledStays(ws, steps, j + 1, i);
    if i < |steps| && !ws[i].link.online && ws[i + 1].link.online {
      OnlineOnlyForNewerEpochs(ws, steps, i);
    }
  }

  lemma ClosedStepIsSilent(w: World, step: Step, t: nat)
    requires HoldOk(w) && ClosedOk(w) && Enabled(w, step) && t in w.pcs && w.pcs[t].Closed?
    ensures t in Next(w, step).pcs && Next(w, step).pcs[t].Closed? && Next(w, step).told == w.told
  {
    if step.Move? {
      MoveKeepsCloses(w, step.t, w.pcs[step.t], step.open);
      ClosedStaysOffline(w, step.t, step.open);
    }
  }

  predicate ReturnedSilently(w: World, w': World, t: nat) {
    t in w.pcs && w.pcs[t].Closed? ==> t in w'.pcs && w'.pcs[t].Closed? && w'.told == w.told
  }

  lemma {:induction false} SilenceStays(ws: seq<World>, t: nat, j: nat, i: nat)
    requires j <= i < |ws| && t in ws[j].pcs && ws[j].pcs[t].Closed?
    requires forall k: nat :: j <= k < i ==> ReturnedSilently(ws[k], ws[k + 1], t)
    ensures t in ws[i].pcs && ws[i].pcs[t].Closed? && ws[i].told == ws[j].told
  {
    if j < i {
      SilenceStays(ws, t, j, i - 1);
      assert ReturnedSilently(ws[i - 1], ws[i], t);
    }
  }

  lemma RunStepIsSilent(ws: seq<World>, steps: seq<Step>, t: nat, k: nat)
    requires Run(ws, steps) && k < |steps|
    ensures ReturnedSilently(ws[k], ws[k + 1], t)
  {
    if t in ws[k].pcs && ws[k].pcs[t].Closed? {
      RunKeeps(ws, steps, k);
      ClosedStepIsSilent(ws[k], steps[k], t);
    }
  }

  lemma ReturnedIsOffline(w: World, t: nat)
    requires Inv(w) && t in w.pcs && w.pcs[t].Closed?
    ensures !w.link.online && !LastTold(w.told)
  {
  }

  /** Once a close has returned the link is offline, the last notification was offline, and none follows. */
  lemma CloseIsFinal(ws: seq<World>, steps: seq<Step>, t: nat, j: nat, i: nat)
    requires Run(ws, steps) && j <= i < |ws| && t in ws[j].pcs && ws[j].pcs[t].Closed?
    ensures t in ws[i].pcs && ws[i].pcs[t].Closed?
    ensures !ws[i].link.online && !LastTold(ws[i].told) && ws[i].told == ws[j].told
  {
    forall k: nat | j <= k < i
      ensures ReturnedSilently(ws[k], ws[k + 1], t)
    {
      RunStepIsSilent(ws, steps, t, k);
    }
    SilenceStays(ws, t, j, i);
    RunKeeps(ws, steps, i);
    ReturnedIsOffline(ws[i], t);
  }

  /**
   What isOnline answers between status changes: online exactly when the last notification was online, the socket is
   open and no close has begun; and never again once a close has returned, even in the middle of a change.
   */
  lemma ShownAsNotified(ws: seq<World>, steps: seq<Step>, i: nat, open: bool)
    requires Run(ws, steps) && i < |ws|
    ensures ws[i].holder.None? ==> (IsOnline(ws[i].link, open) <==> LastTold(ws[i].told) && open && !ws[i].link.closed)
    ensures (exists t :: t in ws[i].pcs && InClose(ws[i].pcs[t])) ==> !IsOnline(ws[i].link, open)
  {
    RunKeeps(ws, steps, i);
  }
}
