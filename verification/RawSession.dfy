/** One raw camera session after authentication: which shared frames are forwarded, and when it ends. */
module RawSession {
  import opened Options
  import opened CameraWire
  import CaptureState
  import CaptureProtocol
  import CaptureTheorems

  const CACHE_MAX_AGE: int := 5000  // milliseconds
  const FRAME_BUDGET: int := 15000

  /** A shared frame. Frames of other capture kinds carry no header. */
  datatype Shot = Shot(seqNo: nat, captured: int, frame: Frame)

  /** A write of a frame: how many of its bytes reach the client, and when it is over. */
  datatype Write = Write(count: nat, done: int)

  /** One turn of the loop: the answers of the context, the clock, the wait and the write. */
  datatype Turn = Turn(cancelled: bool, now: int, shot: Option<Shot>, checked: int, write: Write)

  /** A frame sent in full: when its turn began, its age was checked and the write was over. */
  datatype Sent = Sent(shot: Shot, began: int, checked: int, done: int)

  datatype Session = Session(lastSeq: nat, budgetStart: int, sent: seq<Sent>, out: seq<Byte>, open: bool)

  predicate Fits(f: Frame) { |f.header| == HEADER_LENGTH }

  /** sendFrame: refused without a raw header, cut off when the write fails. */
  function Send(s: Session, shot: Shot, began: int, checked: int, w: Write): Session {
    if !Fits(shot.frame) then s.(open := false)
    else if w.count < |Encode(shot.frame)| then s.(out := s.out + Encode(shot.frame)[..w.count], open := false)
    else
      s.(out := s.out + Encode(shot.frame), sent := s.sent + [Sent(shot, began, checked, w.done)],
         budgetStart := w.done)
  }

  /** The cached frame counts as the first when it is fresh enough. */
  function Open(start: int, cached: Option<Shot>, checked: int, w: Write): Session {
    var s := Session(0, start, [], [], true);
    match cached
    case None => s
    case Some(shot) =>
      var s1 := s.(lastSeq := shot.seqNo);
      if checked - shot.captured <= CACHE_MAX_AGE then Send(s1, shot, start, checked, w) else s1
  }

  function Take(s: Session, t: Turn): Session {
    if !s.open then s
    else if t.cancelled || FRAME_BUDGET - (t.now - s.budgetStart) <= 0 || t.shot.None? then s.(open := false)
    else
      var s1 := s.(lastSeq := t.shot.value.seqNo);
      if t.checked - t.shot.value.captured > CACHE_MAX_AGE then s1
      else Send(s1, t.shot.value, t.now, t.checked, t.write)
  }

  function Play(s: Session, turns: seq<Turn>): Session {
    if turns == [] then s else Take(Play(s, turns[..|turns| - 1]), turns[|turns| - 1])
  }

  /** Every wait answers with a frame newer than the one it was asked after. */
  predicate Newer(s: Session, turns: seq<Turn>) {
    forall i :: 0 <= i < |turns| && turns[i].shot.Some? && Play(s, turns[..i]).open ==>
      Play(s, turns[..i]).lastSeq < turns[i].shot.value.seqNo
  }

  /** Frames with a raw header were read off a camera. */
  predicate FromCamera(shot: Option<Shot>) { shot.Some? && Fits(shot.value.frame) ==> IsFrame(shot.value.frame) }

  /** The loop, given what the world answers. */
  method Serve(start: int, cached: Option<Shot>, checked: int, w: Write, turns: seq<Turn>) returns (s: Session)
    ensures s == Play(Open(start, cached, checked, w), turns)
  {
    s := Session(0, start, [], [], true);
    if cached.Some? {
      s := s.(lastSeq := cached.value.seqNo);
      if checked - cached.value.captured <= CACHE_MAX_AGE {
        s := WriteOut(s, cached.value, start, checked, w);
      }
    }
    for i := 0 to |turns|
      invariant s == Play(Open(start, cached, checked, w), turns[..i])
    {
      assert turns[..i + 1][..i] == turns[..i];
      if s.open {
        var t := turns[i];
        var remaining := FRAME_BUDGET - (t.now - s.budgetStart);
        if t.cancelled || remaining <= 0 || t.shot.None? {
          s := s.(open := false);
        } else {
          s := s.(lastSeq := t.shot.value.seqNo);
          if t.checked - t.shot.value.captured <= CACHE_MAX_AGE {
            s := WriteOut(s, t.shot.value, t.now, t.checked, t.write);
          }
        }
      }
    }
    assert turns[..|turns|] == turns;
  }

  method WriteOut(s: Session, shot: Shot, began: int, checked: int, w: Write) returns (s': Session)
    ensures s' == Send(s, shot, began, checked, w)
  {
    if |shot.frame.header| != HEADER_LENGTH {
      return s.(open := false);
    }
    var bytes := shot.frame.header + shot.frame.jpeg;
    if w.count < |bytes| {
      return s.(out := s.out + bytes[..w.count], open := false);
    }
    s' := s.(out := s.out + bytes, sent := s.sent + [Sent(shot, began, checked, w.done)], budgetStart := w.done);
  }

  // What a client gets.

  function Frames(sent: seq<Sent>): seq<Frame> { seq(|sent|, i requires 0 <= i < |sent| => sent[i].shot.frame) }

  predicate FramesOk(sent: seq<Sent>) {
    forall i :: 0 <= i < |sent| ==> IsFrame(sent[i].shot.frame)
  }

  /** When the budget for the i-th frame sent began to run. */
  function WindowStart(sent: seq<Sent>, i: nat, start: int): int
    requires i <= |sent|
  {
    if i == 0 then start else sent[i - 1].done
  }

  ghost predicate Rising(sent: seq<Sent>, lastSeq: nat) {
    && (forall i, j :: 0 <= i < j < |sent| ==> sent[i].shot.seqNo < sent[j].shot.seqNo)
    && (forall i :: 0 <= i < |sent| ==> sent[i].shot.seqNo <= lastSeq)
  }

  predicate FreshWhenChecked(sent: seq<Sent>) {
    forall i :: 0 <= i < |sent| ==> sent[i].checked - sent[i].shot.captured <= CACHE_MAX_AGE
  }

  predicate WithinBudget(sent: seq<Sent>, start: int) {
    forall i :: 0 <= i < |sent| ==> sent[i].began - WindowStart(sent, i, start) < FRAME_BUDGET
  }

  /** Strictly newer frames only, each fresh when checked and begun within its budget, which runs from the last send. */
  ghost predicate Sound(s: Session, start: int) {
    && Rising(s.sent, s.lastSeq) && FreshWhenChecked(s.sent) && WithinBudget(s.sent, start)
    && s.budgetStart == WindowStart(s.sent, |s.sent|, start)
  }

  /** What was written: the frames sent and, once the session is over, possibly a part of one more. */
  ghost predicate Written(s: Session) {
    && EncodeAll(Frames(s.sent)) <= s.out
    && (s.open ==> s.out == EncodeAll(Frames(s.sent)))
    && exists f: Frame :: IsFrame(f) && s.out[|EncodeAll(Frames(s.sent))|..] < Encode(f)
  }

  lemma OneMoreWritten(sent: seq<Sent>, x: Sent)
    ensures Frames(sent + [x]) == Frames(sent) + [x.shot.frame]
    ensures EncodeAll(Frames(sent + [x])) == EncodeAll(Frames(sent)) + Encode(x.shot.frame)
  {
    assert Frames(sent + [x])[..|sent|] == Frames(sent);
  }

  /** Some frame there is. */
  lemma AFrame(f: Frame)
    requires f == Frame([4] + Zeros(15), [0xFF, 0xD8, 0xFF, 0xD9])
    ensures IsFrame(f) && [] < Encode(f)
  {
    assert f.header[0] == 4 && f.header[1] == f.header[2] == f.header[3] == 0;
  }

  lemma SentStaysWithinBudget(sent: seq<Sent>, x: Sent, start: int)
    requires WithinBudget(sent, start) && x.began - WindowStart(sent, |sent|, start) < FRAME_BUDGET
    ensures WithinBudget(sent + [x], start) && WindowStart(sent + [x], |sent| + 1, start) == x.done
  {
    var all := sent + [x];
    forall i | 0 <= i < |all| ensures all[i].began - WindowStart(all, i, start) < FRAME_BUDGET {
      assert WindowStart(all, i, start) == WindowStart(sent, i, start);
    }
  }

  lemma SentStaysRising(sent: seq<Sent>, x: Sent)
    requires Rising(sent, x.shot.seqNo) && forall i :: 0 <= i < |sent| ==> sent[i].shot.seqNo < x.shot.seqNo
    ensures Rising(sent + [x], x.shot.seqNo)
  {
  }

  lemma SentKeepsSound(s: Session, start: int, x: Sent)
    requires Sound(s, start) && s.lastSeq == x.shot.seqNo
    requires forall i :: 0 <= i < |s.sent| ==> s.sent[i].shot.seqNo < x.shot.seqNo
    requires x.checked - x.shot.captured <= CACHE_MAX_AGE && x.began - s.budgetStart < FRAME_BUDGET
    ensures Sound(s.(out := s.out + Encode(x.shot.frame), sent := s.sent + [x], budgetStart := x.done), start)
  {
    SentStaysRising(s.sent, x);
    SentStaysWithinBudget(s.sent, x, start);
  }

  lemma SendKeepsSound(s: Session, start: int, shot: Shot, began: int, checked: int, w: Write)
    requires began - s.budgetStart < FRAME_BUDGET && checked - shot.captured <= CACHE_MAX_AGE
    requires Sound(s.(lastSeq := shot.seqNo), start) && FromCamera(Some(shot))
    requires forall i :: 0 <= i < |s.sent| ==> s.sent[i].shot.seqNo < shot.seqNo
    ensures Sound(Send(s.(lastSeq := shot.seqNo), shot, began, checked, w), start)
  {
    var s1 := s.(lastSeq := shot.seqNo);
    if !Fits(shot.frame) {
      assert Send(s1, shot, began, checked, w) == s1.(open := false);
    } else if w.count >= |Encode(shot.frame)| {
      SentKeepsSound(s1, start, Sent(shot, began, checked, w.done));
    }
  }

  lemma SendKeepsWritten(s: Session, shot: Shot, began: int, checked: int, w: Write)
    requires Written(s) && FramesOk(s.sent) && s.open && FromCamera(Some(shot))
    ensures Written(Send(s, shot, began, checked, w)) && FramesOk(Send(s, shot, began, checked, w).sent)
  {
    var s' := Send(s, shot, began, checked, w);
    var before := EncodeAll(Frames(s.sent));
    if !Fits(shot.frame) {
    } else if w.count < |Encode(shot.frame)| {
      assert s'.out[|before|..] == Encode(shot.frame)[..w.count];
    } else {
      OneMoreWritten(s.sent, Sent(shot, began, checked, w.done));
      AFrame(Frame([4] + Zeros(15), [0xFF, 0xD8, 0xFF, 0xD9]));
      assert s'.out[|EncodeAll(Frames(s'.sent))|..] == [];
    }
  }

  lemma OpenIsSound(start: int, cached: Option<Shot>, checked: int, w: Write)
    requires FromCamera(cached)
    ensures Sound(Open(start, cached, checked, w), start)
    ensures Written(Open(start, cached, checked, w)) && FramesOk(Open(start, cached, checked, w).sent)
  {
    var s := Session(if cached.Some? then cached.value.seqNo else 0, start, [], [], true);
    AFrame(Frame([4] + Zeros(15), [0xFF, 0xD8, 0xFF, 0xD9]));
    assert Frames([]) == [] && s.out[|EncodeAll(Frames(s.sent))|..] == [];
    assert Written(s);
    if cached.Some? && checked - cached.value.captured <= CACHE_MAX_AGE {
      SendKeepsSound(s, start, cached.value, start, checked, w);
      SendKeepsWritten(s, cached.value, start, checked, w);
    }
  }

  lemma TakeKeepsSound(s: Session, start: int, t: Turn)
    requires Sound(s, start) && FromCamera(t.shot)
    requires s.open && t.shot.Some? ==> s.lastSeq < t.shot.value.seqNo
    ensures Sound(Take(s, t), start)
  {
    if s.open && !t.cancelled && FRAME_BUDGET - (t.now - s.budgetStart) > 0 && t.shot.Some? {
      assert Sound(s.(lastSeq := t.shot.value.seqNo), start);
      if t.checked - t.shot.value.captured <= CACHE_MAX_AGE {
        SendKeepsSound(s, start, t.shot.value, t.now, t.checked, t.write);
      }
    }
  }

  lemma TakeKeepsWritten(s: Session, t: Turn)
    requires Written(s) && FramesOk(s.sent) && FromCamera(t.shot)
    ensures Written(Take(s, t)) && FramesOk(Take(s, t).sent)
  {
    if s.open && !t.cancelled && FRAME_BUDGET - (t.now - s.budgetStart) > 0 && t.shot.Some? {
      var s1 := s.(lastSeq := t.shot.value.seqNo);
      assert Written(s1);
      if t.checked - t.shot.value.captured <= CACHE_MAX_AGE {
        SendKeepsWritten(s1, t.shot.value, t.now, t.checked, t.write);
      }
    } else {
      assert Written(s.(open := false));
    }
  }

  lemma {:induction false} PlayKeepsSound(s: Session, start: int, turns: seq<Turn>)
    requires Sound(s, start) && Newer(s, turns) && forall i :: 0 <= i < |turns| ==> FromCamera(turns[i].shot)
    ensures Sound(Play(s, turns), start)
  {
    if turns != [] {
      var last := |turns| - 1;
      var front := turns[..last];
      forall i | 0 <= i < last ensures front[..i] == turns[..i] {}
      PlayKeepsSound(s, start, front);
      TakeKeepsSound(Play(s, front), start, turns[last]);
    }
  }

  lemma {:induction false} SessionIsWritten(start: int, cached: Option<Shot>, checked: int, w: Write, turns: seq<Turn>)
    requires FromCamera(cached) && forall i :: 0 <= i < |turns| ==> FromCamera(turns[i].shot)
    ensures Written(Play(Open(start, cached, checked, w), turns))
    ensures FramesOk(Play(Open(start, cached, checked, w), turns).sent)
    decreases |turns|
  {
    if turns == [] {
      OpenIsSound(start, cached, checked, w);
    } else {
      var last := |turns| - 1;
      SessionIsWritten(start, cached, checked, w, turns[..last]);
      TakeKeepsWritten(Play(Open(start, cached, checked, w), turns[..last]), turns[last]);
    }
  }

  // What a session sends, told from the turns alone.

  predicate FreshTurn(t: Turn) { t.shot.Some? && t.checked - t.shot.value.captured <= 5000 }

  /** The frame has a raw header and all its bytes are written. */
  predicate Complete(shot: Shot, w: Write) {
    |shot.frame.header| == 16 && w.count >= 16 + |shot.frame.jpeg|
  }

  /** When the budget of turn i began: with the session or with the end of the last fresh frame's write. */
  function BudgetOf(start: int, turns: seq<Turn>, i: nat): int
    requires i <= |turns|
  {
    if i == 0 then start
    else if FreshTurn(turns[i - 1]) then turns[i - 1].write.done
    else BudgetOf(start, turns, i - 1)
  }

  /** Turn i does not end the session: a frame comes within the budget, and if it is fresh it is written out. */
  predicate Continues(start: int, turns: seq<Turn>, i: nat)
    requires i < |turns|
  {
    var t := turns[i];
    && !t.cancelled && t.now - BudgetOf(start, turns, i) < 15000 && t.shot.Some?
    && (FreshTurn(t) ==> Complete(t.shot.value, t.write))
  }

  /** The fresh frames of the turns, in order. */
  function FreshOnes(turns: seq<Turn>): seq<Sent> {
    if turns == [] then []
    else
      var t := turns[|turns| - 1];
      FreshOnes(turns[..|turns| - 1])
      + if FreshTurn(t) then [Sent(t.shot.value, t.now, t.checked, t.write.done)] else []
  }

  lemma {:induction false} BudgetOfPrefix(start: int, turns: seq<Turn>, n: nat, i: nat)
    requires i <= n <= |turns|
    ensures BudgetOf(start, turns[..n], i) == BudgetOf(start, turns, i)
  {
    if i > 0 {
      BudgetOfPrefix(start, turns, n, i - 1);
    }
  }

  /** While no turn ends it, a session sends every fresh frame and no other, and asks next after the last one seen. */
  lemma {:induction false} SendsEveryFresh(s: Session, turns: seq<Turn>)
    requires s.open && forall i :: 0 <= i < |turns| ==> Continues(s.budgetStart, turns, i)
    ensures var s' := Play(s, turns);
            && s'.open && s'.sent == s.sent + FreshOnes(turns)
            && s'.budgetStart == BudgetOf(s.budgetStart, turns, |turns|)
            && s'.lastSeq == if turns == [] then s.lastSeq else turns[|turns| - 1].shot.value.seqNo
  {
    if turns != [] {
      var last := |turns| - 1;
      var front := turns[..last];
      forall i | 0 <= i < last ensures Continues(s.budgetStart, front, i) {
        BudgetOfPrefix(s.budgetStart, turns, last, i);
        assert Continues(s.budgetStart, turns, i);
      }
      SendsEveryFresh(s, front);
      BudgetOfPrefix(s.budgetStart, turns, last, last);
      assert Continues(s.budgetStart, turns, last);
    }
  }

  lemma {:induction false} OverStays(s: Session, turns: seq<Turn>, n: nat)
    requires n <= |turns| && !Play(s, turns[..n]).open
    ensures !Play(s, turns).open && Play(s, turns).sent == Play(s, turns[..n]).sent
    decreases |turns|
  {
    if n < |turns| {
      var last := |turns| - 1;
      assert turns[..last][..n] == turns[..n];
      OverStays(s, turns[..last], n);
    } else {
      assert turns[..n] == turns;
    }
  }

  /**
   A session sends exactly the fresh frames of the turns before the first one that ends it, and it is open if and only
   if none did.
   */
  lemma SessionSends(s: Session, turns: seq<Turn>, n: nat)
    requires s.open && n <= |turns| && forall i :: 0 <= i < n ==> Continues(s.budgetStart, turns, i)
    requires n < |turns| ==> !Continues(s.budgetStart, turns, n)
    ensures Play(s, turns).sent == s.sent + FreshOnes(turns[..n])
    ensures Play(s, turns).open <==> n == |turns|
  {
    var front := turns[..n];
    forall i | 0 <= i < n ensures Continues(s.budgetStart, front, i) {
      BudgetOfPrefix(s.budgetStart, turns, n, i);
      assert Continues(s.budgetStart, turns, i);
    }
    SendsEveryFresh(s, front);
    if n < |turns| {
      BudgetOfPrefix(s.budgetStart, turns, n, n);
      assert turns[..n + 1][..n] == front;
      assert Play(s, turns[..n + 1]) == Take(Play(s, front), turns[n]);
      OverStays(s, turns, n + 1);
    } else {
      assert front == turns;
    }
  }

  /** A cached frame counts as the first: it is sent when it is fresh, and awaited frames are newer in any case. */
  lemma OpeningSends(start: int, cached: Option<Shot>, checked: int, w: Write)
    ensures var s := Open(start, cached, checked, w);
            var isFresh := cached.Some? && checked - cached.value.captured <= 5000;
            && (s.open <==> (isFresh ==> Complete(cached.value, w)))
            && s.sent == (if isFresh && s.open then [Sent(cached.value, start, checked, w.done)] else [])
            && s.budgetStart == (if isFresh && s.open then w.done else start)
            && s.lastSeq == if cached.Some? then cached.value.seqNo else 0
  {
  }

  // The session on a capture.

  /**
   Step k of a run of the capture is the look by which a wait after frame number `after` takes frame number `got`.
   */
  ghost predicate Answers(ws: seq<CaptureProtocol.World>, steps: seq<CaptureProtocol.Step>,
                          k: nat, after: nat, got: nat)
  {
    && k < |steps| && k + 1 < |ws| && steps[k].Look? && CaptureProtocol.Enabled(ws[k], steps[k])
    && ws[k].threads[steps[k].t].use == CaptureProtocol.WaitFor(after)
    && steps[k].t in ws[k + 1].threads && ws[k + 1].threads[steps[k].t].Leaving?
    && ws[k + 1].threads[steps[k].t].got == got > 0
  }

  /** Every frame of the session was taken from the capture by a wait after the last one taken. */
  ghost predicate OnCapture(ws: seq<CaptureProtocol.World>, steps: seq<CaptureProtocol.Step>,
                            s: Session, turns: seq<Turn>)
  {
    && CaptureProtocol.Run(ws, steps)
    && forall i :: 0 <= i < |turns| && turns[i].shot.Some? && Play(s, turns[..i]).open ==>
         exists k: nat :: Answers(ws, steps, k, Play(s, turns[..i]).lastSeq, turns[i].shot.value.seqNo)
  }

  lemma AnswersAreNewer(ws: seq<CaptureProtocol.World>, steps: seq<CaptureProtocol.Step>, k: nat, after: nat, got: nat)
    requires CaptureProtocol.Run(ws, steps) && Answers(ws, steps, k, after, got)
    ensures after < got
  {
    var t, now := steps[k].t, steps[k].now;
    assert ws[k + 1] == CaptureProtocol.DoLook(ws[k], t, now);
    CaptureTheorems.WaitReturnsNewer(ws[k], t, now, after);
  }

  /** There is a run of the capture that serves the session. */
  ghost predicate Served(s: Session, turns: seq<Turn>) {
    exists ws, steps :: OnCapture(ws, steps, s, turns)
  }

  lemma ServedIsNewer(s: Session, turns: seq<Turn>)
    requires Served(s, turns)
    ensures Newer(s, turns)
  {
    var ws, steps :| OnCapture(ws, steps, s, turns);
    forall i | 0 <= i < |turns| && turns[i].shot.Some? && Play(s, turns[..i]).open
      ensures Play(s, turns[..i]).lastSeq < turns[i].shot.value.seqNo
    {
      var k: nat :| Answers(ws, steps, k, Play(s, turns[..i]).lastSeq, turns[i].shot.value.seqNo);
      AnswersAreNewer(ws, steps, k, Play(s, turns[..i]).lastSeq, turns[i].shot.value.seqNo);
    }
  }

  /**
   A session on any run of its capture sends frames with strictly increasing sequence numbers, each at most
   five seconds old when checked and begun within fifteen seconds of the end of the send before it.
   */
  lemma SessionIsSound(start: int, cached: Option<Shot>, checked: int, w: Write, s: Session, turns: seq<Turn>)
    requires FromCamera(cached) && forall i :: 0 <= i < |turns| ==> FromCamera(turns[i].shot)
    requires s == Open(start, cached, checked, w) && Served(s, turns)
    ensures Sound(Play(s, turns), start)
  {
    OpenIsSound(start, cached, checked, w);
    ServedIsNewer(s, turns);
    PlayKeepsSound(s, start, turns);
  }

  lemma WrittenReadsBack(s: Session)
    requires Written(s) && FramesOk(s.sent)
    ensures ParseMany(s.out, |s.sent|).Some? && ParseMany(s.out, |s.sent|).value.0 == Frames(s.sent)
    ensures ParseMany(s.out, |s.sent| + 1).None?
  {
    var whole := EncodeAll(Frames(s.sent));
    var part := s.out[|whole|..];
    assert s.out == whole + part;
    StreamReadsBack(Frames(s.sent), part);
    var f :| IsFrame(f) && part < Encode(f);
    PartIsNotRead(f, part);
  }

  /** A client reading frames off what a session wrote gets exactly the frames sent, and then no further one. */
  lemma ClientReadsWhatWasSent(start: int, cached: Option<Shot>, checked: int, w: Write, turns: seq<Turn>)
    requires FromCamera(cached) && forall i :: 0 <= i < |turns| ==> FromCamera(turns[i].shot)
    ensures var s := Play(Open(start, cached, checked, w), turns);
            && ParseMany(s.out, |s.sent|).Some? && ParseMany(s.out, |s.sent|).value.0 == Frames(s.sent)
            && ParseMany(s.out, |s.sent| + 1).None?
  {
    SessionIsWritten(start, cached, checked, w, turns);
    WrittenReadsBack(Play(Open(start, cached, checked, w), turns));
  }
}
