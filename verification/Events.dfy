/** Events derived from two consecutive documents: the new-job rule and the transition kinds. */
module Events {
  import opened Options
  import opened Doc

  datatype Kind =
    | Connected | Disconnected
    | StateInitial | PrintPreparing | PrintStarted | PrintResumed | PrintPaused
    | PrintFinished | PrintCancelled | PrintFailed | PrintStopped
    | PrinterProblem | ProblemResolved
    | ChamberLightOn | ChamberLightOff
    | FirstLayerComplete

  datatype Event = Event(serial: string, prev: Fields, cur: Fields, online: bool, kinds: seq<Kind>, newJob: bool)

  /** What a worker reads of an event. */
  datatype Report = Report(prev: View, cur: View, online: bool, kinds: seq<Kind>, newJob: bool)

  function ReportOf(e: Event): Report {
    Report(Look(e.prev), Look(e.cur), e.online, e.kinds, e.newJob)
  }

  /** A displayed problem, by the codes that identify it. */
  type Problem = seq<string>

  predicate IsPaused(state: Gcode) { state.Pause? || state.Paused? }

  predicate Preparing(state: Gcode) { state.Prepare? || state.Slicing? }

  predicate NewJob(prev: View, cur: View) {
    var before, state := prev.gcode, cur.gcode;
    if before.None? || state.None? || state == before || Preparing(before.value) then false
    else if Preparing(state.value) then true
    else if state.value.Running? then !IsPaused(before.value)
    else false
  }

  predicate IsCancelCode(code: int) {
    var u := code % 0x1_0000_0000;
    u == 0x0300_400C || u == 0x0500_400E
  }

  function StateKind(before: Gcode, state: Gcode, error: int): seq<Kind> {
    if Preparing(state) then [PrintPreparing]
    else if state.Running? then (if IsPaused(before) then [PrintResumed] else [PrintStarted])
    else if IsPaused(state) then (if IsPaused(before) then [] else [PrintPaused])
    else if state.Finish? then (if IsCancelCode(error) then [PrintCancelled] else [PrintFinished])
    else if state.Failed? then (if IsCancelCode(error) then [PrintCancelled] else [PrintFailed])
    else if state.Idle? && (before.Running? || IsPaused(before)) then [PrintStopped]
    else []
  }

  /** One kind for each problem that shares no code with the others. */
  function Unmatched(problems: seq<Problem>, others: seq<Problem>, kind: Kind): seq<Kind> {
    if problems == [] then []
    else
      var last := problems[|problems| - 1];
      var shared := exists p, c :: p in others && c in p && c in last;
      Unmatched(problems[..|problems| - 1], others, kind) + if shared then [] else [kind]
  }

  function LightKind(prev: View, cur: View): seq<Kind> {
    var before, light := prev.light, cur.light;
    if before.None? || light.None? || before == light then []
    else if light.value.LightOn? then [ChamberLightOn]
    else if light.value.LightOff? then [ChamberLightOff]
    else []
  }

  function LayerKind(prev: View, cur: View): seq<Kind> {
    var state := cur.State();
    var active := state.Running? || IsPaused(state);
    if prev.LayerOrZero() <= 1 && cur.LayerOrZero() >= 2 && active then [FirstLayerComplete] else []
  }

  function ChangeKind(prev: View, cur: View): seq<Kind> {
    if cur.gcode.Some? && cur.State() != prev.State()
    then StateKind(prev.State(), cur.State(), cur.error.GetOr(0)) else []
  }

  function Transitions(prev: View, cur: View, oldProblems: seq<Problem>, newProblems: seq<Problem>): seq<Kind> {
    if prev.gcode.None? && cur.gcode.Some? then [StateInitial]
    else
      ChangeKind(prev, cur)
      + Unmatched(newProblems, oldProblems, PrinterProblem)
      + Unmatched(oldProblems, newProblems, ProblemResolved)
      + LightKind(prev, cur)
      + LayerKind(prev, cur)
  }

  lemma {:induction false} UnmatchedKinds(problems: seq<Problem>, others: seq<Problem>, kind: Kind, k: Kind)
    requires k in Unmatched(problems, others, kind)
    ensures k == kind
  {
    if problems != [] && k in Unmatched(problems[..|problems| - 1], others, kind) {
      UnmatchedKinds(problems[..|problems| - 1], others, kind, k);
    }
  }

  /** Problems contribute only their own two kinds, in between the others. */
  lemma InTransitions(k: Kind, prev: View, cur: View, oldProblems: seq<Problem>, newProblems: seq<Problem>)
    requires !k.PrinterProblem? && !k.ProblemResolved? && (prev.gcode.Some? || cur.gcode.None?)
    ensures k in Transitions(prev, cur, oldProblems, newProblems) <==>
            k in ChangeKind(prev, cur) || k in LightKind(prev, cur) || k in LayerKind(prev, cur)
  {
    var raised := Unmatched(newProblems, oldProblems, PrinterProblem);
    var resolved := Unmatched(oldProblems, newProblems, ProblemResolved);
    if k in raised {
      UnmatchedKinds(newProblems, oldProblems, PrinterProblem, k);
    }
    if k in resolved {
      UnmatchedKinds(oldProblems, newProblems, ProblemResolved, k);
    }
  }

  /** A printer seen in one state is seen in another. */
  predicate Changes(prev: View, cur: View) {
    prev.gcode.Some? && cur.gcode.Some? && prev.gcode != cur.gcode
  }

  predicate Begins(kinds: seq<Kind>) {
    PrintPreparing in kinds || PrintStarted in kinds
  }

  lemma InitialKind(prev: View, cur: View, oldProblems: seq<Problem>, newProblems: seq<Problem>)
    ensures StateInitial in Transitions(prev, cur, oldProblems, newProblems)
            <==> prev.gcode.None? && cur.gcode.Some?
    ensures prev.gcode.None? && cur.gcode.Some? ==> Transitions(prev, cur, oldProblems, newProblems) == [StateInitial]
  {
    if prev.gcode.Some? || cur.gcode.None? {
      InTransitions(StateInitial, prev, cur, oldProblems, newProblems);
    }
  }

  lemma PreparingKind(prev: View, cur: View, oldProblems: seq<Problem>, newProblems: seq<Problem>)
    ensures PrintPreparing in Transitions(prev, cur, oldProblems, newProblems)
            <==> Changes(prev, cur) && cur.gcode in {Some(Prepare), Some(Slicing)}
  {
    if prev.gcode.Some? || cur.gcode.None? {
      InTransitions(PrintPreparing, prev, cur, oldProblems, newProblems);
    }
  }

  lemma StartedKind(prev: View, cur: View, oldProblems: seq<Problem>, newProblems: seq<Problem>)
    ensures PrintStarted in Transitions(prev, cur, oldProblems, newProblems)
            <==> Changes(prev, cur) && cur.gcode == Some(Running) && prev.gcode !in {Some(Pause), Some(Paused)}
  {
    if prev.gcode.Some? || cur.gcode.None? {
      InTransitions(PrintStarted, prev, cur, oldProblems, newProblems);
    }
  }

  lemma LinkKind(k: Kind, prev: View, cur: View, oldProblems: seq<Problem>, newProblems: seq<Problem>)
    requires k.Connected? || k.Disconnected?
    ensures k !in Transitions(prev, cur, oldProblems, newProblems)
  {
    if prev.gcode.Some? || cur.gcode.None? {
      InTransitions(k, prev, cur, oldProblems, newProblems);
    }
  }

  /** The printer's error number, in 32 bits, says that the user cancelled. */
  predicate UserCancelled(cur: View) {
    cur.error.Some? && cur.error.value % 0x1_0000_0000 in {0x0300_400C, 0x0500_400E}
  }

  /** How a print's end is told: by its state and by whether the user cancelled. */
  lemma EndingKinds(prev: View, cur: View, oldProblems: seq<Problem>, newProblems: seq<Problem>)
    ensures var kinds := Transitions(prev, cur, oldProblems, newProblems);
            && (PrintFinished in kinds <==> Changes(prev, cur) && cur.gcode == Some(Finish) && !UserCancelled(cur))
            && (PrintFailed in kinds <==> Changes(prev, cur) && cur.gcode == Some(Failed) && !UserCancelled(cur))
            && (PrintCancelled in kinds <==>
                  Changes(prev, cur) && cur.gcode in {Some(Finish), Some(Failed)} && UserCancelled(cur))
  {
    if prev.gcode.Some? || cur.gcode.None? {
      InTransitions(PrintFinished, prev, cur, oldProblems, newProblems);
      InTransitions(PrintFailed, prev, cur, oldProblems, newProblems);
      InTransitions(PrintCancelled, prev, cur, oldProblems, newProblems);
    }
  }

  /** Going idle out of a print that runs or is paused is a stop, out of any other state it is nothing. */
  lemma StoppedKind(prev: View, cur: View, oldProblems: seq<Problem>, newProblems: seq<Problem>)
    ensures PrintStopped in Transitions(prev, cur, oldProblems, newProblems)
            <==> prev.gcode in {Some(Running), Some(Pause), Some(Paused)} && cur.gcode == Some(Idle)
  {
    if prev.gcode.Some? || cur.gcode.None? {
      InTransitions(PrintStopped, prev, cur, oldProblems, newProblems);
    }
  }

  /** PAUSE and PAUSED are one state: going from one to the other is no pause, and leaving either is a resume. */
  lemma PauseKinds(prev: View, cur: View, oldProblems: seq<Problem>, newProblems: seq<Problem>)
    ensures var kinds := Transitions(prev, cur, oldProblems, newProblems);
            && (PrintPaused in kinds <==>
                  prev.gcode.Some? && prev.gcode !in {Some(Pause), Some(Paused)}
                  && cur.gcode in {Some(Pause), Some(Paused)})
            && (PrintResumed in kinds <==> prev.gcode in {Some(Pause), Some(Paused)} && cur.gcode == Some(Running))
  {
    if prev.gcode.Some? || cur.gcode.None? {
      InTransitions(PrintPaused, prev, cur, oldProblems, newProblems);
      InTransitions(PrintResumed, prev, cur, oldProblems, newProblems);
    }
  }

  /** A light is reported when both documents show one, they differ, and the new one is on or off. */
  lemma LightKinds(prev: View, cur: View, oldProblems: seq<Problem>, newProblems: seq<Problem>)
    ensures var kinds := Transitions(prev, cur, oldProblems, newProblems);
            var seen := prev.gcode.Some? || cur.gcode.None?;
            var turned := prev.light.Some? && prev.light != cur.light;
            && (ChamberLightOn in kinds <==> seen && turned && cur.light == Some(LightOn))
            && (ChamberLightOff in kinds <==> seen && turned && cur.light == Some(LightOff))
  {
    if prev.gcode.Some? || cur.gcode.None? {
      InTransitions(ChamberLightOn, prev, cur, oldProblems, newProblems);
      InTransitions(ChamberLightOff, prev, cur, oldProblems, newProblems);
    }
  }

  /** The layer goes from 1 or less, or none, to 2 or more in a print that is running or paused. */
  lemma FirstLayerKind(prev: View, cur: View, oldProblems: seq<Problem>, newProblems: seq<Problem>)
    ensures FirstLayerComplete in Transitions(prev, cur, oldProblems, newProblems)
            <==> && prev.gcode.Some? && cur.gcode in {Some(Running), Some(Pause), Some(Paused)}
                 && cur.layer.Some? && cur.layer.value >= 2 && (prev.layer.Some? ==> prev.layer.value <= 1)
  {
    if prev.gcode.Some? || cur.gcode.None? {
      InTransitions(FirstLayerComplete, prev, cur, oldProblems, newProblems);
    }
  }

  // Problems.

  function Times(kinds: seq<Kind>, k: Kind): nat {
    if kinds == [] then 0 else Times(kinds[..|kinds| - 1], k) + if kinds[|kinds| - 1] == k then 1 else 0
  }

  lemma {:induction false} TimesJoin(a: seq<Kind>, b: seq<Kind>, k: Kind)
    ensures Times(a + b, k) == Times(a, k) + Times(b, k)
    decreases |b|
  {
    if b == [] {
      assert a + b == a;
    } else {
      TimesJoin(a, b[..|b| - 1], k);
      assert (a + b)[..|a + b| - 1] == a + b[..|b| - 1];
    }
  }

  lemma {:induction false} TimesAbsent(kinds: seq<Kind>, k: Kind)
    requires k !in kinds
    ensures Times(kinds, k) == 0
  {
    if kinds != [] {
      TimesAbsent(kinds[..|kinds| - 1], k);
    }
  }

  predicate Shares(p: Problem, others: seq<Problem>) {
    exists j, c :: 0 <= j < |others| && 0 <= c < |p| && p[c] in others[j]
  }

  /** The problems that share no code with any of the others, by their places. */
  function Alone(problems: seq<Problem>, others: seq<Problem>): set<nat> {
    set i: nat | i < |problems| && !Shares(problems[i], others)
  }

  lemma AloneSnoc(problems: seq<Problem>, others: seq<Problem>)
    requires problems != []
    ensures var last := |problems| - 1;
            |Alone(problems, others)|
            == |Alone(problems[..last], others)| + if Shares(problems[last], others) then 0 else 1
  {
    var last := |problems| - 1;
    var front := Alone(problems[..last], others);
    assert last !in front;
    assert Alone(problems, others) == front + if Shares(problems[last], others) then {} else {last};
  }

  lemma SharesIs(p: Problem, others: seq<Problem>)
    ensures Shares(p, others) <==> exists q, c :: q in others && c in q && c in p
  {
    if Shares(p, others) {
      var j, i :| 0 <= j < |others| && 0 <= i < |p| && p[i] in others[j];
      assert others[j] in others && p[i] in p;
    }
    if exists q, c :: q in others && c in q && c in p {
      var q, c :| q in others && c in q && c in p;
      var j :| 0 <= j < |others| && others[j] == q;
      var i :| 0 <= i < |p| && p[i] == c;
      assert p[i] in others[j];
    }
  }

  lemma {:induction false} UnmatchedAlone(problems: seq<Problem>, others: seq<Problem>, kind: Kind)
    ensures Times(Unmatched(problems, others, kind), kind) == |Alone(problems, others)|
  {
    if problems == [] {
      assert Alone(problems, others) == {};
    } else {
      var last := |problems| - 1;
      UnmatchedAlone(problems[..last], others, kind);
      SharesIs(problems[last], others);
      AloneSnoc(problems, others);
      var more := if Shares(problems[last], others) then [] else [kind];
      TimesJoin(Unmatched(problems[..last], others, kind), more, kind);
      assert Times([kind], kind) == 1;
    }
  }

  lemma TimesJoinAll(a: seq<Kind>, b: seq<Kind>, c: seq<Kind>, d: seq<Kind>, e: seq<Kind>, k: Kind)
    requires k !in a && k !in d && k !in e
    ensures Times(a + b + c + d + e, k) == Times(b, k) + Times(c, k)
  {
    TimesJoin(a, b, k);
    TimesJoin(a + b, c, k);
    TimesJoin(a + b + c, d, k);
    TimesJoin(a + b + c + d, e, k);
    TimesAbsent(a, k);
    TimesAbsent(d, k);
    TimesAbsent(e, k);
  }

  lemma NoProblems(prev: View, cur: View, k: Kind)
    requires k.PrinterProblem? || k.ProblemResolved?
    ensures k !in ChangeKind(prev, cur) && k !in LightKind(prev, cur) && k !in LayerKind(prev, cur)
  {
  }

  lemma OtherProblems(problems: seq<Problem>, others: seq<Problem>, kind: Kind, k: Kind)
    requires k != kind
    ensures Times(Unmatched(problems, others, kind), k) == 0
  {
    if k in Unmatched(problems, others, kind) {
      UnmatchedKinds(problems, others, kind, k);
    }
    TimesAbsent(Unmatched(problems, others, kind), k);
  }

  lemma ProblemTimes(prev: View, cur: View, oldProblems: seq<Problem>, newProblems: seq<Problem>, k: Kind)
    requires (prev.gcode.Some? || cur.gcode.None?) && (k.PrinterProblem? || k.ProblemResolved?)
    ensures Times(Transitions(prev, cur, oldProblems, newProblems), k)
            == Times(Unmatched(newProblems, oldProblems, PrinterProblem), k)
               + Times(Unmatched(oldProblems, newProblems, ProblemResolved), k)
  {
    NoProblems(prev, cur, k);
    TimesJoinAll(ChangeKind(prev, cur), Unmatched(newProblems, oldProblems, PrinterProblem),
                 Unmatched(oldProblems, newProblems, ProblemResolved), LightKind(prev, cur), LayerKind(prev, cur), k);
  }

  /**
   One printer_problem for each new problem that shares no code with an old one, and one problem_resolved for each old
   problem that shares no code with a new one.
   */
  lemma ProblemKinds(prev: View, cur: View, oldProblems: seq<Problem>, newProblems: seq<Problem>)
    requires prev.gcode.Some? || cur.gcode.None?
    ensures var kinds := Transitions(prev, cur, oldProblems, newProblems);
            && Times(kinds, PrinterProblem) == |Alone(newProblems, oldProblems)|
            && Times(kinds, ProblemResolved) == |Alone(oldProblems, newProblems)|
  {
    ProblemTimes(prev, cur, oldProblems, newProblems, PrinterProblem);
    ProblemTimes(prev, cur, oldProblems, newProblems, ProblemResolved);
    UnmatchedAlone(newProblems, oldProblems, PrinterProblem);
    UnmatchedAlone(oldProblems, newProblems, ProblemResolved);
    OtherProblems(newProblems, oldProblems, PrinterProblem, ProblemResolved);
    OtherProblems(oldProblems, newProblems, ProblemResolved, PrinterProblem);
  }

  // Order.

  /** Where a kind stands among the transitions of one report. */
  function Place(k: Kind): nat {
    match k
    case PrinterProblem => 1
    case ProblemResolved => 2
    case ChamberLightOn => 3
    case ChamberLightOff => 3
    case FirstLayerComplete => 4
    case _ => 0
  }

  /** Places never go down, and only problems share one. */
  predicate InOrder(kinds: seq<Kind>) {
    forall i, j :: 0 <= i < j < |kinds| ==>
      Place(kinds[i]) <= Place(kinds[j])
      && (Place(kinds[i]) == Place(kinds[j]) ==> kinds[i] == kinds[j] && Place(kinds[i]) in {1, 2})
  }

  predicate Within(kinds: seq<Kind>, lo: nat, hi: nat) {
    forall i :: 0 <= i < |kinds| ==> lo <= Place(kinds[i]) <= hi
  }

  lemma OrderJoins(a: seq<Kind>, b: seq<Kind>, m: nat, n: nat, o: nat)
    requires InOrder(a) && InOrder(b) && Within(a, 0, m) && Within(b, n, o) && m < n <= o
    ensures InOrder(a + b) && Within(a + b, 0, o)
  {
  }

  lemma UnmatchedInOrder(problems: seq<Problem>, others: seq<Problem>, kind: Kind)
    requires kind.PrinterProblem? || kind.ProblemResolved?
    ensures var kinds := Unmatched(problems, others, kind);
            InOrder(kinds) && Within(kinds, Place(kind), Place(kind))
  {
    var kinds := Unmatched(problems, others, kind);
    forall i | 0 <= i < |kinds| ensures kinds[i] == kind {
      UnmatchedKinds(problems, others, kind, kinds[i]);
    }
  }

  lemma SinglesInOrder(prev: View, cur: View)
    ensures InOrder(ChangeKind(prev, cur)) && Within(ChangeKind(prev, cur), 0, 0)
    ensures InOrder(LightKind(prev, cur)) && Within(LightKind(prev, cur), 3, 3)
    ensures InOrder(LayerKind(prev, cur)) && Within(LayerKind(prev, cur), 4, 4)
  {
  }

  lemma OrderJoinsAll(a: seq<Kind>, b: seq<Kind>, c: seq<Kind>, d: seq<Kind>, e: seq<Kind>)
    requires InOrder(a) && InOrder(b) && InOrder(c) && InOrder(d) && InOrder(e)
    requires Within(a, 0, 0) && Within(b, 1, 1) && Within(c, 2, 2) && Within(d, 3, 3) && Within(e, 4, 4)
    ensures InOrder(a + b + c + d + e)
  {
    OrderJoins(a, b, 0, 1, 1);
    OrderJoins(a + b, c, 1, 2, 2);
    OrderJoins(a + b + c, d, 2, 3, 3);
    OrderJoins(a + b + c + d, e, 3, 4, 4);
  }

  /**
   The order of the kinds of one report: the state's change, the new problems, the resolved ones, the light, the first
   layer; only problems repeat.
   */
  lemma KindsInOrder(prev: View, cur: View, oldProblems: seq<Problem>, newProblems: seq<Problem>)
    ensures InOrder(Transitions(prev, cur, oldProblems, newProblems))
  {
    SinglesInOrder(prev, cur);
    UnmatchedInOrder(newProblems, oldProblems, PrinterProblem);
    UnmatchedInOrder(oldProblems, newProblems, ProblemResolved);
    OrderJoinsAll(ChangeKind(prev, cur), Unmatched(newProblems, oldProblems, PrinterProblem),
                  Unmatched(oldProblems, newProblems, ProblemResolved), LightKind(prev, cur), LayerKind(prev, cur));
  }

  /**
   A job begins exactly when a print is announced and nothing announced it before: never at the first
   state seen, never on a resume, never on the way from PREPARE or SLICING to RUNNING.
   */
  lemma NewJobIff(prev: View, cur: View, oldProblems: seq<Problem>, newProblems: seq<Problem>)
    ensures NewJob(prev, cur) <==>
              && (var kinds := Transitions(prev, cur, oldProblems, newProblems);
                  PrintPreparing in kinds || PrintStarted in kinds)
              && prev.gcode !in {Some(Prepare), Some(Slicing)}
    ensures NewJob(prev, cur) ==> StateInitial !in Transitions(prev, cur, oldProblems, newProblems)
  {
    InitialKind(prev, cur, oldProblems, newProblems);
    PreparingKind(prev, cur, oldProblems, newProblems);
    StartedKind(prev, cur, oldProblems, newProblems);
  }
}
