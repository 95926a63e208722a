/** Merged printer report documents: decoded JSON, the recursive merge, and the readers the modules use. */
module Doc {
  import opened Options

  /** A decoded JSON value; number is what the text of a string reads as, when it is a finite number. */
  datatype Json =
    | Null
    | Bool(value: bool)
    | Num(n: real)
    | Str(text: string, number: Option<real>)
    | Arr(items: seq<Json>)
    | Obj(fields: map<string, Json>)

  type Fields = map<string, Json>

  /** A report whose print object carries msg 0 replaces the stored one. */
  predicate IsFull(key: string, v: Json) {
    key == "print" && v.Obj? && "msg" in v.fields && v.fields["msg"].Num? && v.fields["msg"].n == 0.0
  }

  function MergeDoc(prev: Fields, delta: Fields, topLevel: bool): Fields
    decreases Obj(delta)
  {
    map k | k in prev.Keys + delta.Keys ::
      if k !in delta then prev[k]
      else if delta[k].Obj? && k in prev && prev[k].Obj? && !(topLevel && IsFull(k, delta[k])) then
        Obj(MergeDoc(prev[k].fields, delta[k].fields, false))
      else delta[k]
  }

  lemma {:induction false} MergeSelf(d: Fields)
    ensures MergeDoc(d, d, false) == d
    decreases Obj(d)
  {
    forall k | k in d && d[k].Obj?
      ensures MergeDoc(d[k].fields, d[k].fields, false) == d[k].fields
    {
      MergeSelf(d[k].fields);
    }
  }

  /** Applying the same delta twice equals applying it once. */
  lemma {:induction false} MergeTwice(prev: Fields, delta: Fields, topLevel: bool)
    ensures MergeDoc(MergeDoc(prev, delta, topLevel), delta, topLevel) == MergeDoc(prev, delta, topLevel)
    decreases Obj(delta)
  {
    forall k | k in delta && delta[k].Obj?
      ensures MergeDoc(delta[k].fields, delta[k].fields, false) == delta[k].fields
      ensures k in prev && prev[k].Obj? ==>
                MergeDoc(MergeDoc(prev[k].fields, delta[k].fields, false), delta[k].fields, false)
                == MergeDoc(prev[k].fields, delta[k].fields, false)
    {
      MergeSelf(delta[k].fields);
      if k in prev && prev[k].Obj? {
        MergeTwice(prev[k].fields, delta[k].fields, false);
      }
    }
  }

  // What a merge does at every path.

  function Get(d: Fields, path: seq<string>): Option<Json>
    requires path != []
    decreases |path|
  {
    if path[0] !in d then None
    else if |path| == 1 then Some(d[path[0]])
    else if d[path[0]].Obj? then Get(d[path[0]].fields, path[1..])
    else None
  }

  /** The delta says something about the path: it names the path or puts a plain value on the way to it. */
  predicate Touches(delta: Fields, path: seq<string>)
    requires path != []
    decreases |path|
  {
    path[0] in delta && (|path| == 1 || !delta[path[0]].Obj? || Touches(delta[path[0]].fields, path[1..]))
  }

  predicate Replaces(delta: Fields, path: seq<string>, topLevel: bool)
    requires path != []
  {
    topLevel && path[0] in delta && IsFull(path[0], delta[path[0]])
  }

  lemma {:induction false} UntouchedIsAbsent(delta: Fields, path: seq<string>)
    requires path != [] && !Touches(delta, path)
    ensures Get(delta, path) == None
    decreases |path|
  {
    if path[0] in delta {
      UntouchedIsAbsent(delta[path[0]].fields, path[1..]);
    }
  }

  /** The value of a merge at a path, said without the merge's own recursion over keys. */
  function Expected(prev: Fields, delta: Fields, topLevel: bool, path: seq<string>): Option<Json>
    requires path != []
  {
    if Replaces(delta, path, topLevel) then Get(delta, path)
    else if !Touches(delta, path) then Get(prev, path)
    else
      match (Get(prev, path), Get(delta, path))
      case (Some(Obj(p)), Some(Obj(d))) => Some(Obj(MergeDoc(p, d, false)))
      case (_, given) => given
  }

  /**
   Paths absent from a delta keep their value, plain values in it win, objects met by objects merge,
   and a full report replaces everything under print.
   */
  lemma {:induction false} MergeByPath(prev: Fields, delta: Fields, topLevel: bool, path: seq<string>)
    requires path != []
    ensures Get(MergeDoc(prev, delta, topLevel), path) == Expected(prev, delta, topLevel, path)
    decreases |path|
  {
    var k := path[0];
    if k in delta && |path| > 1 && delta[k].Obj? {
      if k in prev && prev[k].Obj? {
        MergeByPath(prev[k].fields, delta[k].fields, false, path[1..]);
      } else if !Touches(delta, path) {
        UntouchedIsAbsent(delta[k].fields, path[1..]);
      }
    }
  }

  // Histories of reports.

  function Apply(d: Fields, deltas: seq<Fields>): Fields
    decreases |deltas|
  {
    if deltas == [] then d else Apply(MergeDoc(d, deltas[0], true), deltas[1..])
  }

  predicate SamePrint(a: Fields, b: Fields) {
    ("print" in a <==> "print" in b) && ("print" in a ==> a["print"] == b["print"])
  }

  lemma {:induction false} PrintFollowsPrint(a: Fields, b: Fields, deltas: seq<Fields>)
    requires SamePrint(a, b)
    ensures SamePrint(Apply(a, deltas), Apply(b, deltas))
    decreases |deltas|
  {
    if deltas != [] {
      PrintFollowsPrint(MergeDoc(a, deltas[0], true), MergeDoc(b, deltas[0], true), deltas[1..]);
    }
  }

  /** The print object of a full report says so. */
  predicate MessageZero(p: Fields) { "msg" in p && p["msg"] == Num(0.0) }

  /** After a full report the print object depends only on that report and the later ones, not on the history. */
  lemma FullReportForgets(a: Fields, b: Fields, full: Fields, later: seq<Fields>)
    requires "print" in full && full["print"].Obj? && MessageZero(full["print"].fields)
    ensures SamePrint(Apply(a, [full] + later), Apply(b, [full] + later))
    ensures MergeDoc(a, full, true)["print"] == full["print"]
  {
    PrintFollowsPrint(MergeDoc(a, full, true), MergeDoc(b, full, true), later);
    assert ([full] + later)[1..] == later;
  }

  // Readers.

  function Print(d: Fields): Fields {
    if "print" in d && d["print"].Obj? then d["print"].fields else map[]
  }

  function NumberField(obj: Fields, key: string): Option<real> {
    if key !in obj then None
    else
      match obj[key]
      case Num(n) => Some(n)
      case Str(_, number) => number
      case _ => None
  }

  /** Conversion to an integer drops the fraction. */
  function Truncate(r: real): int {
    if r >= 0.0 then r.Floor else -(-r).Floor
  }

  function IntField(obj: Fields, key: string): Option<int> {
    match NumberField(obj, key)
    case Some(n) => Some(Truncate(n))
    case None => None
  }

  function StringField(obj: Fields, key: string): Option<string> {
    if key in obj && obj[key].Str? then Some(obj[key].text) else None
  }

  /** The printer states the modules tell apart; every other text stands for itself. */
  datatype Gcode = Idle | Prepare | Slicing | Running | Pause | Paused | Finish | Failed | Other(text: string)

  function ReadGcode(text: string): Gcode {
    if text == "IDLE" then Idle
    else if text == "PREPARE" then Prepare
    else if text == "SLICING" then Slicing
    else if text == "RUNNING" then Running
    else if text == "PAUSE" then Pause
    else if text == "PAUSED" then Paused
    else if text == "FINISH" then Finish
    else if text == "FAILED" then Failed
    else Other(text)
  }

  function GcodeState(d: Fields): Option<Gcode> {
    match StringField(Print(d), "gcode_state")
    case Some(text) => Some(ReadGcode(text))
    case None => None
  }

  function Layer(d: Fields): Option<int> { IntField(Print(d), "layer_num") }

  function Stage(d: Fields): Option<int> { IntField(Print(d), "stg_cur") }

  function PrintError(d: Fields): Option<int> { IntField(Print(d), "print_error") }

  datatype Light = LightOn | LightOff | LightFlashing

  /** The mode of the first lights entry for the chamber light. */
  function ChamberLight(d: Fields): Option<Light> {
    var p := Print(d);
    if "lights_report" in p && p["lights_report"].Arr? then LightMode(p["lights_report"].items) else None
  }

  function LightMode(items: seq<Json>): Option<Light> {
    if items == [] then None
    else if items[0].Obj? && StringField(items[0].fields, "node") == Some("chamber_light") then
      var mode := StringField(items[0].fields, "mode");
      if mode == Some("on") then Some(LightOn)
      else if mode == Some("off") then Some(LightOff)
      else if mode == Some("flashing") then Some(LightFlashing)
      else None
    else LightMode(items[1..])
  }

  /** Everything the event rules and the workers read from a document. */
  datatype View = View(
    gcode: Option<Gcode>, layer: Option<int>, stage: Option<int>, error: Option<int>, light: Option<Light>)
  {
    /** The zero values the callers use when a field is absent. */
    function State(): Gcode { gcode.GetOr(Other("")) }

    function LayerOrZero(): int { layer.GetOr(0) }
  }

  function Look(d: Fields): View {
    View(GcodeState(d), Layer(d), Stage(d), PrintError(d), ChamberLight(d))
  }

  /** The empty document shows nothing. */
  lemma EmptyShowsNothing()
    ensures Look(map[]) == View(None, None, None, None, None)
  {
  }

  // What the readers show.

  /** The report's name of a state. */
  function GcodeText(g: Gcode): string {
    match g
    case Idle => "IDLE"
    case Prepare => "PREPARE"
    case Slicing => "SLICING"
    case Running => "RUNNING"
    case Pause => "PAUSE"
    case Paused => "PAUSED"
    case Finish => "FINISH"
    case Failed => "FAILED"
    case Other(text) => text
  }

  const NAMED: set<Gcode> := {Idle, Prepare, Slicing, Running, Pause, Paused, Finish, Failed}

  /** The state is the one with that name; only a text that names none stands for itself. */
  lemma GcodeShows(d: Fields, p: Fields)
    requires "print" in d && d["print"] == Obj(p)
    ensures Look(d).gcode.Some? <==> "gcode_state" in p && p["gcode_state"].Str?
    ensures Look(d).gcode.Some? ==>
              var g := Look(d).gcode.value;
              && GcodeText(g) == p["gcode_state"].text
              && (g.Other? ==> forall k :: k in NAMED ==> p["gcode_state"].text != GcodeText(k))
  {
  }

  /** The object holds this number under the key, as a number or as a text that reads as one. */
  predicate HoldsNumber(p: Fields, key: string, n: real) {
    key in p && (p[key] == Num(n) || (p[key].Str? && p[key].number == Some(n)))
  }

  /** The integer next to the number on the side of zero. */
  predicate WholePart(i: int, n: real) {
    if n >= 0.0 then i as real <= n < i as real + 1.0 else i as real - 1.0 < n <= i as real
  }

  /** An integer is shown exactly for a number under the key, and it is its whole part. */
  ghost predicate ShowsInt(p: Fields, key: string, shown: Option<int>) {
    && (shown.Some? <==> exists n :: HoldsNumber(p, key, n))
    && forall n :: HoldsNumber(p, key, n) ==> WholePart(shown.value, n)
  }

  lemma TruncateIsWhole(n: real)
    ensures WholePart(Truncate(n), n)
  {
  }

  lemma IntShows(p: Fields, key: string)
    ensures ShowsInt(p, key, IntField(p, key))
  {
    match NumberField(p, key) {
      case Some(n) =>
        assert HoldsNumber(p, key, n);
        TruncateIsWhole(n);
      case None =>
    }
  }

  predicate IsChamberLight(item: Json) {
    item.Obj? && "node" in item.fields && item.fields["node"].Str? && item.fields["node"].text == "chamber_light"
  }

  /** The mode the item names. */
  predicate HasMode(item: Json, mode: string) {
    item.Obj? && "mode" in item.fields && item.fields["mode"].Str? && item.fields["mode"].text == mode
  }

  /** The first entry for the chamber light alone decides what is shown. */
  lemma {:induction false} LightShows(items: seq<Json>, i: nat)
    requires i < |items| && IsChamberLight(items[i]) && forall j :: 0 <= j < i ==> !IsChamberLight(items[j])
    ensures LightMode(items) == Some(LightOn) <==> HasMode(items[i], "on")
    ensures LightMode(items) == Some(LightOff) <==> HasMode(items[i], "off")
    ensures LightMode(items) == Some(LightFlashing) <==> HasMode(items[i], "flashing")
  {
    if i > 0 {
      assert !IsChamberLight(items[0]);
      LightShows(items[1..], i - 1);
    }
  }

  lemma {:induction false} NoLightShows(items: seq<Json>)
    requires forall j :: 0 <= j < |items| ==> !IsChamberLight(items[j])
    ensures LightMode(items).None?
  {
    if items != [] {
      assert !IsChamberLight(items[0]);
      NoLightShows(items[1..]);
    }
  }

  /** The light shown under a document's print object. */
  ghost predicate ShowsLight(p: Fields, shown: Option<Light>) {
    forall mode, light :: (mode, light) in {("on", LightOn), ("off", LightOff), ("flashing", LightFlashing)} ==>
      (shown == Some(light) <==>
       "lights_report" in p && p["lights_report"].Arr?
       && exists i :: FirstLight(p["lights_report"].items, i) && HasMode(p["lights_report"].items[i], mode))
  }

  predicate FirstLight(items: seq<Json>, i: int) {
    0 <= i < |items| && IsChamberLight(items[i]) && forall j :: 0 <= j < i ==> !IsChamberLight(items[j])
  }

  lemma {:induction false} FirstLightIn(items: seq<Json>) returns (i: nat)
    requires exists j :: 0 <= j < |items| && IsChamberLight(items[j])
    ensures FirstLight(items, i)
  {
    if IsChamberLight(items[0]) {
      i := 0;
    } else {
      var j :| 0 <= j < |items| && IsChamberLight(items[j]);
      assert items[1..][j - 1] == items[j];
      i := FirstLightIn(items[1..]);
      i := i + 1;
    }
  }

  lemma LightsShow(d: Fields, p: Fields)
    requires "print" in d && d["print"] == Obj(p)
    ensures ShowsLight(p, Look(d).light)
  {
    if "lights_report" in p && p["lights_report"].Arr? {
      var items := p["lights_report"].items;
      if exists j :: 0 <= j < |items| && IsChamberLight(items[j]) {
        var i := FirstLightIn(items);
        LightShows(items, i);
        assert forall k :: FirstLight(items, k) ==> k == i;
      } else {
        NoLightShows(items);
      }
    }
  }

  /** What is shown of a document whose print object is p. */
  lemma NumbersShow(d: Fields, p: Fields)
    requires "print" in d && d["print"] == Obj(p)
    ensures ShowsInt(p, "layer_num", Look(d).layer)
    ensures ShowsInt(p, "stg_cur", Look(d).stage)
    ensures ShowsInt(p, "print_error", Look(d).error)
  {
    IntShows(p, "layer_num");
    IntShows(p, "stg_cur");
    IntShows(p, "print_error");
  }

  // What a report changes of what is shown.

  const NothingShown: View := View(None, None, None, None, None)

  /** The value a report shows where its print object has the key, and the former one elsewhere. */
  function Updated<T>(p: Fields, key: string, given: Option<T>, kept: Option<T>): Option<T> {
    if key in p then given else kept
  }

  lemma PrintMerges(prev: Fields, delta: Fields)
    requires "print" in delta && delta["print"].Obj? && !IsFull("print", delta["print"])
    ensures var p := delta["print"].fields;
            Print(MergeDoc(prev, delta, true)) == MergeDoc(Print(prev), p, false)
  {
    var p := delta["print"].fields;
    assert MergeDoc(map[], p, false) == p by {
      forall k | k in p ensures MergeDoc(map[], p, false)[k] == p[k] {}
    }
  }

  lemma FieldsMerge(q: Fields, p: Fields, key: string)
    ensures var m := MergeDoc(q, p, false);
            && StringField(m, key) == Updated(p, key, StringField(p, key), StringField(q, key))
            && IntField(m, key) == Updated(p, key, IntField(p, key), IntField(q, key))
            && (key in m && m[key].Arr? <==> if key in p then p[key].Arr? else key in q && q[key].Arr?)
            && (key in m && m[key].Arr? ==> m[key] == if key in p then p[key] else q[key])
  {
  }

  /**
   A report shows what it names and keeps what it does not: field by field under a print object, everything replaced by
   a full report, everything lost when print is no object, nothing changed when it has no print.
   */
  lemma LookAfterReport(prev: Fields, delta: Fields)
    ensures var was, given, now := Look(prev), Look(delta), Look(MergeDoc(prev, delta, true));
            if "print" !in delta then now == was
            else if !delta["print"].Obj? then now == NothingShown
            else if MessageZero(delta["print"].fields) then now == given
            else
              var p := delta["print"].fields;
              now == View(Updated(p, "gcode_state", given.gcode, was.gcode),
                          Updated(p, "layer_num", given.layer, was.layer),
                          Updated(p, "stg_cur", given.stage, was.stage),
                          Updated(p, "print_error", given.error, was.error),
                          Updated(p, "lights_report", given.light, was.light))
  {
    if "print" in delta && delta["print"].Obj? && !IsFull("print", delta["print"]) {
      var p := delta["print"].fields;
      PrintMerges(prev, delta);
      FieldsMerge(Print(prev), p, "gcode_state");
      FieldsMerge(Print(prev), p, "layer_num");
      FieldsMerge(Print(prev), p, "stg_cur");
      FieldsMerge(Print(prev), p, "print_error");
      FieldsMerge(Print(prev), p, "lights_report");
    }
  }
}
