/** Which serials and aliases a configuration may hold. */
module Configuration {
  import opened Options

  /** A configured printer; an empty alias leaves it addressed by its serial. */
  datatype Printer = Printer(serial: string, alias: string)

  datatype Error = SerialMissing(i: nat) | SerialDuplicate(i: nat) | AliasInvalid(i: nat) | AliasDuplicate(i: nat)

  predicate AliasChar(c: char) { '0' <= c <= '9' || 'A' <= c <= 'Z' }

  predicate ValidAlias(alias: string) {
    alias != [] && forall i :: 0 <= i < |alias| ==> AliasChar(alias[i])
  }

  predicate SerialTaken(ps: seq<Printer>, n: nat, s: string)
    requires n <= |ps|
  {
    exists i :: 0 <= i < n && ps[i].serial == s
  }

  predicate AliasTaken(ps: seq<Printer>, n: nat, s: string)
    requires n <= |ps|
  {
    exists i :: 0 <= i < n && ps[i].alias == s
  }

  predicate SerialsOk(ps: seq<Printer>) {
    && (forall i :: 0 <= i < |ps| ==> ps[i].serial != [])
    && (forall i, j :: 0 <= i < j < |ps| ==> ps[i].serial != ps[j].serial)
  }

  /** Serials are given and distinct; an alias fits the grammar and is no serial and no other alias. */
  predicate Valid(ps: seq<Printer>) {
    && SerialsOk(ps)
    && (forall i :: 0 <= i < |ps| && ps[i].alias != [] ==> ValidAlias(ps[i].alias))
    && (forall i, j :: 0 <= i < |ps| && 0 <= j < |ps| && ps[i].alias != [] ==> ps[i].alias != ps[j].serial)
    && (forall i, j :: 0 <= i < j < |ps| && ps[i].alias != [] ==> ps[i].alias != ps[j].alias)
  }

  /** What the first problem found says. */
  predicate Explains(ps: seq<Printer>, e: Error) {
    e.i < |ps| &&
    match e
    case SerialMissing(i) => ps[i].serial == []
    case SerialDuplicate(i) => ps[i].serial != [] && SerialTaken(ps, i, ps[i].serial)
    case AliasInvalid(i) => ps[i].alias != [] && !ValidAlias(ps[i].alias)
    case AliasDuplicate(i) =>
      ValidAlias(ps[i].alias) && (SerialTaken(ps, |ps|, ps[i].alias) || AliasTaken(ps, i, ps[i].alias))
  }

  method CheckAlias(alias: string) returns (ok: bool)
    ensures ok == ValidAlias(alias)
    ensures ok <==> |alias| > 0 && forall i :: 0 <= i < |alias| ==>
              48 <= alias[i] as int <= 57 || 65 <= alias[i] as int <= 90
  {
    for i := 0 to |alias|
      invariant forall j :: 0 <= j < i ==> AliasChar(alias[j])
    {
      var c := alias[i];
      if (c < '0' || c > '9') && (c < 'A' || c > 'Z') {
        return false;
      }
    }
    return alias != [];
  }

  method CheckSerials(ps: seq<Printer>) returns (error: Option<Error>, seen: set<string>)
    ensures error.None? <==> SerialsOk(ps)
    ensures error.Some? ==> Explains(ps, error.value)
    ensures error.None? ==> forall s :: s in seen <==> SerialTaken(ps, |ps|, s)
  {
    error, seen := None, {};
    for i := 0 to |ps|
      invariant error.None? && forall s :: s in seen <==> SerialTaken(ps, i, s)
      invariant forall j :: 0 <= j < i ==> ps[j].serial != []
      invariant forall j, k :: 0 <= j < k < i ==> ps[j].serial != ps[k].serial
    {
      if ps[i].serial == [] {
        return Some(SerialMissing(i)), seen;
      }
      if ps[i].serial in seen {
        assert SerialTaken(ps, i, ps[i].serial);
        return Some(SerialDuplicate(i)), seen;
      }
      seen := seen + {ps[i].serial};
    }
  }

  /** The serial and alias part of the configuration check. */
  method Validate(ps: seq<Printer>) returns (error: Option<Error>)
    ensures error.None? <==> Valid(ps)
    ensures error.Some? ==> Explains(ps, error.value)
  {
    var seen;
    error, seen := CheckSerials(ps);
    if error.Some? {
      return;
    }
    var used := seen;
    for i := 0 to |ps|
      invariant error.None? && forall s :: s in used <==> SerialTaken(ps, |ps|, s) || (s != [] && AliasTaken(ps, i, s))
      invariant forall j :: 0 <= j < i && ps[j].alias != [] ==>
                  ValidAlias(ps[j].alias) && !SerialTaken(ps, |ps|, ps[j].alias)
      invariant forall j, k :: 0 <= j < k < i && ps[j].alias != [] ==> ps[j].alias != ps[k].alias
    {
      if ps[i].alias == [] {
        continue;
      }
      var valid := CheckAlias(ps[i].alias);
      if !valid {
        return Some(AliasInvalid(i));
      }
      if ps[i].alias in used {
        return Some(AliasDuplicate(i));
      }
      used := used + {ps[i].alias};
    }
  }
}

/** The routing table and the rewriting of topics. */
module Routing {
  import opened Options
  import opened Topics
  import opened Configuration

  datatype Table = Table(downstream: map<string, string>, upstream: map<string, string>, order: seq<string>)

  type Aliases = map<string, string>

  /** A printer's downstream ID. */
  function Id(s: string, aliases: Aliases): string {
    if s in aliases && aliases[s] != [] then aliases[s] else s
  }

  function TableOf(ss: seq<string>, aliases: Aliases): Table {
    if ss == [] then Table(map[], map[], [])
    else
      var t, s := TableOf(ss[..|ss| - 1], aliases), ss[|ss| - 1];
      Table(t.downstream[Id(s, aliases) := s], t.upstream[s := Id(s, aliases)], t.order + [s])
  }

  method NewTable(ss: seq<string>, aliases: Aliases) returns (t: Table)
    ensures t == TableOf(ss, aliases)
  {
    t := Table(map[], map[], []);
    for i := 0 to |ss|
      invariant t == TableOf(ss[..i], aliases)
    {
      assert ss[..i + 1][..i] == ss[..i];
      var id := ss[i];
      if ss[i] in aliases && aliases[ss[i]] != [] {
        id := aliases[ss[i]];
      }
      t := Table(t.downstream[id := ss[i]], t.upstream[ss[i] := id], t.order + [ss[i]]);
    }
    assert ss[..|ss|] == ss;
  }

  /** Each printer's ID is its alias if it has one, else its serial. */
  predicate NamesAll(ps: seq<Printer>, aliases: Aliases) {
    forall i :: 0 <= i < |ps| ==>
      Id(ps[i].serial, aliases) == if ps[i].alias != [] then ps[i].alias else ps[i].serial
  }

  /** What the program passes to NewTable. */
  method Arguments(ps: seq<Printer>) returns (ss: seq<string>, aliases: Aliases)
    ensures ss == SerialsOf(ps)
    ensures Valid(ps) ==> NamesAll(ps, aliases)
  {
    ss, aliases := [], map[];
    for i := 0 to |ps|
      invariant |ss| == i && forall j :: 0 <= j < i ==> ss[j] == ps[j].serial
      invariant forall s :: s in aliases ==> s in ss
      invariant Valid(ps) ==> forall j :: 0 <= j < i ==>
                  if ps[j].alias == [] then ps[j].serial !in aliases
                  else ps[j].serial in aliases && aliases[ps[j].serial] == ps[j].alias
    {
      assert Valid(ps) ==> ps[i].serial !in ss;
      ss := ss + [ps[i].serial];
      if ps[i].alias != [] {
        aliases := aliases[ps[i].serial := ps[i].alias];
      }
    }
  }

  function SerialsOf(ps: seq<Printer>): seq<string> { seq(|ps|, i requires 0 <= i < |ps| => ps[i].serial) }

  predicate AllowedSubscribe(t: Table, filter: string) {
    var p := Split(filter);
    if |p| == 2 && p[0] == DEVICE && p[1] == "#" then |t.order| > 0
    else if |p| == 3 && p[0] == DEVICE then
      && (p[2] == REPORT || p[2] == REQUEST || p[2] == "#")
      && (if p[1] == "+" then |t.order| > 0 else p[1] in t.downstream)
    else false
  }

  function RequestSerial(t: Table, topic: string): Option<string> {
    var p := Split(topic);
    if |p| != 3 || p[0] != DEVICE || p[2] != REQUEST then None
    else if p[1] in t.downstream then Some(t.downstream[p[1]]) else None
  }

  /** A device topic's second level, looked up and replaced; any other topic stays. */
  function Rewrite(names: map<string, string>, topic: string): string {
    var p := Split(topic);
    if |p| < 2 || p[0] != DEVICE || p[1] !in names then topic else Join(p[1 := names[p[1]]])
  }

  function Downstream(t: Table, topic: string): string { Rewrite(t.upstream, topic) }

  function Upstream(t: Table, topic: string): string { Rewrite(t.downstream, topic) }

  // The two maps.

  /** The maps say the same, in opposite directions. */
  ghost predicate Inverse(t: Table) {
    forall id, s :: id in t.downstream && t.downstream[id] == s <==> s in t.upstream && t.upstream[s] == id
  }

  predicate DistinctIds(ss: seq<string>, aliases: Aliases) {
    forall s, u :: s in ss && u in ss && Id(s, aliases) == Id(u, aliases) ==> s == u
  }

  lemma {:induction false} TableHas(ss: seq<string>, aliases: Aliases)
    ensures forall s :: s in TableOf(ss, aliases).upstream <==> s in ss
    ensures forall s :: s in ss ==>
              && TableOf(ss, aliases).upstream[s] == Id(s, aliases)
              && Id(s, aliases) in TableOf(ss, aliases).downstream
    ensures forall id :: id in TableOf(ss, aliases).downstream ==>
              TableOf(ss, aliases).downstream[id] in ss && Id(TableOf(ss, aliases).downstream[id], aliases) == id
  {
    if ss != [] {
      var last := |ss| - 1;
      TableHas(ss[..last], aliases);
      assert forall s :: s in ss <==> s in ss[..last] || s == ss[last] by {
        assert ss == ss[..last] + [ss[last]];
      }
    }
  }

  /** The table's maps are inverse exactly when no two serials share a downstream ID. */
  lemma TableIsInverseIff(ss: seq<string>, aliases: Aliases)
    ensures Inverse(TableOf(ss, aliases)) <==> DistinctIds(ss, aliases)
  {
    TableHas(ss, aliases);
    var t := TableOf(ss, aliases);
    if Inverse(t) {
      forall s, u | s in ss && u in ss && Id(s, aliases) == Id(u, aliases) ensures s == u {
        assert t.downstream[Id(s, aliases)] == s && t.downstream[Id(u, aliases)] == u;
      }
    }
  }

  /** What the theorems on topics need: distinct IDs, and aliases that are single levels and nobody's serial. */
  predicate Unambiguous(ss: seq<string>, aliases: Aliases) {
    && DistinctIds(ss, aliases)
    && (forall s, u :: s in ss && u in ss && Id(s, aliases) != s ==> Id(s, aliases) != u)
    && (forall s :: s in ss && Id(s, aliases) != s ==> Plain(Id(s, aliases)))
  }

  lemma PlainAlias(alias: string)
    requires ValidAlias(alias)
    ensures Plain(alias)
  {
    forall i | 0 <= i < |alias| ensures alias[i] != '/' {
      assert AliasChar(alias[i]);
    }
  }

  /** The configuration check establishes it. */
  lemma ValidIsUnambiguous(ps: seq<Printer>, aliases: Aliases)
    requires Valid(ps)
    requires NamesAll(ps, aliases)
    ensures Unambiguous(SerialsOf(ps), aliases) && Inverse(TableOf(SerialsOf(ps), aliases))
  {
    var ss := SerialsOf(ps);
    assert forall s :: s in ss ==> exists i :: 0 <= i < |ps| && ps[i].serial == s;
    forall s, u | s in ss && u in ss
      ensures Id(s, aliases) == Id(u, aliases) ==> s == u
      ensures Id(s, aliases) != s ==> Id(s, aliases) != u && Plain(Id(s, aliases))
    {
      var i :| 0 <= i < |ps| && ps[i].serial == s;
      var j :| 0 <= j < |ps| && ps[j].serial == u;
      if ps[i].alias != [] {
        PlainAlias(ps[i].alias);
      }
    }
    TableIsInverseIff(ss, aliases);
  }

  // Topics there and back.

  /** Some printer's alias stands as the topic's second level. */
  predicate NamesAlias(ss: seq<string>, aliases: Aliases, topic: string) {
    var p := Split(topic);
    |p| >= 2 && p[0] == DEVICE && exists s :: s in ss && Id(s, aliases) == p[1] && s != p[1]
  }

  lemma RewriteLevels(names: map<string, string>, topic: string)
    requires |Split(topic)| >= 2 && Split(topic)[0] == DEVICE && Split(topic)[1] in names
    requires Plain(names[Split(topic)[1]])
    ensures Split(Rewrite(names, topic)) == Split(topic)[1 := names[Split(topic)[1]]]
  {
    SplitOfJoin(Split(topic)[1 := names[Split(topic)[1]]]);
  }

  lemma RewriteChanges(names: map<string, string>, topic: string)
    ensures Rewrite(names, topic) == topic
            <==> var p := Split(topic); |p| >= 2 && p[0] == DEVICE && p[1] in names ==> names[p[1]] == p[1]
  {
    JoinOfSplit(topic);
    var p := Split(topic);
    if |p| >= 2 && p[0] == DEVICE && p[1] in names {
      SecondLevelShows(p, names[p[1]]);
    }
  }

  lemma SerialLevelReturns(t: Table, topic: string, s: string, id: string)
    requires |Split(topic)| >= 2 && Split(topic)[0] == DEVICE && Split(topic)[1] == s && Plain(id)
    requires s in t.upstream && t.upstream[s] == id && id in t.downstream && t.downstream[id] == s
    ensures Upstream(t, Downstream(t, topic)) == topic
  {
    var p := Split(topic);
    RewriteLevels(t.upstream, topic);
    assert p[1 := id][1 := s] == p;
    JoinOfSplit(topic);
  }

  /**
   For every topic: rewriting to the downstream ID and back returns it, if and only if its second level is not an
   alias, which no printer uses as its serial. In particular every topic with a configured serial returns.
   */
  lemma UpstreamOfDownstreamIff(ss: seq<string>, aliases: Aliases, topic: string)
    requires Unambiguous(ss, aliases)
    ensures Upstream(TableOf(ss, aliases), Downstream(TableOf(ss, aliases), topic)) == topic <==>
            !NamesAlias(ss, aliases, topic)
  {
    var t, p := TableOf(ss, aliases), Split(topic);
    TableHas(ss, aliases);
    if |p| >= 2 && p[0] == DEVICE {
      if p[1] in ss {
        assert Plain(Id(p[1], aliases));
        assert t.downstream[Id(p[1], aliases)] == p[1];
        SerialLevelReturns(t, topic, p[1], Id(p[1], aliases));
      } else {
        RewriteChanges(t.downstream, topic);
      }
    }
  }

  // Commands.

  /** A topic commands a printer exactly when it is the request topic of that printer's ID and the ID is one level. */
  lemma CommandsIff(ss: seq<string>, aliases: Aliases, s: string, topic: string)
    requires Unambiguous(ss, aliases) && s in ss
    ensures RequestSerial(TableOf(ss, aliases), topic) == Some(s) <==>
            Plain(Id(s, aliases)) && topic == Topic(Id(s, aliases), "request")
  {
    var id := Id(s, aliases);
    assert RequestSerial(TableOf(ss, aliases), topic) == Some(s) <==> Split(topic) == [DEVICE, id, REQUEST] by {
      TableHas(ss, aliases);
    }
    LevelsIff(topic, id, REQUEST);
  }

  /** Different topics never command the same printer. */
  lemma OneTopicPerPrinter(ss: seq<string>, aliases: Aliases, topic: string, other: string)
    requires Unambiguous(ss, aliases) && RequestSerial(TableOf(ss, aliases), topic).Some?
    requires RequestSerial(TableOf(ss, aliases), topic) == RequestSerial(TableOf(ss, aliases), other)
    ensures topic == other
  {
    TableHas(ss, aliases);
    var s := RequestSerial(TableOf(ss, aliases), topic).value;
    CommandsIff(ss, aliases, s, topic);
    CommandsIff(ss, aliases, s, other);
  }

  // Filters and topics, as strings.

  /** The topic below device/ and this level. */
  function Topic(level: string, rest: string): string { "device/" + level + "/" + rest }

  lemma TopicJoins(level: string, rest: string)
    ensures Join([DEVICE, level]) == "device/" + level
    ensures Topic(level, rest) == Join([DEVICE, level]) + "/" + rest
  {
    assert [DEVICE, level][..1] == [DEVICE];
    assert "device/" == DEVICE + "/";
  }

  lemma TopicLevels(level: string, rest: string)
    requires Plain(level)
    ensures Split("device/" + level) == [DEVICE, level]
    ensures Split(Topic(level, rest)) == [DEVICE, level] + Split(rest)
  {
    TopicJoins(level, rest);
    SplitOfJoin([DEVICE, level]);
    SplitJoined(Join([DEVICE, level]), rest);
  }

  lemma LevelsAre(level: string, last: string)
    requires Plain(level) && Plain(last)
    ensures Split(Topic(level, last)) == [DEVICE, level, last]
  {
    TopicLevels(level, last);
    SplitPlain(last);
    assert [DEVICE, level] + [last] == [DEVICE, level, last];
  }

  lemma LevelsIff(filter: string, level: string, last: string)
    requires Plain(last)
    ensures Split(filter) == [DEVICE, level, last] <==> Plain(level) && filter == Topic(level, last)
  {
    JoinOfSplit(filter);
    if Plain(level) {
      LevelsAre(level, last);
      JoinOfSplit(Topic(level, last));
    } else {
      assert level !in Split(filter);
    }
  }

  lemma DeviceWildcardIff(filter: string)
    ensures Split(filter) == [DEVICE, "#"] <==> filter == "device/#"
  {
    JoinOfSplit(filter);
    TopicLevels("#", []);
    JoinOfSplit("device/#");
    assert "device/" + "#" == "device/#";
  }

  /** The single level says any printer, or names one. */
  predicate Names(ss: seq<string>, aliases: Aliases, id: string) {
    Plain(id) && (id == "+" || exists s :: s in ss && Id(s, aliases) == id)
  }

  /** A filter for reports, requests or everything under + or under one printer's ID. */
  ghost predicate NamesPrinters(ss: seq<string>, aliases: Aliases, filter: string) {
    exists id, last :: last in {"report", "request", "#"} && Names(ss, aliases, id) && filter == Topic(id, last)
  }

  lemma NamingLevels(ss: seq<string>, aliases: Aliases, filter: string)
    ensures NamesPrinters(ss, aliases, filter) <==>
              && |Split(filter)| == 3 && Split(filter)[0] == DEVICE && Split(filter)[2] in {"report", "request", "#"}
              && Names(ss, aliases, Split(filter)[1])
  {
    var p := Split(filter);
    if NamesPrinters(ss, aliases, filter) {
      var id, last :| last in {"report", "request", "#"} && Names(ss, aliases, id) && filter == Topic(id, last);
      LevelsIff(filter, id, last);
    }
    if |p| == 3 && p[0] == DEVICE {
      assert p == [DEVICE, p[1], p[2]];
      LevelsIff(filter, p[1], p[2]);
    }
  }

  /**
   A filter may be subscribed to if and only if it is device/#, or report, request or # under + or under one
   printer's ID, and there is a printer at all.
   */
  lemma AllowedIff(ss: seq<string>, aliases: Aliases, filter: string)
    ensures AllowedSubscribe(TableOf(ss, aliases), filter) <==>
            ss != [] && (filter == "device/#" || NamesPrinters(ss, aliases, filter))
  {
    TableHas(ss, aliases);
    OrderIs(ss, aliases);
    DeviceWildcardIff(filter);
    NamingLevels(ss, aliases, filter);
    var p := Split(filter);
    assert |p| == 2 && p[0] == DEVICE && p[1] == "#" <==> p == [DEVICE, "#"];
    assert p[|p| - 1] in {"report", "request", "#"} <==>
           p[|p| - 1] == REPORT || p[|p| - 1] == REQUEST || p[|p| - 1] == "#";
  }

  /** A second level that is known is replaced, whatever follows it. */
  lemma RewriteIs(names: map<string, string>, level: string, rest: string)
    requires Plain(level) && level in names
    ensures Rewrite(names, Topic(level, rest)) == Topic(names[level], rest)
  {
    TopicLevels(level, rest);
    var id := names[level];
    assert ([DEVICE, level] + Split(rest))[1 := id] == [DEVICE, id] + Split(rest);
    JoinAfter(id, Split(rest));
    JoinOfSplit(rest);
  }

  lemma TopicIs(level: string, rest: string)
    ensures Topic(level, rest) == DEVICE + "/" + level + "/" + rest
  {
    assert "device/" == DEVICE + "/";
  }

  lemma JoinAfter(id: string, levels: seq<string>)
    requires |levels| > 0
    ensures Join([DEVICE, id] + levels) == Topic(id, Join(levels))
  {
    JoinFirstTwo(DEVICE, id, levels);
    TopicIs(id, Join(levels));
  }

  /** A printer's topics carry its ID downstream, and its ID's topics its serial upstream, whatever follows. */
  lemma PrinterTopicIs(ss: seq<string>, aliases: Aliases, s: string, rest: string)
    requires DistinctIds(ss, aliases) && s in ss
    ensures Plain(s) ==> Downstream(TableOf(ss, aliases), Topic(s, rest)) == Topic(Id(s, aliases), rest)
    ensures Plain(Id(s, aliases)) ==> Upstream(TableOf(ss, aliases), Topic(Id(s, aliases), rest)) == Topic(s, rest)
  {
    TableHas(ss, aliases);
    var t := TableOf(ss, aliases);
    assert t.downstream[Id(s, aliases)] == s;
    if Plain(s) {
      RewriteIs(t.upstream, s, rest);
    }
    if Plain(Id(s, aliases)) {
      RewriteIs(t.downstream, Id(s, aliases), rest);
    }
  }

  /** The topic is the level's own or below it. */
  ghost predicate Under(topic: string, level: string) {
    topic == "device/" + level || exists rest :: topic == Topic(level, rest)
  }

  lemma LevelIsUnder(topic: string)
    requires |Split(topic)| >= 2 && Split(topic)[0] == DEVICE
    ensures Under(topic, Split(topic)[1])
  {
    var p := Split(topic);
    JoinOfSplit(topic);
    if |p| == 2 {
      TopicJoins(p[1], []);
      assert p == [DEVICE, p[1]];
    } else {
      assert p == [DEVICE, p[1]] + p[2..];
      JoinAfter(p[1], p[2..]);
    }
  }

  /** Topics of no configured serial pass downstream unchanged, and topics of no ID pass upstream unchanged. */
  lemma OtherTopicsPass(ss: seq<string>, aliases: Aliases, topic: string)
    ensures (forall s :: s in ss ==> !Under(topic, s)) ==> Downstream(TableOf(ss, aliases), topic) == topic
    ensures (forall s :: s in ss ==> !Under(topic, Id(s, aliases))) ==> Upstream(TableOf(ss, aliases), topic) == topic
  {
    TableHas(ss, aliases);
    var p := Split(topic);
    if |p| >= 2 && p[0] == DEVICE {
      LevelIsUnder(topic);
    }
  }

  /** The topic a printer's reports are handed on under is one that clients may subscribe to. */
  lemma ReportsCanBeRead(ss: seq<string>, aliases: Aliases, s: string)
    requires DistinctIds(ss, aliases) && s in ss && Plain(s) && Plain(Id(s, aliases))
    ensures AllowedSubscribe(TableOf(ss, aliases), Downstream(TableOf(ss, aliases), Topic(s, "report")))
  {
    PrinterTopicIs(ss, aliases, s, "report");
    assert Names(ss, aliases, Id(s, aliases));
    assert NamesPrinters(ss, aliases, Topic(Id(s, aliases), "report"));
    AllowedIff(ss, aliases, Topic(Id(s, aliases), "report"));
  }

  lemma {:induction false} OrderIs(ss: seq<string>, aliases: Aliases)
    ensures TableOf(ss, aliases).order == ss
  {
    if ss != [] {
      OrderIs(ss[..|ss| - 1], aliases);
      assert ss == ss[..|ss| - 1] + [ss[|ss| - 1]];
    }
  }

  /** The filter treats its second level as a wildcard: one level, or everything from there on. */
  predicate Wild(filter: string) {
    var p := Split(filter);
    || (|p| == 2 && p[0] == DEVICE && p[1] == "#")
    || (|p| == 3 && p[0] == DEVICE && p[1] == "+" && (p[2] == REPORT || p[2] == REQUEST || p[2] == "#"))
  }

  /**
   An aliased printer's serial is no downstream ID: no topic with it commands anything, and a filter with it is
   allowed if and only if the serial reads as a wildcard there.
   */
  lemma SerialIsHiddenIff(ss: seq<string>, aliases: Aliases, s: string, topic: string)
    requires Unambiguous(ss, aliases) && s in ss && Id(s, aliases) != s
    requires |Split(topic)| >= 2 && Split(topic)[1] == s
    ensures RequestSerial(TableOf(ss, aliases), topic).None?
    ensures AllowedSubscribe(TableOf(ss, aliases), topic) <==> Wild(topic)
  {
    TableHas(ss, aliases);
    OrderIs(ss, aliases);
    assert s !in TableOf(ss, aliases).downstream;
  }

  /** The configuration check lets such a serial pass. */
  lemma WildcardSerialIsNotHidden()
    ensures Valid([Printer("+", "A")])
    ensures var t := TableOf(["+"], map["+" := "A"]); AllowedSubscribe(t, "device/+/report")
  {
    var ps := [Printer("+", "A")];
    assert forall i :: 0 <= i < |ps[0].alias| ==> AliasChar(ps[0].alias[i]);
    var p := [DEVICE, "+", REPORT];
    assert p[..2] == [DEVICE, "+"] && p[..2][..1] == [DEVICE];
    assert Join([DEVICE, "+"]) == "device/+" by {
      assert [DEVICE, "+"][..1] == [DEVICE];
    }
    SplitOfJoin(p);
    assert Join(p) == "device/+/report";
    OrderIs(["+"], map["+" := "A"]);
  }

  /** The configuration check lets a serial of several levels pass, and no topic commands such a printer. */
  lemma SeveralLevelsAreNotCommanded(topic: string)
    ensures Valid([Printer("A/B", "")])
    ensures RequestSerial(TableOf(["A/B"], map[]), topic) != Some("A/B")
  {
    assert "A/B"[1] == '/';
    assert Unambiguous(["A/B"], map[]);
    CommandsIff(["A/B"], map[], "A/B", topic);
  }
}
