/** Topic levels, as strings.Split and strings.Join see them. */
module Topics {
  const DEVICE: string := "device"
  const REPORT: string := "report"
  const REQUEST: string := "request"

  predicate Plain(level: string) { '/' !in level }

  function Split(s: string): (p: seq<string>)
    ensures |p| > 0 && forall i :: 0 <= i < |p| ==> Plain(p[i])
  {
    if s == [] then [[]]
    else
      var p := Split(s[..|s| - 1]);
      var c := s[|s| - 1];
      if c == '/' then p + [[]] else p[|p| - 1 := p[|p| - 1] + [c]]
  }

  function Join(p: seq<string>): string
    requires |p| > 0
  {
    if |p| == 1 then p[0] else Join(p[..|p| - 1]) + "/" + p[|p| - 1]
  }

  lemma JoinSnoc(p: seq<string>, level: string)
    requires |p| > 0
    ensures Join(p + [level]) == Join(p) + "/" + level
  {
    assert (p + [level])[..|p|] == p;
  }

  lemma JoinLonger(p: seq<string>, c: char)
    requires |p| > 0
    ensures Join(p[|p| - 1 := p[|p| - 1] + [c]]) == Join(p) + [c]
  {
    var last := |p| - 1;
    assert p[last := p[last] + [c]][..last] == p[..last];
  }

  lemma {:induction false} JoinOfSplit(s: string)
    ensures Join(Split(s)) == s
  {
    if s != [] {
      var front, c := s[..|s| - 1], s[|s| - 1];
      JoinOfSplit(front);
      if c == '/' {
        JoinSnoc(Split(front), []);
      } else {
        JoinLonger(Split(front), c);
      }
      assert s == front + [c];
    }
  }

  lemma {:induction false} SplitSnoc(s: string, level: string)
    requires Plain(level)
    ensures Split(s + "/" + level) == Split(s) + [level]
  {
    var t := s + "/" + level;
    if level == [] {
      assert t[..|t| - 1] == s;
    } else {
      var front := level[..|level| - 1];
      SplitSnoc(s, front);
      assert t[..|t| - 1] == s + "/" + front;
      assert level == front + [level[|level| - 1]];
    }
  }

  lemma {:induction false} SplitPlain(level: string)
    requires Plain(level)
    ensures Split(level) == [level]
  {
    if level != [] {
      SplitPlain(level[..|level| - 1]);
      assert level == level[..|level| - 1] + [level[|level| - 1]];
    }
  }

  lemma {:induction false} SplitOfJoin(p: seq<string>)
    requires |p| > 0 && forall i :: 0 <= i < |p| ==> Plain(p[i])
    ensures Split(Join(p)) == p
  {
    var last := |p| - 1;
    if last == 0 {
      SplitPlain(p[0]);
    } else {
      SplitOfJoin(p[..last]);
      SplitSnoc(Join(p[..last]), p[last]);
      assert p[..last] + [p[last]] == p;
    }
  }

  lemma {:induction false} JoinCons(p: seq<string>)
    requires |p| > 1
    ensures Join(p) == p[0] + "/" + Join(p[1..])
  {
    var last := |p| - 1;
    assert p[1..][..last - 1] == p[..last][1..];
    if last > 1 {
      JoinCons(p[..last]);
    } else {
      assert p[..last] == [p[0]];
    }
  }

  /** Replacing the second level by another string gives another topic. */
  lemma SecondLevelShows(p: seq<string>, level: string)
    requires |p| > 1
    ensures Join(p[1 := level]) == Join(p) <==> level == p[1]
  {
    var q := p[1 := level];
    JoinCons(p);
    JoinCons(q);
    if Join(q) == Join(p) {
      assert Join(p)[|p[0]| + 1..] == Join(p[1..]);
      assert Join(q)[|p[0]| + 1..] == Join(q[1..]);
      if |p| == 2 {
      } else {
        JoinCons(p[1..]);
        JoinCons(q[1..]);
        assert p[2..] == p[1..][1..] == q[1..][1..];
        var end := "/" + Join(p[2..]);
        assert Join(p[1..]) == p[1] + end && Join(q[1..]) == level + end;
        assert |p[1]| == |level|;
        assert p[1] == Join(p[1..])[..|p[1]|];
        assert level == Join(q[1..])[..|level|];
      }
    }
    if level == p[1] {
      assert q == p;
    }
  }

  lemma {:induction false} SplitJoined(s: string, rest: string)
    ensures Split(s + "/" + rest) == Split(s) + Split(rest)
    decreases |rest|
  {
    if rest == [] {
      SplitSnoc(s, []);
    } else {
      var last := |rest| - 1;
      var t := s + "/" + rest;
      SplitJoined(s, rest[..last]);
      assert t[..|t| - 1] == s + "/" + rest[..last];
      assert t[|t| - 1] == rest[last];
    }
  }

  lemma JoinFirst(a: string, levels: seq<string>)
    requires |levels| > 0
    ensures Join([a] + levels) == a + "/" + Join(levels)
  {
    JoinCons([a] + levels);
    assert ([a] + levels)[1..] == levels;
  }

  lemma Regroup(a: string, b: string, c: string)
    ensures a + (b + c) == a + b + c
  {
  }

  lemma RegroupFour(a: string, b: string, c: string, d: string)
    ensures a + b + (c + b + d) == a + b + c + b + d
  {
    Regroup(a + b, c + b, d);
    Regroup(a + b, c, b);
  }

  lemma TwoLevels(a: string, b: string, levels: seq<string>)
    ensures [a] + ([b] + levels) == [a, b] + levels
  {
  }

  lemma JoinFirstTwo(a: string, b: string, levels: seq<string>)
    requires |levels| > 0
    ensures Join([a, b] + levels) == a + "/" + b + "/" + Join(levels)
  {
    var slash, rest := "/", [b] + levels;
    TwoLevels(a, b, levels);
    JoinFirst(b, levels);
    JoinFirst(a, rest);
    RegroupFour(a, slash, b, Join(levels));
  }
}
