/** RyanMqttMatchTopic: the two-index matcher, and exactly how far it meets section 4.7. */
module TopicMatcher {
  import opened TopicFilter

  /** The filter text ends with `parent/#` and `f` is at the last character of the parent. */
  predicate AtParentOfHash(f: string) {
    |f| == 3 && f[1] == '/' && f[2] == '#'
  }

  /** The filter text left is "/+" or "/#". */
  predicate AtTrailingWildcard(f: string) {
    |f| == 2 && f[0] == '/' && IsWildcard(f[1])
  }

  /** The length of the current level of `t`. */
  function LevelEnd(t: string): (e: nat)
    ensures e <= |t|
    ensures '/' !in t[..e]
    ensures e < |t| ==> t[e] == '/'
  {
    if t == "" || t[0] == '/' then 0
    else
      var e := 1 + LevelEnd(t[1..]);
      assert t[..e] == [t[0]] + t[1..][..e - 1];
      e
  }

  /** The decision the loop reaches from the texts still unread. `start`: the filter is at a level boundary. */
  predicate Decide(t: string, f: string, start: bool)
    decreases |t|
  {
    if t == "" || f == "" then t == "" && f == ""
    else if t[0] == f[0] then
      || (|t| == 1 && (AtParentOfHash(f) || AtTrailingWildcard(f)))
      || Decide(t[1..], f[1..], f[0] == '/')
    else if f[0] == '+' && start then
      var e := LevelEnd(t);
      if e == |t| then f == "+"
      else |f| > 1 && f[1] == '/' && Decide(t[e + 1..], f[2..], true)
    else
      f == "#" && start
  }

  /** What RyanMqttMatchTopic answers for any topic and any non-empty filter. */
  predicate CodeMatches(topic: string, filter: string) {
    !DollarExcluded(topic, filter) && Decide(topic, filter, true)
  }

  /** The filter ends in `+/#` and that `+` stands for the topic's last level. */
  predicate MissedParent(topic: seq<string>, filter: seq<string>) {
    var m := |filter|;
    m >= 2 && filter[m - 2] == "+" && filter[m - 1] == "#" && |topic| == m - 1
  }

  /** The topic ends in '/', the filter has `+` opposite its second-to-last level, and the filter text after
      that is not empty. */
  predicate MissedTrailing(topic: seq<string>, filter: seq<string>) {
    var n, m := |topic|, |filter|;
    && n >= 2 && topic[n - 1] == "" && m >= n && filter[n - 2] == "+"
    && !(m == n && filter[n - 1] == "")
  }

  /** The matches of section 4.7 that the code misses. */
  predicate MissedLevels(topic: seq<string>, filter: seq<string>) {
    MissedParent(topic, filter) || MissedTrailing(topic, filter)
  }

  predicate Missed(topic: string, filter: string) {
    MissedLevels(Split(topic), Split(filter))
  }

  /** The filter text left, when the matcher is (or is not) at a level boundary. */
  predicate WellFormedRest(f: string, start: bool) {
    var levels := Split(f);
    WellFormedLevels(levels) && (start || WildcardFree(levels[0]))
  }

  lemma {:induction false} WellFormedTail(f: string, start: bool)
    requires f != "" && WellFormedRest(f, start) && !IsWildcard(f[0])
    ensures WellFormedRest(f[1..], f[0] == '/')
  {
    var levels, rest := Split(f), Split(f[1..]);
    if f[0] == '/' {
      assert forall i | 0 <= i < |rest| :: rest[i] == levels[i + 1];
    } else {
      assert levels[0] == [f[0]] + rest[0];
      assert f[0] in levels[0];
      assert levels[0] != "+" && levels[0] != "#";
      assert forall c | c in rest[0] :: c in levels[0];
      assert forall i | 1 <= i < |rest| :: rest[i] == levels[i];
    }
  }

  lemma {:induction false} FirstLevelWildcard(f: string)
    requires f != "" && WellFormedRest(f, true) && IsWildcard(f[0])
    ensures f == "#" || f == "+" || (f[0] == '+' && |f| > 1 && f[1] == '/')
  {
    var levels := Split(f);
    assert f[0] in levels[0];
    assert |levels[0]| == 1;
    if |f| > 1 {
      SplitHead(f[1..]);
      assert levels[0] == [f[0]] + Split(f[1..])[0];
      assert levels[0][1..] == Split(f[1..])[0];
      assert f[1] == '/';
      assert |Split(f[1..])| > 1;
    }
  }

  /** A filter that continues after a leading '+' level. */
  lemma {:induction false} AfterPlus(f: string)
    requires |f| > 1 && f[0] == '+' && f[1] == '/' && WellFormedRest(f, true)
    ensures Split(f) == ["+"] + Split(f[2..])
    ensures WellFormedRest(f[2..], true)
  {
    assert f[..1] == "+";
    SplitAtSeparator(f, 1);
    assert forall i | 0 <= i < |Split(f[2..])| :: Split(f[2..])[i] == Split(f)[i + 1];
  }

  /** A level put before both lists does not change what is missed, unless the topic rest is one empty level. */
  lemma {:induction false} MissedBehindLevel(x: string, topic: seq<string>, y: string, filter: seq<string>)
    requires |topic| >= 1 && |filter| >= 1 && topic != [""]
    ensures MissedLevels([x] + topic, [y] + filter) == MissedLevels(topic, filter)
  {
  }

  /** What is missed depends on the first levels only through the filter's being "+". */
  lemma {:induction false} MissedFirstLevel(x: string, x': string, topic: seq<string>, y: string, y': string, filter: seq<string>)
    requires y != "+" && y' != "+"
    ensures MissedLevels([x] + topic, [y] + filter) == MissedLevels([x'] + topic, [y'] + filter)
  {
  }

  /** Which filter texts have the level lists that match one empty level. */
  lemma {:induction false} ShortTexts(g: string)
    ensures g == "" <==> Split(g) == [""]
    ensures g == "+" <==> Split(g) == ["+"]
    ensures g == "#" <==> Split(g) == ["#"]
    ensures g == "/#" <==> Split(g) == ["", "#"]
    ensures g == "+/#" <==> Split(g) == ["+", "#"]
  {
    SplitSingle("");
    SplitSingle("+");
    SplitSingle("#");
    SplitAtSeparator("/#", 0);
    SplitAtSeparator("+/#", 1);
    assert "/#"[1..] == "#" && "+/#"[2..] == "#" && "+/#"[..1] == "+";
    var texts := ["", "+", "#", "/#", "+/#"];
    forall i | 0 <= i < |texts| && Split(g) == Split(texts[i])
      ensures g == texts[i]
    {
      SplitInjective(g, texts[i]);
    }
    assert texts[0] == "" && texts[1] == "+" && texts[2] == "#" && texts[3] == "/#" && texts[4] == "+/#";
  }

  lemma {:induction false} SingleEmptyLevel(gs: seq<string>)
    requires |gs| >= 1
    ensures LevelsMatch([""], gs) <==>
              gs == [""] || gs == ["+"] || gs == ["#"] || gs == ["", "#"] || gs == ["+", "#"]
  {
  }

  /** The topic text left is one separator. */
  lemma {:induction false} ExactAtLastSeparator(f: string, start: bool)
    requires f != "" && f[0] == '/' && WellFormedRest(f, start)
    ensures Decide("/", f, start) <==> LevelsMatch(Split("/"), Split(f)) && !MissedLevels(Split("/"), Split(f))
  {
    var g := f[1..];
    var gs := Split(g);
    assert f == ['/'] + g;
    assert "/"[1..] == "" && Split("/") == ["", ""] && Split(f) == [""] + gs;
    assert ["", ""][1..] == [""] && Split(f)[1..] == gs;
    SingleEmptyLevel(gs);
    ShortTexts(g);
    assert Decide("/", f, start) <==> g in ["", "+", "#", "/#"];
    if LevelsMatch([""], gs) {
      assert MissedLevels(["", ""], [""] + gs) <==> gs == ["+", "#"] by {
        if |gs| == 2 {
          assert ([""] + gs)[1..] == gs;
        }
      }
    }
  }

  /** The topic text left is the last character of a level. */
  lemma {:induction false} ExactAtLastChar(t: string, f: string, start: bool)
    requires |t| == 1 && f != "" && t[0] == f[0] && t[0] != '/' && WildcardFree(t) && WellFormedRest(f, start)
    ensures Decide(t, f, start) <==> LevelsMatch(Split(t), Split(f)) && !MissedLevels(Split(t), Split(f))
  {
    assert t[0] in t;
    var g := f[1..];
    var gs := Split(g);
    assert f == [f[0]] + g;
    SplitSingle(t);
    var fs := Split(f);
    assert fs == [[f[0]] + gs[0]] + gs[1..];
    assert f[0] in fs[0];
    assert fs[0] == t <==> gs[0] == "";
    assert [t][1..] == [] && fs[1..] == gs[1..];
    assert LevelsMatch([t], fs) <==> gs[0] == "" && LevelsMatch([], gs[1..]);
    assert LevelsMatch([], gs[1..]) <==> gs[1..] == [] || gs[1..] == ["#"];
    ShortTexts(g);
    assert gs == [gs[0]] + gs[1..];
    assert LevelsMatch([t], fs) <==> gs == [""] || gs == ["", "#"];
    assert AtParentOfHash(f) <==> g == "/#";
  }

  /** Reading one equal character keeps the level-list question the same. */
  lemma {:induction false} ExactStepSeparator(t: string, f: string)
    requires |t| > 1 && f != "" && t[0] == f[0] == '/'
    ensures LevelsMatch(Split(t), Split(f)) == LevelsMatch(Split(t[1..]), Split(f[1..]))
    ensures MissedLevels(Split(t), Split(f)) == MissedLevels(Split(t[1..]), Split(f[1..]))
  {
    var us, gs := Split(t[1..]), Split(f[1..]);
    assert ([""] + us)[1..] == us && ([""] + gs)[1..] == gs;
    ShortTexts(t[1..]);
    MissedBehindLevel("", us, "", gs);
  }

  lemma {:induction false} ExactStepChar(t: string, f: string, start: bool)
    requires |t| > 1 && f != "" && t[0] == f[0] && t[0] != '/' && WildcardFree(t) && WellFormedRest(f, start)
    ensures LevelsMatch(Split(t), Split(f)) == LevelsMatch(Split(t[1..]), Split(f[1..]))
    ensures MissedLevels(Split(t), Split(f)) == MissedLevels(Split(t[1..]), Split(f[1..]))
  {
    assert t[0] in t;
    WellFormedTail(f, start);
    var us, gs := Split(t[1..]), Split(f[1..]);
    var x, y := [t[0]] + us[0], [f[0]] + gs[0];
    var ts, fs := [x] + us[1..], [y] + gs[1..];
    assert Split(t) == ts && Split(f) == fs;
    assert us == [us[0]] + us[1..] && gs == [gs[0]] + gs[1..];
    assert f[0] in y;
    assert gs[0] != "+" && gs[0] != "#" by {
      assert "+"[0] in "+" && "#"[0] in "#";
    }
    assert y != "+" && y != "#" by {
      assert "+"[0] in "+" && "#"[0] in "#";
      assert y[0] == f[0];
    }
    assert x[1..] == us[0] && y[1..] == gs[0];
    assert x == y <==> us[0] == gs[0];
    assert ts[1..] == us[1..] && fs[1..] == gs[1..];
    assert fs[0] == y && fs != ["#"] && gs != ["#"];
    MissedFirstLevel(x, us[0], us[1..], y, gs[0], gs[1..]);
  }

  /** A '+' in the filter opposite the last topic level. */
  lemma {:induction false} ExactAtPlusLast(t: string, f: string)
    requires t != "" && f != "" && f[0] == '+' && WildcardFree(t) && WellFormedRest(f, true)
    requires LevelEnd(t) == |t|
    ensures Decide(t, f, true) <==> LevelsMatch(Split(t), Split(f)) && !MissedLevels(Split(t), Split(f))
  {
    assert t[0] in t;
    assert t[..|t|] == t;
    SplitSingle(t);
    FirstLevelWildcard(f);
    ShortTexts(f);
    assert [t][1..] == [];
    if f != "+" {
      AfterPlus(f);
      var gs := Split(f[2..]);
      assert (["+"] + gs)[1..] == gs;
    }
  }

  /** A '+' in the filter opposite a topic level that others follow; `us` are those levels. */
  lemma {:induction false} ExactAtPlusInner(t: string, f: string, us: seq<string>)
    requires t != "" && f != "" && f[0] == '+' && WildcardFree(t) && WellFormedRest(f, true)
    requires LevelEnd(t) < |t| && us == Split(t[LevelEnd(t) + 1..])
    requires |f| > 1 && f[1] == '/' ==>
               Decide(t[LevelEnd(t) + 1..], f[2..], true) ==
               (LevelsMatch(us, Split(f[2..])) && if us == [""] then f[2..] == "" else !MissedLevels(us, Split(f[2..])))
    ensures Decide(t, f, true) <==> LevelsMatch(Split(t), Split(f)) && !MissedLevels(Split(t), Split(f))
  {
    assert t[0] in t;
    var e := LevelEnd(t);
    SplitAtSeparator(t, e);
    var ts := [t[..e]] + us;
    assert Split(t) == ts && ts[1..] == us;
    FirstLevelWildcard(f);
    if f == "+" {
      SplitSingle(f);
      assert ["+"][1..] == [];
    } else {
      AfterPlus(f);
      var gs := Split(f[2..]);
      var fs := ["+"] + gs;
      assert Split(f) == fs && fs[1..] == gs;
      assert LevelsMatch(ts, fs) == LevelsMatch(us, gs);
      if us == [""] {
        assert MissedTrailing(ts, fs) <==> gs != [""];
        assert MissedParent(ts, fs) ==> gs != [""];
        assert gs == [""] <==> f[2..] == "" by { ShortTexts(f[2..]); }
      } else {
        MissedBehindLevel(t[..e], us, "+", gs);
      }
    }
  }

  /** After a '+' level the topic text left is empty: its last level is empty. */
  lemma {:induction false} ExactAtEmptyTail(g: string)
    ensures Decide("", g, true) == (LevelsMatch([""], Split(g)) && g == "")
  {
  }

  /** The first characters differ and the filter's is no wildcard at a level start. */
  lemma {:induction false} ExactAtMismatch(t: string, f: string, start: bool)
    requires t != "" && WildcardFree(t) && WellFormedRest(f, start)
    requires f == "" || (t[0] != f[0] && !(IsWildcard(f[0]) && start))
    ensures !Decide(t, f, start) && !LevelsMatch(Split(t), Split(f))
  {
    assert t[0] in t;
    SplitHead(t);
    var ts, fs := Split(t), Split(f);
    assert fs[0] != "+" && fs[0] != "#" by {
      if f != "" && f[0] != '/' {
        assert f[0] in fs[0];
      }
    }
    if f != "" {
      SplitHead(f);
      assert ts[0] != fs[0];
    } else if t[0] == '/' {
      assert |ts| > 1 && fs[1..] == [];
    }
  }

  lemma {:induction false} ExactFrom(t: string, f: string, start: bool)
    requires t != "" && WildcardFree(t) && WellFormedRest(f, start)
    ensures Decide(t, f, start) <==> LevelsMatch(Split(t), Split(f)) && !MissedLevels(Split(t), Split(f))
    decreases |t|, 1
  {
    assert t[0] in t;
    if f != "" && t[0] == f[0] {
      ExactAtEqual(t, f, start);
    } else if f != "" && f[0] == '+' && start {
      var e := LevelEnd(t);
      if e == |t| {
        ExactAtPlusLast(t, f);
      } else {
        ShortTexts(t[e + 1..]);
        if |f| > 1 && f[1] == '/' {
          AfterPlus(f);
          if t[e + 1..] == "" {
            ExactAtEmptyTail(f[2..]);
          } else {
            ExactFrom(t[e + 1..], f[2..], true);
          }
        }
        ExactAtPlusInner(t, f, Split(t[e + 1..]));
      }
    } else if f != "" && f[0] == '#' && start {
      FirstLevelWildcard(f);
      ShortTexts(f);
    } else {
      ExactAtMismatch(t, f, start);
    }
  }

  lemma {:induction false} ExactAtEqual(t: string, f: string, start: bool)
    requires t != "" && f != "" && t[0] == f[0] && WildcardFree(t) && WellFormedRest(f, start)
    ensures Decide(t, f, start) <==> LevelsMatch(Split(t), Split(f)) && !MissedLevels(Split(t), Split(f))
    decreases |t|, 0
  {
    assert t[0] in t;
    if |t| == 1 {
      if t[0] == '/' {
        assert t == "/";
        ExactAtLastSeparator(f, start);
      } else {
        ExactAtLastChar(t, f, start);
      }
    } else {
      if t[0] == '/' {
        ExactStepSeparator(t, f);
      } else {
        ExactStepChar(t, f, start);
      }
      WellFormedTail(f, start);
      assert WildcardFree(t[1..]);
      ExactFrom(t[1..], f[1..], f[0] == '/');
    }
  }

  /** For every well-formed filter and wildcard-free topic: the code answers yes exactly for the matches of
      section 4.7 outside the missed family. It never matches where section 4.7 does not. */
  lemma {:induction false} MatcherExact(topic: string, filter: string)
    requires topic != "" && WildcardFree(topic) && WellFormed(filter)
    ensures CodeMatches(topic, filter) <==> Matches(topic, filter) && !Missed(topic, filter)
  {
    ExactFrom(topic, filter, true);
  }

  /** Concrete members of the missed family. */
  lemma {:induction false} MissedMatches()
    ensures Matches("sport", "+/#") && !CodeMatches("sport", "+/#")
    ensures Matches("a/", "+/+") && !CodeMatches("a/", "+/+")
    ensures Matches("a/", "a/+/#") && !CodeMatches("a/", "a/+/#")
  {
    assert Split("+/#") == ["+", "#"] by { ShortTexts("+/#"); }
    assert Split("a/") == ["a", ""] by { SplitPair("a/", 1, "a", ""); }
    assert "sport"[0] != '$' && "a/"[0] != '$';
    SplitSingle("sport");
    MissedInstance("sport", "+/#", ["sport"], ["+", "#"], ["#"]);
    MissedPlusPlus();
    MissedPlusHash();
  }

  lemma {:induction false} MissedPlusPlus()
    requires Split("a/") == ["a", ""]
    ensures Matches("a/", "+/+") && !CodeMatches("a/", "+/+")
  {
  }

  lemma {:induction false} MissedPlusHash()
    requires Split("a/") == ["a", ""] && Split("+/#") == ["+", "#"]
    ensures Matches("a/", "a/+/#") && !CodeMatches("a/", "a/+/#")
  {
  }

  lemma {:induction false} SplitPair(s: string, e: nat, first: string, second: string)
    requires e < |s| && s[e] == '/' && s[..e] == first && s[e + 1..] == second
    requires '/' !in first && '/' !in second
    ensures Split(s) == [first, second]
  {
    SplitAtSeparator(s, e);
    SplitSingle(s[e + 1..]);
  }

  lemma {:induction false} MissedInstance(topic: string, filter: string, ts: seq<string>, fs: seq<string>, rest: seq<string>)
    requires topic != "" && topic[0] != '$' && WildcardFree(topic) && filter != ""
    requires Split(topic) == ts && Split(filter) == fs
    requires WellFormedLevels(fs) && fs == [fs[0]] + rest && (fs[0] == "+" || fs[0] == ts[0])
    requires LevelsMatch(ts[1..], rest) && MissedLevels(ts, fs)
    ensures Matches(topic, filter) && !CodeMatches(topic, filter)
  {
    assert fs[1..] == rest;
    MatcherExact(topic, filter);
  }

  /** The inner loop: from `i` to the next separator, if there is one. */
  method SkipLevel(topic: string, i: nat) returns (k: nat, separatorFound: bool)
    requires i <= |topic|
    ensures i <= k <= |topic| && k - i == LevelEnd(topic[i..])
    ensures separatorFound == (k < |topic|)
  {
    k, separatorFound := i, false;
    while k < |topic|
      invariant i <= k <= |topic|
      invariant !separatorFound
      invariant LevelEnd(topic[i..]) == k - i + LevelEnd(topic[k..])
    {
      if topic[k] == '/' {
        separatorFound := true;
        break;
      }
      assert topic[k..][1..] == topic[k + 1..];
      k := k + 1;
    }
  }

  /** `Decide` for the texts from `i` and `j` on. */
  ghost predicate DecideAt(topic: string, i: nat, filter: string, j: nat)
    requires i <= |topic| && j <= |filter|
  {
    Decide(topic[i..], filter[j..], j == 0 || filter[j - 1] == '/')
  }

  lemma {:induction false} StepEqual(topic: string, i: nat, filter: string, j: nat)
    requires i < |topic| && j < |filter| && topic[i] == filter[j]
    ensures DecideAt(topic, i, filter, j) <==>
              || (i == |topic| - 1 && j == |filter| - 3 && filter[j + 1] == '/' && filter[j + 2] == '#')
              || (i == |topic| - 1 && j == |filter| - 2 && filter[j] == '/' && IsWildcard(filter[j + 1]))
              || DecideAt(topic, i + 1, filter, j + 1)
  {
  }

  lemma {:induction false} StepPlus(topic: string, i: nat, filter: string, j: nat, k: nat)
    requires i < |topic| && j < |filter| && topic[i] != filter[j]
    requires filter[j] == '+' && (j == 0 || filter[j - 1] == '/')
    requires i <= k <= |topic| && k - i == LevelEnd(topic[i..])
    ensures DecideAt(topic, i, filter, j) <==>
              if k == |topic| then DecideAt(topic, k, filter, j + 1)
              else j + 1 < |filter| && filter[j + 1] == '/' && DecideAt(topic, k + 1, filter, j + 2)
  {
  }

  lemma {:induction false} StepOther(topic: string, i: nat, filter: string, j: nat)
    requires i < |topic| && j < |filter| && topic[i] != filter[j]
    requires !(filter[j] == '+' && (j == 0 || filter[j - 1] == '/'))
    ensures DecideAt(topic, i, filter, j) <==>
              filter[j] == '#' && j == |filter| - 1 && (j == 0 || filter[j - 1] == '/')
  {
  }

  /** The loop of RyanMqttMatchTopic: two indices, a skip to the end of a level, and look-ahead cases. */
  method MatchTopic(topic: string, filter: string) returns (matchFound: bool)
    requires topic != "" && filter != ""
    ensures matchFound == CodeMatches(topic, filter)
    ensures WildcardFree(topic) && WellFormed(filter) ==>
              (matchFound <==> Matches(topic, filter) && !Missed(topic, filter))
  {
    if WildcardFree(topic) && WellFormed(filter) {
      MatcherExact(topic, filter);
    }
    var startsWithWildcard := filter[0] == '+' || filter[0] == '#';
    if topic[0] == '$' && startsWithWildcard {
      return false;
    }
    matchFound := false;
    var shouldStop := false;
    var i, j := 0, 0;
    assert topic[0..] == topic && filter[0..] == filter;
    while i < |topic| && j < |filter|
      invariant 0 <= i <= |topic| && 0 <= j <= |filter|
      invariant !matchFound && !shouldStop
      invariant DecideAt(topic, i, filter, j) == CodeMatches(topic, filter)
      decreases |topic| - i
    {
      if topic[i] == filter[j] {
        StepEqual(topic, i, filter, j);
        if i == |topic| - 1 {
          if |filter| >= 3 && j == |filter| - 3 && filter[j + 1] == '/' && filter[j + 2] == '#' {
            matchFound := true;
          }
          if j == |filter| - 2 && filter[j] == '/' {
            matchFound := filter[j + 1] == '+' || filter[j + 1] == '#';
          }
        }
      } else {
        var validForWildcard := j == 0 || filter[j - 1] == '/';
        if filter[j] == '+' && validForWildcard {
          var k, levelInTopic := SkipLevel(topic, i);
          StepPlus(topic, i, filter, j, k);
          i := k;
          var levelInFilter := j < |filter| - 1 && filter[j + 1] == '/';
          if levelInTopic && !levelInFilter {
            matchFound := false;
            shouldStop := true;
          } else if levelInTopic {
            j := j + 1;
          } else {
            i := i - 1;
          }
        } else {
          StepOther(topic, i, filter, j);
          if filter[j] == '#' && j == |filter| - 1 && validForWildcard {
            matchFound := true;
            shouldStop := true;
          } else {
            matchFound := false;
            shouldStop := true;
          }
        }
      }
      if matchFound || shouldStop {
        break;
      }
      i := i + 1;
      j := j + 1;
    }
    if !matchFound {
      matchFound := i == |topic| && j == |filter|;
    }
  }
}
