/** Topic names and topic filters as sections 4.7.1 and 4.7.2 of MQTT 3.1.1 define them: level by level. */
module TopicFilter {

  /** The levels of a topic name or filter: the text between its '/' separators. */
  function Split(s: string): (levels: seq<string>)
    ensures |levels| >= 1
  {
    if s == "" then [""]
    else if s[0] == '/' then [""] + Split(s[1..])
    else
      var rest := Split(s[1..]);
      [[s[0]] + rest[0]] + rest[1..]
  }

  predicate IsWildcard(c: char) {
    c == '+' || c == '#'
  }

  predicate WildcardFree(s: string) {
    forall c | c in s :: !IsWildcard(c)
  }

  /** Wildcards stand alone in their level, and '#' only in the last level (section 4.7.1). */
  predicate WellFormedLevels(levels: seq<string>) {
    forall i | 0 <= i < |levels| ::
      || WildcardFree(levels[i])
      || levels[i] == "+"
      || (levels[i] == "#" && i == |levels| - 1)
  }

  predicate WellFormed(filter: string) {
    filter != "" && WellFormedLevels(Split(filter))
  }

  /** Level-by-level matching; "#" also matches the parent level. */
  predicate LevelsMatch(topic: seq<string>, filter: seq<string>) {
    if filter == ["#"] then true
    else if filter == [] || topic == [] then filter == [] && topic == []
    else (filter[0] == "+" || filter[0] == topic[0]) && LevelsMatch(topic[1..], filter[1..])
  }

  /** A filter starting with a wildcard does not match a topic starting with '$' (section 4.7.2). */
  predicate DollarExcluded(topic: string, filter: string) {
    topic != "" && filter != "" && topic[0] == '$' && IsWildcard(filter[0])
  }

  predicate Matches(topic: string, filter: string) {
    !DollarExcluded(topic, filter) && LevelsMatch(Split(topic), Split(filter))
  }

  lemma {:induction false} SplitAtSeparator(s: string, e: nat)
    requires e < |s| && s[e] == '/' && '/' !in s[..e]
    ensures Split(s) == [s[..e]] + Split(s[e + 1..])
  {
    if e > 0 {
      SplitAtSeparator(s[1..], e - 1);
      assert s[1..][..e - 1] == s[1..e];
      assert [s[0]] + s[1..e] == s[..e];
      assert s[1..][e..] == s[e + 1..];
    }
  }

  lemma {:induction false} SplitSingle(s: string)
    requires '/' !in s
    ensures Split(s) == [s]
  {
    if s != "" {
      SplitSingle(s[1..]);
      assert [s[0]] + s[1..] == s;
    }
  }

  lemma {:induction false} SplitEmpty(s: string)
    requires Split(s) == [""]
    ensures s == ""
  {
    if s != "" {
      SplitHead(s);
    }
  }

  /** Splitting loses nothing: equal level lists come from equal texts. */
  lemma {:induction false} SplitInjective(a: string, b: string)
    requires Split(a) == Split(b)
    ensures a == b
  {
    if a == "" {
      SplitEmpty(b);
    } else if b == "" {
      SplitEmpty(a);
    } else {
      var x, y := Split(a[1..]), Split(b[1..]);
      SplitHead(a);
      SplitHead(b);
      assert a[0] == b[0];
      assert x == y by {
        if a[0] == '/' {
          assert Split(a)[1..] == x && Split(b)[1..] == y;
        } else {
          assert Split(a)[0][1..] == x[0] && Split(b)[0][1..] == y[0];
          assert Split(a)[1..] == x[1..] && Split(b)[1..] == y[1..];
          assert x == [x[0]] + x[1..] && y == [y[0]] + y[1..];
        }
      }
      SplitInjective(a[1..], b[1..]);
      assert a == [a[0]] + a[1..] && b == [b[0]] + b[1..];
    }
  }

  /** The first level shows whether a text starts with the separator, and otherwise its first character. */
  lemma {:induction false} SplitHead(s: string)
    requires s != ""
    ensures s[0] == '/' <==> Split(s)[0] == ""
    ensures s[0] != '/' ==> Split(s)[0][0] == s[0]
  {
  }
}
