/** Topic filters: the level-by-level loop of `TopicMatch` against a recursive
    definition, the wildcard rule, and the order on filters. */
module TopicMatching {
  import opened Text

  /** One level against one level. */
  predicate LevelOk(f: string, t: string) {
    f == "+" || f == t
  }

  /** The recursive definition: a last level "#" takes any rest. */
  predicate LevelMatch(f: seq<string>, t: seq<string>) {
    if f == ["#"] then true
    else if f == [] || t == [] then f == t
    else LevelOk(f[0], t[0]) && LevelMatch(f[1..], t[1..])
  }

  predicate Matches(filter: string, topic: string) {
    LevelMatch(Split(filter, '/'), Split(topic, '/'))
  }

  ghost predicate PrefixOk(f: seq<string>, t: seq<string>, n: nat)
    requires n <= |f| && n <= |t|
  {
    forall i :: 0 <= i < n ==> LevelOk(f[i], t[i])
  }

  ghost predicate EndsInHash(f: seq<string>) {
    f != [] && f[|f| - 1] == "#"
  }

  /** The recursive definition by index: what each exit of the loop decides. */
  lemma {:induction false} LevelMatchByIndex(f: seq<string>, t: seq<string>)
    ensures EndsInHash(f) ==> (LevelMatch(f, t) <==> |f| - 1 <= |t| && PrefixOk(f, t, |f| - 1))
    ensures !EndsInHash(f) ==> (LevelMatch(f, t) <==> |f| == |t| && PrefixOk(f, t, |f|))
  {
    if f != ["#"] && f != [] && t != [] {
      LevelMatchByIndex(f[1..], t[1..]);
      assert EndsInHash(f) <==> EndsInHash(f[1..]);
      var n := if EndsInHash(f) then |f| - 1 else |f|;
      if n <= |t| {
        assert PrefixOk(f, t, n) <==> LevelOk(f[0], t[0]) && PrefixOk(f[1..], t[1..], n - 1) by {
          if LevelOk(f[0], t[0]) && PrefixOk(f[1..], t[1..], n - 1) {
            forall i | 0 <= i < n ensures LevelOk(f[i], t[i]) {
              if i > 0 { assert f[i] == f[1..][i - 1] && t[i] == t[1..][i - 1]; }
            }
          }
          if PrefixOk(f, t, n) {
            forall i | 0 <= i < n - 1 ensures LevelOk(f[1..][i], t[1..][i]) {
              assert f[1..][i] == f[i + 1] && t[1..][i] == t[i + 1];
            }
          }
        }
      }
    }
  }

  lemma HashAlone()
    ensures Split("#", '/') == ["#"]
  {
    SplitFirst("#", '/');
    assert "#"[1..] == "" && ['#'] + "" == "#";
  }

  method TopicMatch(filter: string, topic: string) returns (r: bool)
    ensures r <==> Matches(filter, topic)
  {
    hide Split, LevelMatch;
    LevelMatchByIndex(Split(filter, '/'), Split(topic, '/'));
    if filter == topic {
      return true;
    }
    if filter == "#" {
      HashAlone();
      return true;
    }
    var topicLevels := Split(topic, '/');
    var filterLevels := Split(filter, '/');
    if |filterLevels| > 0 && filterLevels[|filterLevels| - 1] == "#" {
      if |filterLevels| - 1 > |topicLevels| {
        return false;
      }
      for i := 0 to |filterLevels| - 1
        invariant PrefixOk(filterLevels, topicLevels, i)
      {
        if filterLevels[i] != "+" && filterLevels[i] != topicLevels[i] {
          return false;
        }
      }
      return true;
    }
    if |filterLevels| != |topicLevels| {
      return false;
    }
    for i := 0 to |filterLevels|
      invariant PrefixOk(filterLevels, topicLevels, i)
    {
      if filterLevels[i] != "+" && filterLevels[i] != topicLevels[i] {
        return false;
      }
    }
    return true;
  }

  // ---- The wildcard rule of section 4.7.1 of MQTT Version 5.0 ----

  /** What one filter level may stand for: "+" exactly one level, a last "#" any
      number of levels (also none), anything else only itself. */
  ghost predicate StandsFor(level: string, last: bool, levels: seq<string>) {
    if last && level == "#" then true
    else if level == "+" then |levels| == 1
    else levels == [level]
  }

  ghost function Concat(xs: seq<seq<string>>): seq<string> {
    if xs == [] then [] else xs[0] + Concat(xs[1..])
  }

  /** `xs` spells topic `t` out of filter `f`, one piece for each filter level. */
  ghost predicate Spells(f: seq<string>, xs: seq<seq<string>>, t: seq<string>) {
    && |xs| == |f|
    && Concat(xs) == t
    && forall i :: 0 <= i < |f| ==> StandsFor(f[i], i == |f| - 1, xs[i])
  }

  ghost predicate Spellable(f: seq<string>, t: seq<string>) {
    exists xs :: Spells(f, xs, t)
  }

  lemma {:induction false} SpellsTail(f: seq<string>, xs: seq<seq<string>>, t: seq<string>)
    requires f != [] && Spells(f, xs, t)
    ensures Spells(f[1..], xs[1..], Concat(xs[1..]))
  {
    forall i | 0 <= i < |f| - 1
      ensures StandsFor(f[1..][i], i == |f| - 2, xs[1..][i])
    {
      assert f[1..][i] == f[i + 1] && xs[1..][i] == xs[i + 1];
    }
  }

  lemma {:induction false} SpelledIsMatch(f: seq<string>, xs: seq<seq<string>>, t: seq<string>)
    requires f != [] && Spells(f, xs, t)
    ensures LevelMatch(f, t)
  {
    if f != ["#"] {
      SpellsTail(f, xs, t);
      assert StandsFor(f[0], 0 == |f| - 1, xs[0]);
      assert |xs[0]| == 1 && LevelOk(f[0], xs[0][0]);
      assert t[0] == xs[0][0] && t[1..] == Concat(xs[1..]);
      if |f| > 1 {
        SpelledIsMatch(f[1..], xs[1..], Concat(xs[1..]));
      } else {
        assert t[1..] == [] && f[1..] == [];
      }
    }
  }

  lemma {:induction false} MatchIsSpelled(f: seq<string>, t: seq<string>) returns (xs: seq<seq<string>>)
    requires LevelMatch(f, t)
    ensures Spells(f, xs, t)
  {
    if f == ["#"] {
      xs := [t];
      assert xs[1..] == [];
      assert t + [] == t;
    } else if f == [] {
      xs := [];
    } else {
      var ys := MatchIsSpelled(f[1..], t[1..]);
      xs := [[t[0]]] + ys;
      assert xs[1..] == ys;
      assert t == [t[0]] + t[1..];
      forall i | 0 <= i < |f| ensures StandsFor(f[i], i == |f| - 1, xs[i]) {
        if i > 0 { assert f[i] == f[1..][i - 1] && xs[i] == ys[i - 1]; }
      }
    }
  }

  /** A filter matches a topic exactly when the topic can be spelled from it. */
  lemma WildcardRule(filter: string, topic: string)
    ensures Matches(filter, topic) <==> Spellable(Split(filter, '/'), Split(topic, '/'))
  {
    var f, t := Split(filter, '/'), Split(topic, '/');
    if Matches(filter, topic) {
      var xs := MatchIsSpelled(f, t);
      assert Spells(f, xs, t);
    } else if Spellable(f, t) {
      var xs :| Spells(f, xs, t);
      SpelledIsMatch(f, xs, t);
    }
  }

  // ---- Order on filters ----

  /** Every topic the first filter matches, the second matches too. */
  ghost predicate Covers(wide: seq<string>, narrow: seq<string>) {
    forall t: seq<string> :: LevelMatch(narrow, t) ==> LevelMatch(wide, t)
  }

  /** Replacing a level by "+" enlarges exactly when the level is not a trailing "#". */
  lemma PlusEnlarges(f: seq<string>, i: nat)
    requires i < |f|
    ensures Covers(f[i := "+"], f) <==> !(i == |f| - 1 && f[i] == "#")
  {
    var g := f[i := "+"];
    if i == |f| - 1 && f[i] == "#" {
      // Two levels for "#" are one too many for "+".
      var t := f[..i] + ["a", "b"];
      LevelMatchByIndex(f, t);
      LevelMatchByIndex(g, t);
      assert LevelMatch(f, t) && !LevelMatch(g, t);
    } else {
      forall t | LevelMatch(f, t) ensures LevelMatch(g, t) {
        LevelMatchByIndex(f, t);
        LevelMatchByIndex(g, t);
      }
    }
  }

  /** Replacing levels `i..` by "#" only enlarges, for `i` up to the length. The one
      exception is adding a "#" behind a trailing "#", which makes the old one a
      plain level; there it enlarges for no filter. */
  lemma HashEnlarges(f: seq<string>, i: nat)
    requires i <= |f|
    ensures Covers(f[..i] + ["#"], f) <==> !(i == |f| && EndsInHash(f))
  {
    var g := f[..i] + ["#"];
    if i == |f| && EndsInHash(f) {
      // The topic that spells "#" by no level at all is lost.
      var t := f[..|f| - 1];
      LevelMatchByIndex(f, t);
      LevelMatchByIndex(g, t);
      assert LevelMatch(f, t) && !LevelMatch(g, t);
    } else {
      forall t | LevelMatch(f, t) ensures LevelMatch(g, t) {
        LevelMatchByIndex(f, t);
        LevelMatchByIndex(g, t);
      }
    }
  }

  /** Every topic string that the first filter string matches, the second matches too. */
  ghost predicate StringCovers(wide: string, narrow: string) {
    forall topic :: Matches(narrow, topic) ==> Matches(wide, topic)
  }

  /** What one list of levels covers, its string covers; a non-empty list of levels that
      tells two filters apart does so as a topic. */
  lemma JoinedCovers(f: seq<string>, g: seq<string>)
    requires |f| >= 1 && |g| >= 1 && NoSep(f, '/') && NoSep(g, '/')
    ensures Covers(g, f) ==> StringCovers(Join(g, '/'), Join(f, '/'))
    ensures forall t :: |t| >= 1 && NoSep(t, '/') && LevelMatch(f, t) && !LevelMatch(g, t) ==>
              !StringCovers(Join(g, '/'), Join(f, '/'))
  {
    hide LevelMatch, Split, Join;
    SplitJoin(f, '/');
    SplitJoin(g, '/');
    forall t | |t| >= 1 && NoSep(t, '/') && LevelMatch(f, t) && !LevelMatch(g, t)
      ensures !StringCovers(Join(g, '/'), Join(f, '/'))
    {
      SplitJoin(t, '/');
      assert Matches(Join(f, '/'), Join(t, '/')) && !Matches(Join(g, '/'), Join(t, '/'));
    }
  }

  /** The two facts about the strings a caller writes, with the same exceptions. */
  lemma WideningStrings(levels: seq<string>, i: nat)
    requires |levels| >= 1 && i <= |levels| && NoSep(levels, '/')
    ensures i < |levels| ==>
              (StringCovers(Join(levels[i := "+"], '/'), Join(levels, '/'))
               <==> !(i == |levels| - 1 && levels[i] == "#"))
    ensures StringCovers(Join(levels[..i] + ["#"], '/'), Join(levels, '/')) <==> !(i == |levels| && EndsInHash(levels))
  {
    hide LevelMatch, StringCovers, Join;
    var hashed := levels[..i] + ["#"];
    JoinedCovers(levels, hashed);
    HashEnlarges(levels, i);
    if i == |levels| && EndsInHash(levels) {
      // "#" stands for one plain level here, and the longer filter wants "#" itself.
      var t := levels[..i - 1] + ["a"];
      LevelMatchByIndex(levels, t);
      LevelMatchByIndex(hashed, t);
      assert !LevelOk(hashed[i - 1], t[i - 1]);
    }
    if i < |levels| {
      var plus := levels[i := "+"];
      JoinedCovers(levels, plus);
      PlusEnlarges(levels, i);
      if i == |levels| - 1 && levels[i] == "#" {
        var t := levels[..i] + ["a", "b"];
        LevelMatchByIndex(levels, t);
        LevelMatchByIndex(plus, t);
      }
    }
  }
}
