/** Decoded JSON documents and the pure meaning of a dotted-path update. */
module JsonPath {
  import opened Wrappers
  import opened Text

  /** A decoded value. `Atom` is everything that is not an object: numbers, strings,
      booleans, null and arrays, kept by their text. */
  datatype Json = Atom(text: string) | Object(fields: map<string, Json>)

  type Fields = map<string, Json>

  /** The keys a split path visits: empty segments count only in last place. */
  function Steps(parts: seq<string>): (steps: seq<string>)
    requires |parts| >= 1
    ensures |steps| >= 1
  {
    if |parts| == 1 then parts
    else (if parts[0] == "" then [] else [parts[0]]) + Steps(parts[1..])
  }

  function PathSteps(path: string): seq<string> {
    Steps(Split(path, '.'))
  }

  /** The object under a key; a missing or non-object node counts as an empty one. */
  function Child(fields: Fields, key: string): Fields {
    if key in fields && fields[key].Object? then fields[key].fields else map[]
  }

  function SetPath(fields: Fields, steps: seq<string>, v: Json): Fields
    requires |steps| >= 1
    decreases |steps|
  {
    if |steps| == 1 then fields[steps[0] := v]
    else fields[steps[0] := Object(SetPath(Child(fields, steps[0]), steps[1..], v))]
  }

  function Read(j: Json, steps: seq<string>): Option<Json> {
    if steps == [] then Some(j)
    else if j.Object? && steps[0] in j.fields then Read(j.fields[steps[0]], steps[1..])
    else None
  }

  ghost predicate Diverge(p: seq<string>, q: seq<string>) {
    !(p <= q) && !(q <= p)
  }

  lemma PrefixTail(p: seq<string>, q: seq<string>)
    requires p != [] && q != [] && p[0] == q[0]
    ensures p <= q <==> p[1..] <= q[1..]
  {
    assert p == [p[0]] + p[1..] && q == [q[0]] + q[1..];
    if p[1..] <= q[1..] {
      assert q[1..] == p[1..] + q[1..][|p| - 1..];
      assert q == p + q[|p|..];
    }
  }

  /** What every read sees after a write: at or below the written path, the new
      value; above it, an object; anywhere else, what was there before. */
  lemma {:induction false} ReadAfterSet(fields: Fields, p: seq<string>, v: Json, q: seq<string>)
    requires |p| >= 1
    decreases |p|
    ensures var after := Object(SetPath(fields, p, v));
            && (p <= q ==> Read(after, q) == Read(v, q[|p|..]))
            && (q < p ==> Read(after, q).Some? && Read(after, q).value.Object?)
            && (Diverge(p, q) ==> Read(after, q) == Read(Object(fields), q))
  {
    if q != [] && p[0] == q[0] {
      PrefixTail(p, q);
      PrefixTail(q, p);
      if |p| > 1 {
        var child := Child(fields, p[0]);
        ReadAfterSet(child, p[1..], v, q[1..]);
        assert p <= q ==> q[1..][|p| - 1..] == q[|p|..];
        if Diverge(p, q) {
          assert q[1..] != [];
          assert Read(Object(child), q[1..]) == Read(Object(fields), q);
        }
      } else {
        assert p <= q && q[1..] == q[|p|..];
      }
    }
  }

  /** A write to a path or to one of its prefixes erases the earlier write. */
  lemma {:induction false} LaterWriteWins(fields: Fields, p: seq<string>, q: seq<string>, v: Json, w: Json)
    requires 1 <= |p| && p <= q
    decreases |p|
    ensures SetPath(SetPath(fields, q, v), p, w) == SetPath(fields, p, w)
  {
    if |p| > 1 {
      PrefixTail(p, q);
      LaterWriteWins(Child(fields, p[0]), p[1..], q[1..], v, w);
    }
  }

  /** The value a write leaves under the first key of its path. */
  ghost function NewHead(child: Fields, p: seq<string>, v: Json): Json
    requires |p| >= 1
  {
    if |p| == 1 then v else Object(SetPath(child, p[1..], v))
  }

  lemma SetHead(fields: Fields, p: seq<string>, v: Json)
    requires |p| >= 1
    ensures SetPath(fields, p, v) == fields[p[0] := NewHead(Child(fields, p[0]), p, v)]
  {
  }

  lemma DifferentHeadsCommute(fields: Fields, p: seq<string>, q: seq<string>, v: Json, w: Json)
    requires |p| >= 1 && |q| >= 1 && p[0] != q[0]
    ensures SetPath(SetPath(fields, p, v), q, w) == SetPath(SetPath(fields, q, w), p, v)
  {
    hide SetPath, NewHead;
    SetHead(fields, p, v);
    SetHead(fields, q, w);
    var a, b := SetPath(fields, p, v), SetPath(fields, q, w);
    assert Child(a, q[0]) == Child(fields, q[0]) && Child(b, p[0]) == Child(fields, p[0]);
    SetHead(a, q, w);
    SetHead(b, p, v);
  }

  lemma {:induction false} DivergingCommute(fields: Fields, p: seq<string>, q: seq<string>, v: Json, w: Json)
    requires Diverge(p, q)
    decreases |p|
    ensures SetPath(SetPath(fields, p, v), q, w) == SetPath(SetPath(fields, q, w), p, v)
  {
    hide SetPath;
    if p[0] == q[0] {
      var k, child := p[0], Child(fields, p[0]);
      PrefixTail(p, q);
      PrefixTail(q, p);
      DivergingCommute(child, p[1..], q[1..], v, w);
      var a, b := SetPath(fields, p, v), SetPath(fields, q, w);
      SetHead(fields, p, v);
      SetHead(fields, q, w);
      assert Child(a, k) == SetPath(child, p[1..], v) && Child(b, k) == SetPath(child, q[1..], w);
      SetHead(a, q, w);
      SetHead(b, p, v);
    } else {
      DifferentHeadsCommute(fields, p, q, v, w);
    }
  }

  ghost predicate AlwaysCommute(p: seq<string>, q: seq<string>)
    requires |p| >= 1 && |q| >= 1
  {
    forall fields: Fields, v: Json, w: Json ::
      SetPath(SetPath(fields, p, v), q, w) == SetPath(SetPath(fields, q, w), p, v)
  }

  /** Two writes can be exchanged on every document exactly when the paths diverge. */
  lemma CommuteIffDiverge(p: seq<string>, q: seq<string>)
    requires |p| >= 1 && |q| >= 1
    ensures AlwaysCommute(p, q) <==> Diverge(p, q)
  {
    if Diverge(p, q) {
      forall fields: Fields, v: Json, w: Json
        ensures SetPath(SetPath(fields, p, v), q, w) == SetPath(SetPath(fields, q, w), p, v)
      {
        DivergingCommute(fields, p, q, v, w);
      }
    } else {
      var v, w := Atom("1"), Atom("2");
      var pq := SetPath(SetPath(map[], p, v), q, w);
      var qp := SetPath(SetPath(map[], q, w), p, v);
      ReadAfterSet(SetPath(map[], p, v), q, w, p);
      ReadAfterSet(SetPath(map[], q, w), p, v, p);
      ReadAfterSet(SetPath(map[], p, v), q, w, q);
      ReadAfterSet(SetPath(map[], q, w), p, v, q);
      assert Read(v, []) == Some(v) && Read(w, []) == Some(w);
      assert Read(Object(pq), q) == Some(w) && Read(Object(qp), p) == Some(v);
      assert pq != qp;
    }
  }

  lemma {:induction false} SplitAtSep(a: string, b: string, sep: char)
    ensures Split(a + [sep] + b, sep) == Split(a, sep) + Split(b, sep)
  {
    hide Split;
    var s := a + [sep] + b;
    SplitFirst(s, sep);
    if a == "" {
      assert s[1..] == b;
      SplitNothing(sep);
    } else {
      SplitFirst(a, sep);
      SplitAtSep(a[1..], b, sep);
      assert s[1..] == a[1..] + [sep] + b;
      HeadOfConcat(Split(a[1..], sep), Split(b, sep), [a[0]]);
    }
  }

  lemma SplitNothing(sep: char)
    ensures Split("", sep) == [""]
  {
  }

  lemma HeadOfConcat(x: seq<string>, y: seq<string>, c: string)
    requires |x| >= 1
    ensures [""] + (x + y) == ([""] + x) + y
    ensures [c + (x + y)[0]] + (x + y)[1..] == ([c + x[0]] + x[1..]) + y
  {
  }

  lemma {:induction false} EmptyPieceDropped(xs: seq<string>, ys: seq<string>)
    requires |ys| >= 1
    ensures Steps(xs + [""] + ys) == Steps(xs + ys)
  {
    if xs == [] {
      assert xs + [""] + ys == [""] + ys && xs + ys == ys;
    } else {
      assert (xs + [""] + ys)[1..] == xs[1..] + [""] + ys;
      assert (xs + ys)[1..] == xs[1..] + ys;
      EmptyPieceDropped(xs[1..], ys);
    }
  }

  /** A doubled dot anywhere in a path changes nothing: "a..b" acts as "a.b". */
  lemma DoubledDot(a: string, b: string)
    ensures PathSteps(a + ".." + b) == PathSteps(a + "." + b)
  {
    assert a + ".." + b == a + ['.'] + ("" + ['.'] + b);
    SplitAtSep(a, "" + ['.'] + b, '.');
    SplitAtSep("", b, '.');
    SplitAtSep(a, b, '.');
    assert a + "." + b == a + ['.'] + b;
    assert Split("", '.') == [""];
    var x, y := Split(a, '.'), Split(b, '.');
    assert x + ([""] + y) == x + [""] + y;
    EmptyPieceDropped(x, y);
  }

  // ---- The keys a path string stands for ----

  /** The parts that are not empty. */
  function NonEmpty(parts: seq<string>): (kept: seq<string>)
    ensures forall i :: 0 <= i < |kept| ==> kept[i] != ""
    ensures forall k :: k in kept <==> k in parts && k != ""
  {
    if parts == [] then [] else (if parts[0] == "" then [] else [parts[0]]) + NonEmpty(parts[1..])
  }

  lemma {:induction false} NonEmptyAll(parts: seq<string>)
    ensures "" !in parts <==> NonEmpty(parts) == parts
  {
    if parts != [] {
      NonEmptyAll(parts[1..]);
      assert parts == [parts[0]] + parts[1..];
      assert "" !in parts <==> parts[0] != "" && "" !in parts[1..];
      NonEmptyLength(parts[1..]);
    }
  }

  lemma {:induction false} NonEmptyLength(parts: seq<string>)
    ensures |NonEmpty(parts)| <= |parts|
  {
    if parts != [] { NonEmptyLength(parts[1..]); }
  }

  lemma {:induction false} StepsAre(parts: seq<string>)
    requires |parts| >= 1
    ensures Steps(parts) == NonEmpty(parts[..|parts| - 1]) + [parts[|parts| - 1]]
  {
    var n := |parts| - 1;
    if n == 0 {
      assert parts[..0] == [] && parts == [parts[0]];
    } else {
      StepsAre(parts[1..]);
      assert parts[..n][1..] == parts[1..][..n - 1] && parts[..n][0] == parts[0];
      assert parts[1..][n - 1] == parts[n];
    }
  }

  /** A path of parts without dots visits these parts, the empty ones left out except in
      last place; without empty parts, exactly the parts. */
  lemma PathVisits(parts: seq<string>)
    requires |parts| >= 1 && NoSep(parts, '.')
    ensures PathSteps(Join(parts, '.')) == NonEmpty(parts[..|parts| - 1]) + [parts[|parts| - 1]]
    ensures "" !in parts[..|parts| - 1] ==> PathSteps(Join(parts, '.')) == parts
  {
    hide Steps, Split, Join, NonEmpty, NoSep;
    SplitJoin(parts, '.');
    StepsAre(parts);
    NonEmptyAll(parts[..|parts| - 1]);
    FrontAndLast(parts);
  }

  lemma FrontAndLast(parts: seq<string>)
    requires |parts| >= 1
    ensures parts == parts[..|parts| - 1] + [parts[|parts| - 1]]
  {
  }

  /** What an update with such a path does: a read along its parts gives the value, and
      diverging reads give what they gave before. */
  lemma PathUpdate(fields: Fields, parts: seq<string>, v: Json, other: seq<string>)
    requires |parts| >= 1 && NoSep(parts, '.') && "" !in parts[..|parts| - 1]
    ensures var after := Object(SetPath(fields, PathSteps(Join(parts, '.')), v));
            && Read(after, parts) == Some(v)
            && (Diverge(parts, other) ==> Read(after, other) == Read(Object(fields), other))
  {
    hide PathSteps, SetPath;
    PathVisits(parts);
    ReadAfterSet(fields, parts, v, parts);
    ReadAfterSet(fields, parts, v, other);
    assert parts[|parts|..] == [];
  }

  /** The string is these parts with dots between, none of them empty but perhaps the last. */
  ghost predicate IsPath(path: string, parts: seq<string>) {
    |parts| >= 1 && NoSep(parts, '.') && "" !in parts[..|parts| - 1] && path == Join(parts, '.')
  }

  lemma PathRead(before: Fields, path: string, v: Json, after: Fields)
    requires after == SetPath(before, PathSteps(path), v)
    ensures forall parts: seq<string> | IsPath(path, parts) ::
              && Read(Object(after), parts) == Some(v)
              && forall other :: Diverge(parts, other) ==> Read(Object(after), other) == Read(Object(before), other)
  {
    hide SetPath, PathSteps, Join, Read;
    forall parts: seq<string> | IsPath(path, parts)
      ensures Read(Object(after), parts) == Some(v)
      ensures forall other :: Diverge(parts, other) ==> Read(Object(after), other) == Read(Object(before), other)
    {
      forall other ensures Diverge(parts, other) ==> Read(Object(after), other) == Read(Object(before), other) {
        PathUpdate(before, parts, v, other);
      }
      PathUpdate(before, parts, v, []);
    }
  }
}
