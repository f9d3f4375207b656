/** The in-place walk of `setJsonValue` over nested maps on the heap. A `Shape` is the
    mathematical picture of a document: which map object sits where. */
module JsonWalk {
  import opened Text
  import opened Wrappers
  import opened JsonPath

  class JsonMap {
    var fields: map<string, JsonVal>

    constructor ()
      ensures fields == map[]
    {
      fields := map[];
    }
  }

  /** A value of type `interface{}`: an atom, or a reference to another map. */
  datatype JsonVal = Scalar(text: string) | Nested(node: JsonMap)

  datatype Shape = Shape(node: JsonMap, kids: map<string, Kid>)
  datatype Kid = Leaf(text: string) | Sub(shape: Shape)

  type Heap = map<JsonMap, map<string, JsonVal>>

  ghost function ValOf(k: Kid): JsonVal {
    match k
    case Leaf(text) => Scalar(text)
    case Sub(s) => Nested(s.node)
  }

  ghost function Doc(s: Shape): Fields {
    map key | key in s.kids :: KidDoc(s.kids[key])
  }

  ghost function KidDoc(k: Kid): Json {
    match k
    case Leaf(text) => Atom(text)
    case Sub(s) => Object(Doc(s))
  }

  ghost function Nodes(s: Shape): set<JsonMap> {
    {s.node} + set key, n | key in s.kids && n in KidNodes(s.kids[key]) :: n
  }

  ghost function KidNodes(k: Kid): set<JsonMap> {
    match k
    case Leaf(_) => {}
    case Sub(s) => Nodes(s)
  }

  /** No map object occurs twice: the document is a tree, as a JSON decoder builds it. */
  ghost predicate Tree(s: Shape) {
    && (forall key :: key in s.kids ==> s.node !in KidNodes(s.kids[key]))
    && (forall a, b :: a in s.kids && b in s.kids && a != b ==> KidNodes(s.kids[a]) !! KidNodes(s.kids[b]))
    && (forall key :: key in s.kids && s.kids[key].Sub? ==> Tree(s.kids[key].shape))
  }

  /** The heap holds exactly this document. */
  ghost predicate Fits(s: Shape, h: Heap) {
    && s.node in h
    && h[s.node] == (map key | key in s.kids :: ValOf(s.kids[key]))
    && forall key :: key in s.kids && s.kids[key].Sub? ==> Fits(s.kids[key].shape, h)
  }

  // ---- Walking down a shape and replacing what is found there ----

  ghost predicate Reaches(s: Shape, keys: seq<string>) {
    keys == [] || (keys[0] in s.kids && s.kids[keys[0]].Sub? && Reaches(s.kids[keys[0]].shape, keys[1..]))
  }

  ghost function At(s: Shape, keys: seq<string>): Shape
    requires Reaches(s, keys)
  {
    if keys == [] then s else At(s.kids[keys[0]].shape, keys[1..])
  }

  ghost function Put(s: Shape, keys: seq<string>, x: Shape): Shape
    requires Reaches(s, keys)
  {
    if keys == [] then x
    else Shape(s.node, s.kids[keys[0] := Sub(Put(s.kids[keys[0]].shape, keys[1..], x))])
  }

  lemma {:induction false} AtFacts(s: Shape, keys: seq<string>, h: Heap)
    requires Reaches(s, keys) && Tree(s) && Fits(s, h)
    ensures Nodes(At(s, keys)) <= Nodes(s) && Tree(At(s, keys)) && Fits(At(s, keys), h)
  {
    if keys != [] {
      var k := s.kids[keys[0]];
      AtFacts(k.shape, keys[1..], h);
      assert KidNodes(k) <= Nodes(s);
    }
  }

  lemma {:induction false} AtExtend(s: Shape, keys: seq<string>, key: string)
    requires Reaches(s, keys) && key in At(s, keys).kids && At(s, keys).kids[key].Sub?
    ensures Reaches(s, keys + [key]) && At(s, keys + [key]) == At(s, keys).kids[key].shape
  {
    if keys == [] {
      assert (keys + [key])[1..] == [];
    } else {
      assert (keys + [key])[1..] == keys[1..] + [key];
      AtExtend(s.kids[keys[0]].shape, keys[1..], key);
    }
  }

  lemma {:induction false} AtPut(s: Shape, keys: seq<string>, x: Shape)
    requires Reaches(s, keys)
    ensures Reaches(Put(s, keys, x), keys) && At(Put(s, keys, x), keys) == x
  {
    if keys != [] {
      AtPut(s.kids[keys[0]].shape, keys[1..], x);
    }
  }

  lemma {:induction false} PutNodes(s: Shape, keys: seq<string>, x: Shape)
    requires Reaches(s, keys)
    ensures Nodes(Put(s, keys, x)) <= Nodes(s) + Nodes(x)
  {
    if keys != [] {
      var k := s.kids[keys[0]];
      PutNodes(k.shape, keys[1..], x);
      var s' := Put(s, keys, x);
      forall n | n in Nodes(s') ensures n in Nodes(s) + Nodes(x) {
        if n != s.node {
          var key :| key in s'.kids && n in KidNodes(s'.kids[key]);
          if key == keys[0] { assert n in KidNodes(k) || n in Nodes(x); }
        }
      }
    }
  }

  lemma {:induction false} PutTree(s: Shape, keys: seq<string>, x: Shape)
    requires Reaches(s, keys) && Tree(s) && Tree(x)
    requires Nodes(x) * Nodes(s) <= Nodes(At(s, keys))
    ensures Tree(Put(s, keys, x))
  {
    if keys != [] {
      var k := s.kids[keys[0]];
      assert KidNodes(k) <= Nodes(s);
      PutTree(k.shape, keys[1..], x);
      PutNodes(k.shape, keys[1..], x);
      AtNodes(k.shape, keys[1..]);
      var s' := Put(s, keys, x);
      var k' := s'.kids[keys[0]];
      assert KidNodes(k') <= KidNodes(k) + Nodes(x);
      forall n | n in Nodes(x) && n in Nodes(s) ensures n in KidNodes(k) { }
      assert s.node !in KidNodes(k');
      forall key | key in s.kids && key != keys[0] ensures KidNodes(s.kids[key]) !! KidNodes(k') {
        assert KidNodes(s.kids[key]) <= Nodes(s);
      }
    }
  }

  lemma {:induction false} AtNodes(s: Shape, keys: seq<string>)
    requires Reaches(s, keys)
    ensures Nodes(At(s, keys)) <= Nodes(s)
    ensures At(s, keys).node in Nodes(s)
  {
    if keys != [] {
      AtNodes(s.kids[keys[0]].shape, keys[1..]);
      assert KidNodes(s.kids[keys[0]]) <= Nodes(s);
    }
  }

  ghost predicate Same(nodes: set<JsonMap>, h: Heap, h': Heap) {
    forall n :: n in nodes && n in h ==> n in h' && h'[n] == h[n]
  }

  lemma {:induction false} FitsFrame(s: Shape, h: Heap, h': Heap)
    requires Fits(s, h) && Same(Nodes(s), h, h')
    ensures Fits(s, h')
  {
    forall key | key in s.kids && s.kids[key].Sub? ensures Fits(s.kids[key].shape, h') {
      assert KidNodes(s.kids[key]) <= Nodes(s);
      FitsFrame(s.kids[key].shape, h, h');
    }
  }

  /** A change below one key leaves the map object itself and the other kids alone. */
  lemma SiblingsFit(s: Shape, key: string, node: JsonMap, h: Heap, h': Heap)
    requires Tree(s) && Fits(s, h) && key in s.kids && node in KidNodes(s.kids[key])
    requires Same(Nodes(s) - {node}, h, h')
    ensures s.node in h' && h'[s.node] == h[s.node]
    ensures forall other :: other in s.kids && other != key && s.kids[other].Sub? ==> Fits(s.kids[other].shape, h')
  {
    forall other | other in s.kids && other != key && s.kids[other].Sub? ensures Fits(s.kids[other].shape, h') {
      assert KidNodes(s.kids[other]) <= Nodes(s);
      FitsFrame(s.kids[other].shape, h, h');
    }
  }

  lemma SameBelow(s: Shape, key: string, node: JsonMap, h: Heap, h': Heap)
    requires key in s.kids && Same(Nodes(s) - {node}, h, h')
    ensures Same(KidNodes(s.kids[key]) - {node}, h, h')
  {
    assert KidNodes(s.kids[key]) <= Nodes(s);
  }

  /** Rewriting one map object replaces exactly the sub-document rooted there. */
  lemma {:induction false} PutFits(s: Shape, keys: seq<string>, x: Shape, h: Heap, h': Heap)
    requires Reaches(s, keys) && Tree(s) && Fits(s, h) && Fits(x, h')
    requires x.node == At(s, keys).node
    requires Same(Nodes(s) - {x.node}, h, h')
    ensures Fits(Put(s, keys, x), h')
  {
    hide Nodes, Same;
    if keys != [] {
      var k := s.kids[keys[0]];
      AtNodes(k.shape, keys[1..]);
      SameBelow(s, keys[0], x.node, h, h');
      PutFits(k.shape, keys[1..], x, h, h');
      PutRoot(k.shape, keys[1..], x);
      SiblingsFit(s, keys[0], x.node, h, h');
      var s' := Put(s, keys, x);
      assert (map key | key in s'.kids :: ValOf(s'.kids[key])) == (map key | key in s.kids :: ValOf(s.kids[key]));
    }
  }

  lemma PutRoot(s: Shape, keys: seq<string>, x: Shape)
    requires Reaches(s, keys) && x.node == At(s, keys).node
    ensures Put(s, keys, x).node == s.node
  {
  }

  /** The document after a change below the key `keys[0]`. */
  lemma PutDoc(s: Shape, keys: seq<string>, x: Shape)
    requires Reaches(s, keys) && keys != []
    ensures var k := s.kids[keys[0]].shape;
            var below := Doc(Put(k, keys[1..], x));
            && Doc(Put(s, keys, x)) == Doc(s)[keys[0] := Object(below)]
            && Child(Doc(s), keys[0]) == Doc(k) && Child(Doc(Put(s, keys, x)), keys[0]) == below
  {
    var s' := Put(s, keys, x);
    assert Doc(s') == Doc(s)[keys[0] := KidDoc(s'.kids[keys[0]])];
  }

  /** A change further down that a later write cannot see, the whole write cannot see. */
  lemma {:induction false} PutUnseen(s: Shape, keys: seq<string>, x: Shape, rest: seq<string>, v: Json)
    requires Reaches(s, keys) && |rest| >= 1
    requires SetPath(Doc(x), rest, v) == SetPath(Doc(At(s, keys)), rest, v)
    ensures SetPath(Doc(Put(s, keys, x)), keys + rest, v) == SetPath(Doc(s), keys + rest, v)
  {
    hide Doc, SetPath;
    if keys == [] {
      assert keys + rest == rest;
    } else {
      var k := s.kids[keys[0]];
      assert (keys + rest)[1..] == keys[1..] + rest;
      PutUnseen(k.shape, keys[1..], x, rest, v);
      PutDoc(s, keys, x);
      SetHead(Doc(s), keys + rest, v);
      SetHead(Doc(Put(s, keys, x)), keys + rest, v);
    }
  }

  /** A write done at the end of the walk is the write of the whole path. */
  lemma {:induction false} PutWrites(s: Shape, keys: seq<string>, x: Shape, rest: seq<string>, v: Json)
    requires Reaches(s, keys) && |rest| >= 1
    requires Doc(x) == SetPath(Doc(At(s, keys)), rest, v)
    ensures Doc(Put(s, keys, x)) == SetPath(Doc(s), keys + rest, v)
  {
    hide Doc, SetPath;
    if keys == [] {
      assert keys + rest == rest;
    } else {
      var k := s.kids[keys[0]];
      assert (keys + rest)[1..] == keys[1..] + rest;
      PutWrites(k.shape, keys[1..], x, rest, v);
      PutDoc(s, keys, x);
      SetHead(Doc(s), keys + rest, v);
    }
  }

  // ---- The heap ----

  ghost function Snapshot(nodes: set<JsonMap>): Heap
    reads nodes
  {
    map n | n in nodes :: n.fields
  }

  /** The map objects on the heap hold this document now. */
  ghost predicate InHeap(s: Shape)
    reads Nodes(s)
  {
    Fits(s, Snapshot(Nodes(s)))
  }

  ghost predicate KidInHeap(k: Kid)
    reads KidNodes(k)
  {
    k.Sub? ==> Tree(k.shape) && InHeap(k.shape)
  }

  /** One assignment to a map object, seen from the root of the document; `h` is the
      heap before it. */
  lemma AfterWrite(s: Shape, keys: seq<string>, x: Shape, h: Heap)
    requires Reaches(s, keys) && Tree(s) && Fits(s, h)
    requires x.node == At(s, keys).node
    requires Nodes(x) * Nodes(s) <= Nodes(At(s, keys))
    requires Tree(x) && InHeap(x)
    requires Same(Nodes(s) - {x.node}, h, Snapshot(Nodes(s)))
    ensures Tree(Put(s, keys, x)) && InHeap(Put(s, keys, x))
    ensures Put(s, keys, x).node == s.node
  {
    var t := Put(s, keys, x);
    var h' := Snapshot(Nodes(s) + Nodes(x));
    FitsFrame(x, Snapshot(Nodes(x)), h');
    PutFits(s, keys, x, h, h');
    PutNodes(s, keys, x);
    PutRoot(s, keys, x);
    FitsFrame(t, h', Snapshot(Nodes(t)));
    PutTree(s, keys, x);
  }

  /** The sub-document at one map object with one key set. */
  ghost function WithKid(here: Shape, key: string, given: Kid): Shape {
    Shape(here.node, here.kids[key := given])
  }

  lemma WithKidTree(here: Shape, key: string, given: Kid)
    requires Tree(here) && KidNodes(given) !! Nodes(here) && (given.Sub? ==> Tree(given.shape))
    ensures Tree(WithKid(here, key, given))
    ensures Nodes(WithKid(here, key, given)) <= Nodes(here) + KidNodes(given)
    ensures Doc(WithKid(here, key, given)) == Doc(here)[key := KidDoc(given)]
  {
    var x := WithKid(here, key, given);
    forall k | k in here.kids ensures KidNodes(here.kids[k]) <= Nodes(here) { }
    forall n | n in Nodes(x) ensures n in Nodes(here) + KidNodes(given) {
      if n != here.node {
        var k :| k in x.kids && n in KidNodes(x.kids[k]);
        if k != key { assert n in KidNodes(here.kids[k]); }
      }
    }
  }

  lemma WithKidFits(here: Shape, key: string, given: Kid, h: Heap, h': Heap)
    requires Fits(here, h) && Tree(here) && (given.Sub? ==> Fits(given.shape, h'))
    requires here.node in h' && h'[here.node] == h[here.node][key := ValOf(given)]
    requires forall k :: k in here.kids && k != key ==> Same(KidNodes(here.kids[k]), h, h')
    ensures Fits(WithKid(here, key, given), h')
  {
    var x := WithKid(here, key, given);
    forall k | k in x.kids && x.kids[k].Sub? ensures Fits(x.kids[k].shape, h') {
      if k != key {
        FitsFrame(here.kids[k].shape, h, h');
      }
    }
  }

  /** The map object has been assigned the key since `h`, and nothing below it changed. */
  lemma SetInHeap(here: Shape, key: string, given: Kid, h: Heap)
    requires Tree(here) && Fits(here, h) && KidInHeap(given) && KidNodes(given) !! Nodes(here)
    requires here.node.fields == h[here.node][key := ValOf(given)]
    requires Same(Nodes(here) - {here.node}, h, Snapshot(Nodes(here)))
    ensures InHeap(WithKid(here, key, given))
  {
    hide Put, Doc;
    var x, h' := WithKid(here, key, given), Snapshot(Nodes(here) + KidNodes(given));
    if given.Sub? {
      FitsFrame(given.shape, Snapshot(KidNodes(given)), h');
    }
    forall k | k in here.kids && k != key ensures Same(KidNodes(here.kids[k]), h, h') {
      assert KidNodes(here.kids[k]) <= Nodes(here);
    }
    WithKidFits(here, key, given, h, h');
    WithKidTree(here, key, given);
    FitsFrame(x, h', Snapshot(Nodes(x)));
  }

  /** `current[key] = value` at the place `done` of the document `s`. */
  method Assign(current: JsonMap, key: string, value: JsonVal,
                ghost s: Shape, ghost done: seq<string>, ghost given: Kid)
    returns (ghost after: Shape)
    requires Reaches(s, done) && Tree(s) && InHeap(s) && At(s, done).node == current
    requires ValOf(given) == value && KidInHeap(given) && KidNodes(given) !! Nodes(s)
    modifies current
    ensures after == Put(s, done, WithKid(At(s, done), key, given))
    ensures after.node == s.node && Tree(after) && InHeap(after) && KidInHeap(given)
    ensures Nodes(after) <= Nodes(s) + KidNodes(given)
  {
    hide Reaches, At, Put, Fits, Tree, Doc;
    ghost var here := At(s, done);
    ghost var h := Snapshot(Nodes(s));
    AtFacts(s, done, h);
    AtNodes(s, done);
    ghost var hg := Snapshot(KidNodes(given));
    current.fields := current.fields[key := value];
    ghost var x := WithKid(here, key, given);
    WithKidTree(here, key, given);
    assert Snapshot(KidNodes(given)) == hg;
    SetInHeap(here, key, given, h);
    AfterWrite(s, done, x, h);
    PutNodes(s, done, x);
    after := Put(s, done, x);
  }

  /** A new, empty map under `part`, in place of nothing or of a value that is no map. */
  method MakeMap(current: JsonMap, part: string, ghost s: Shape, ghost done: seq<string>,
                 ghost rest: seq<string>, ghost v: Json)
    returns (next: JsonMap, ghost after: Shape)
    requires Reaches(s, done) && Tree(s) && InHeap(s) && At(s, done).node == current
    requires part in At(s, done).kids ==> At(s, done).kids[part].Leaf?
    requires |rest| >= 1
    modifies current
    ensures fresh(next)
    ensures Reaches(after, done + [part]) && At(after, done + [part]).node == next
    ensures after.node == s.node && Tree(after) && InHeap(after) && Nodes(after) <= Nodes(s) + {next}
    ensures SetPath(Doc(after), done + ([part] + rest), v) == SetPath(Doc(s), done + ([part] + rest), v)
  {
    hide Reaches, At, Put, Tree, Doc, SetPath;
    ghost var h := Snapshot(Nodes(s));
    next := new JsonMap();
    assert next !in h;
    ghost var leaf := Sub(Shape(next, map[]));
    NewLeaf(next);
    NewMapUnseen(s, done, part, next, rest, v);
    after := Assign(current, part, Nested(next), s, done, leaf);
  }

  lemma NewLeaf(node: JsonMap)
    requires node.fields == map[]
    ensures KidNodes(Sub(Shape(node, map[]))) == {node} && KidInHeap(Sub(Shape(node, map[])))
  {
  }

  /** The write that follows does not see the new map; the walk goes on in it. */
  lemma NewMapUnseen(s: Shape, done: seq<string>, part: string, next: JsonMap, rest: seq<string>, v: Json)
    requires Reaches(s, done) && Tree(s) && InHeap(s) && next !in Nodes(s) && |rest| >= 1
    requires part in At(s, done).kids ==> At(s, done).kids[part].Leaf?
    ensures var after := Put(s, done, WithKid(At(s, done), part, Sub(Shape(next, map[]))));
            && Reaches(after, done + [part]) && At(after, done + [part]).node == next
            && SetPath(Doc(after), done + ([part] + rest), v) == SetPath(Doc(s), done + ([part] + rest), v)
  {
    hide Reaches, At, Put, Tree, Fits, Doc, SetPath;
    var here, leaf := At(s, done), Sub(Shape(next, map[]));
    var x := WithKid(here, part, leaf);
    assert KidNodes(leaf) == {next};
    AtFacts(s, done, Snapshot(Nodes(s)));
    AtPut(s, done, x);
    AtExtend(Put(s, done, x), done, part);
    LeafTree(next);
    WithKidTree(here, part, leaf);
    FreshNodeUnseen(here, part, leaf, rest, v);
    PutUnseen(s, done, x, [part] + rest, v);
  }

  lemma LeafTree(node: JsonMap)
    ensures Tree(Shape(node, map[]))
  {
  }

  /** A map object holds what the shape says. */
  lemma FieldAt(s: Shape, done: seq<string>, part: string)
    requires Reaches(s, done) && Tree(s) && InHeap(s)
    ensures var here, fields := At(s, done), At(s, done).node.fields;
            && (part in fields <==> part in here.kids)
            && (part in fields ==> fields[part] == ValOf(here.kids[part]))
  {
    AtFacts(s, done, Snapshot(Nodes(s)));
    AtNodes(s, done);
  }

  /** One turn of the loop: go to the map under `part`, making or replacing it first
      when there is none there. */
  method Enter(current: JsonMap, part: string, ghost s: Shape, ghost done: seq<string>,
               ghost rest: seq<string>, ghost v: Json)
    returns (next: JsonMap, ghost after: Shape, ghost made: set<JsonMap>)
    requires Reaches(s, done) && Tree(s) && InHeap(s) && At(s, done).node == current
    requires |rest| >= 1
    modifies current
    ensures Reaches(after, done + [part]) && At(after, done + [part]).node == next
    ensures after.node == s.node && Tree(after) && InHeap(after)
    ensures fresh(made) && Nodes(after) <= Nodes(s) + made
    ensures SetPath(Doc(after), done + ([part] + rest), v) == SetPath(Doc(s), done + ([part] + rest), v)
  {
    hide Reaches, At, Tree, Fits, Doc, SetPath;
    FieldAt(s, done, part);
    if part in current.fields && current.fields[part].Nested? {
      after, made := s, {};
      next := current.fields[part].node;
      AtExtend(s, done, part);
    } else {
      next, after := MakeMap(current, part, s, done, rest, v);
      made := {next};
    }
  }

  lemma FreshNodeUnseen(here: Shape, part: string, leaf: Kid, rest: seq<string>, v: Json)
    requires |rest| >= 1 && leaf.Sub? && leaf.shape.kids == map[]
    requires part in here.kids ==> here.kids[part].Leaf?
    requires Doc(WithKid(here, part, leaf)) == Doc(here)[part := KidDoc(leaf)]
    ensures SetPath(Doc(WithKid(here, part, leaf)), [part] + rest, v) == SetPath(Doc(here), [part] + rest, v)
  {
    var a, b := Doc(WithKid(here, part, leaf)), Doc(here);
    assert KidDoc(leaf) == Object(map[]);
    assert Child(a, part) == map[];
    assert Child(b, part) == map[];
    assert ([part] + rest)[1..] == rest;
  }

  /** How one part of the path moves from the steps to do to the steps done. */
  lemma StepsFrom(parts: seq<string>, i: nat, done: seq<string>)
    requires i < |parts| - 1
    ensures parts[i] == "" ==> Steps(parts[i + 1..]) == Steps(parts[i..])
    ensures parts[i] != "" ==> Steps(parts[i..]) == [parts[i]] + Steps(parts[i + 1..])
    ensures parts[i] != "" ==> done + Steps(parts[i..]) == done + [parts[i]] + Steps(parts[i + 1..])
  {
    assert parts[i..][1..] == parts[i + 1..];
    assert [] + Steps(parts[i + 1..]) == Steps(parts[i + 1..]);
  }

  lemma StepsEnds(parts: seq<string>)
    requires |parts| >= 1
    ensures parts[0..] == parts
    ensures Steps(parts[|parts| - 1..]) == [parts[|parts| - 1]]
  {
  }

  /** The loop: walk from `root` along every part but the last. */
  method WalkDown(root: JsonMap, parts: seq<string>, ghost before: Shape, ghost v: Json)
    returns (current: JsonMap, ghost after: Shape, ghost done: seq<string>, ghost made: set<JsonMap>)
    requires |parts| >= 1 && before.node == root && Tree(before) && InHeap(before)
    modifies Nodes(before)
    ensures Reaches(after, done) && At(after, done).node == current
    ensures after.node == root && Tree(after) && InHeap(after)
    ensures fresh(made) && Nodes(after) <= Nodes(before) + made
    ensures done + [parts[|parts| - 1]] == Steps(parts)
    ensures SetPath(Doc(after), Steps(parts), v) == SetPath(Doc(before), Steps(parts), v)
  {
    hide Tree, Fits, Doc, SetPath, Nodes;
    current, after, done, made := root, before, [], {};
    ghost var mine, steps := Nodes(before), Steps(parts);
    ghost var goal := SetPath(Doc(before), steps, v);
    ghost var todo := steps;
    StepsEnds(parts);
    for i := 0 to |parts| - 1
      invariant Reaches(after, done) && At(after, done).node == current
      invariant after.node == root && Tree(after) && InHeap(after)
      invariant fresh(made) && Nodes(after) <= mine + made
      invariant todo == Steps(parts[i..]) && done + todo == steps
      invariant SetPath(Doc(after), steps, v) == goal
    {
      var part := parts[i];
      StepsFrom(parts, i, done);
      todo := Steps(parts[i + 1..]);
      if part == "" {
        continue;
      }
      AtNodes(after, done);
      ghost var more;
      current, after, more := Enter(current, part, after, done, todo, v);
      made := made + more;
      done := done + [part];
    }
  }

  /** `setJsonValue` on the map `root`, whose document before the call is `before`;
      `given` is the value to store. A nil root map makes the first assignment panic. */
  method SetJsonValue(root: JsonMap?, path: string, value: JsonVal, ghost before: Shape, ghost given: Kid)
    returns (panicked: bool, ghost after: Shape)
    requires root != null ==> before.node == root && Tree(before) && InHeap(before)
    requires ValOf(given) == value && KidInHeap(given) && KidNodes(given) !! Nodes(before)
    requires forall n :: n in KidNodes(given) ==> allocated(n)
    modifies if root == null then {} else Nodes(before)
    ensures panicked <==> root == null
    ensures !panicked ==> after.node == root && Tree(after) && InHeap(after)
    ensures !panicked ==> Doc(after) == SetPath(Doc(before), PathSteps(path), KidDoc(given))
    ensures !panicked ==>
              forall parts: seq<string> | IsPath(path, parts) ::
                && Read(Object(Doc(after)), parts) == Some(KidDoc(given))
                && forall other :: Diverge(parts, other) ==>
                     Read(Object(Doc(after)), other) == Read(Object(Doc(before)), other)
    ensures !panicked ==> fresh(Nodes(after) - Nodes(before) - KidNodes(given))
  {
    after := before;
    if root == null {
      return true, after;
    }
    panicked := false;
    var parts := Split(path, '.');
    ghost var v := KidDoc(given);
    var current: JsonMap;
    ghost var walked, done, made;
    current, walked, done, made := WalkDown(root, parts, before, v);
    AtNodes(walked, done);
    AtFacts(walked, done, Snapshot(Nodes(walked)));
    var last := parts[|parts| - 1];
    after := Assign(current, last, value, walked, done, given);
    WithKidTree(At(walked, done), last, given);
    PutWrites(walked, done, WithKid(At(walked, done), last, given), [last], v);
    PathRead(Doc(before), path, v, Doc(after));
    assert fresh(Nodes(after) - Nodes(before) - KidNodes(given)) by {
      assert Nodes(after) - Nodes(before) - KidNodes(given) <= made;
    }
  }
}
