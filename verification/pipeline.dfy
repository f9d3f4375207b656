/** Message filters and transformers: trees of leaves and composites, the loops that
    run them, and what flattening a tree does to its meaning. */
module Pipeline {
  import opened Wrappers
  import opened Text
  import opened JsonPath
  import TopicMatching

  /** `payload == None` is Go's nil slice. `meta` stands for the fields no leaf reads. */
  datatype Message = Message(topic: string, payload: Option<seq<byte>>, meta: int)

  // ---- Filters ----

  /** `Custom` is any other `MessageFilter`, the regular-expression ones included. */
  datatype Filter =
    | TopicFilter(pattern: string)
    | PayloadFilter(text: seq<byte>)
    | Custom(accepts: Option<Message> -> bool)
    | Composite(isAnd: bool, filters: seq<Filter>)

  predicate Contains(s: seq<byte>, text: seq<byte>) {
    exists i :: 0 <= i <= |s| && text <= s[i..]
  }

  /** What a filter answers; a nil message is `None`. */
  ghost predicate Accepts(f: Filter, m: Option<Message>) {
    match f
    case TopicFilter(pattern) => m.Some? && TopicMatching.Matches(pattern, m.value.topic)
    case PayloadFilter(text) => m.Some? && m.value.payload.Some? && Contains(m.value.payload.value, text)
    case Custom(accepts) => accepts(m)
    case Composite(isAnd, fs) =>
      if fs == [] then true
      else if isAnd then forall i :: 0 <= i < |fs| ==> Accepts(fs[i], m)
      else exists i :: 0 <= i < |fs| && Accepts(fs[i], m)
  }

  method Match(f: Filter, m: Option<Message>) returns (r: bool)
    ensures r <==> Accepts(f, m)
  {
    match f
    case TopicFilter(pattern) =>
      if m == None { return false; }
      r := TopicMatching.TopicMatch(pattern, m.value.topic);
    case PayloadFilter(text) =>
      if m == None || m.value.payload == None { return false; }
      r := Contains(m.value.payload.value, text);
    case Custom(accepts) =>
      r := accepts(m);
    case Composite(isAnd, fs) =>
      if |fs| == 0 { return true; }
      if isAnd {
        for i := 0 to |fs|
          invariant forall j :: 0 <= j < i ==> Accepts(fs[j], m)
        {
          var one := Match(fs[i], m);
          if !one { return false; }
        }
        return true;
      } else {
        for i := 0 to |fs|
          invariant forall j :: 0 <= j < i ==> !Accepts(fs[j], m)
        {
          var one := Match(fs[i], m);
          if one { return true; }
        }
        return false;
      }
  }

  /** The operands left when nested composites of the same kind are dissolved. */
  ghost function Operands(isAnd: bool, fs: seq<Filter>): seq<Filter> {
    if fs == [] then []
    else (if fs[0].Composite? && fs[0].isAnd == isAnd then Operands(isAnd, fs[0].filters) else [fs[0]])
         + Operands(isAnd, fs[1..])
  }

  /** Some composite dissolved by `Operands` had no operands. */
  ghost predicate DissolvesEmpty(isAnd: bool, fs: seq<Filter>) {
    fs != [] &&
    ((fs[0].Composite? && fs[0].isAnd == isAnd &&
      (fs[0].filters == [] || DissolvesEmpty(isAnd, fs[0].filters)))
     || DissolvesEmpty(isAnd, fs[1..]))
  }

  ghost predicate AllAccept(fs: seq<Filter>, m: Option<Message>) {
    forall i :: 0 <= i < |fs| ==> Accepts(fs[i], m)
  }

  ghost predicate AnyAccepts(fs: seq<Filter>, m: Option<Message>) {
    exists i :: 0 <= i < |fs| && Accepts(fs[i], m)
  }

  lemma AcceptAppend(a: seq<Filter>, b: seq<Filter>, m: Option<Message>)
    ensures AllAccept(a + b, m) <==> AllAccept(a, m) && AllAccept(b, m)
    ensures AnyAccepts(a + b, m) <==> AnyAccepts(a, m) || AnyAccepts(b, m)
  {
    var c := a + b;
    if AllAccept(c, m) {
      forall i | 0 <= i < |a| ensures Accepts(a[i], m) { assert c[i] == a[i]; }
      forall i | 0 <= i < |b| ensures Accepts(b[i], m) { assert c[|a| + i] == b[i]; }
    }
    if AnyAccepts(a, m) {
      var i :| 0 <= i < |a| && Accepts(a[i], m);
      assert c[i] == a[i];
    }
    if AnyAccepts(b, m) {
      var i :| 0 <= i < |b| && Accepts(b[i], m);
      assert c[|a| + i] == b[i];
    }
  }

  lemma {:induction false} OperandsAccept(isAnd: bool, fs: seq<Filter>, m: Option<Message>)
    ensures isAnd ==> (AllAccept(fs, m) <==> AllAccept(Operands(true, fs), m))
    ensures !isAnd ==> (AnyAccepts(fs, m) <==> AnyAccepts(Operands(false, fs), m) || DissolvesEmpty(false, fs))
  {
    if fs != [] {
      var head, tail := fs[0], fs[1..];
      assert fs == [head] + tail;
      OperandsAccept(isAnd, tail, m);
      AcceptAppend([head], tail, m);
      assert AllAccept([head], m) <==> Accepts(head, m) by { assert [head][0] == head; }
      assert AnyAccepts([head], m) <==> Accepts(head, m) by { assert [head][0] == head; }
      if head.Composite? && head.isAnd == isAnd {
        OperandsAccept(isAnd, head.filters, m);
        AcceptAppend(Operands(isAnd, head.filters), Operands(isAnd, tail), m);
        assert AllAccept([], m) && !AnyAccepts([], m);
      } else {
        AcceptAppend([head], Operands(isAnd, tail), m);
      }
    }
  }

  ghost function Flat(isAnd: bool, fs: seq<Filter>): Filter {
    Composite(isAnd, Operands(isAnd, fs))
  }

  /** Nested AND filters always equal their flattening. */
  lemma AndFlattens(fs: seq<Filter>, m: Option<Message>)
    ensures Accepts(Composite(true, fs), m) <==> Accepts(Flat(true, fs), m)
  {
    OperandsAccept(true, fs, m);
    assert Accepts(Composite(true, fs), m) <==> AllAccept(fs, m);
    assert Accepts(Flat(true, fs), m) <==> AllAccept(Operands(true, fs), m);
  }

  /** Nested OR filters equal their flattening on a message unless an empty inner OR,
      which accepts everything, is dissolved among operands that all reject it. */
  lemma OrFlattens(fs: seq<Filter>, m: Option<Message>)
    ensures (Accepts(Composite(false, fs), m) <==> Accepts(Flat(false, fs), m))
            <==> !(DissolvesEmpty(false, fs) && Operands(false, fs) != [] && !AnyAccepts(Operands(false, fs), m))
  {
    OperandsAccept(false, fs, m);
    var ops := Operands(false, fs);
    assert Accepts(Composite(false, fs), m) <==> fs == [] || AnyAccepts(fs, m);
    assert Accepts(Flat(false, fs), m) <==> ops == [] || AnyAccepts(ops, m);
    if ops == [] && fs != [] && !DissolvesEmpty(false, fs) {
      OperandsNonEmpty(fs);
    }
  }

  /** In particular always when no inner OR is empty. */
  lemma OrFlattensWithoutEmpties(fs: seq<Filter>)
    requires !DissolvesEmpty(false, fs)
    ensures forall m :: Accepts(Composite(false, fs), m) <==> Accepts(Flat(false, fs), m)
  {
    forall m ensures Accepts(Composite(false, fs), m) <==> Accepts(Flat(false, fs), m) {
      OrFlattens(fs, m);
    }
  }

  lemma {:induction false} OperandsNonEmpty(fs: seq<Filter>)
    requires fs != [] && !DissolvesEmpty(false, fs)
    ensures Operands(false, fs) != []
  {
    if fs[0].Composite? && !fs[0].isAnd {
      OperandsNonEmpty(fs[0].filters);
    }
  }

  // ---- Transformers ----

  /** An error value; `Wrapped` is what `wrapError` adds around a cause. */
  datatype Err = Cause(what: string) | Wrapped(context: string, inner: Err)

  function Root(e: Err): string {
    match e
    case Cause(what) => what
    case Wrapped(_, inner) => Root(inner)
  }

  /** What a payload function returns: bytes, nil, or an error. */
  datatype PayloadResult = NewPayload(bytes: seq<byte>) | NilPayload | PayloadError(what: string)

  /** JSON library code: `decode` gives the root map, `DecodedNull` for the document
      `null` (a nil map), or a parse error; `encode` may fail too. */
  datatype Decoded = DecodedMap(fields: Fields) | DecodedNull | DecodeError(what: string)
  datatype Encoded = EncodedBytes(bytes: seq<byte>) | EncodeError(what: string)
  datatype Codec = Codec(decode: seq<byte> -> Decoded, encode: Fields -> Encoded)

  /** `RegexRewrite` is the regular-expression branch with the library's replacement as
      a function; `PayloadMap(None)` has a nil function; `Other` is any other
      `MessageTransformer`. */
  datatype Transformer =
    | TopicRewrite(pattern: string, replacement: string)
    | RegexRewrite(rewrite: string -> string)
    | PayloadMap(f: Option<Option<seq<byte>> -> PayloadResult>)
    | JsonSet(path: string, value: Json, codec: Codec)
    | Other(g: Message -> Outcome)
    | Chain(parts: seq<Transformer>)

  /** A message, a nil message (dropped), an error, or a panic out of the call. */
  datatype Outcome = Produced(m: Message) | Dropped | Failed(err: Err) | Panicked

  function ApplyPayload(f: Option<seq<byte>> -> PayloadResult, m: Message): Outcome {
    match f(m.payload)
    case NewPayload(bytes) => Produced(m.(payload := Some(bytes)))
    case NilPayload => Dropped
    case PayloadError(what) => Failed(Wrapped("failed to transform payload", Cause(what)))
  }

  /** `JsonPathTransformer.Transform`: a `null` document makes `setJsonValue` assign
      into a nil map. */
  function ApplyJson(path: string, value: Json, codec: Codec, m: Message): Outcome {
    if m.payload == None || m.payload.value == [] then Produced(m)
    else
      match codec.decode(m.payload.value)
      case DecodeError(what) => Failed(Wrapped("failed to parse JSON payload", Cause(what)))
      case DecodedNull => Panicked
      case DecodedMap(fields) =>
        match codec.encode(SetPath(fields, PathSteps(path), value))
        case EncodeError(what) => Failed(Wrapped("failed to encode JSON payload", Cause(what)))
        case EncodedBytes(bytes) => Produced(m.(payload := Some(bytes)))
  }

  /** Decoding what was encoded gives the document back. */
  ghost predicate RoundTrips(codec: Codec) {
    forall f: Fields :: var e := codec.encode(f); e.EncodedBytes? ==> codec.decode(e.bytes) == DecodedMap(f)
  }

  /** The JSON transformer panics exactly on the document `null` and fails exactly when the
      codec does. Otherwise a changed payload reads as the new value at the path and as
      before on every diverging path; an empty payload and the other fields stay as they
      are. */
  lemma JsonSetEffect(path: string, value: Json, codec: Codec, m: Message, parts: seq<string>, other: seq<string>)
    requires RoundTrips(codec) && IsPath(path, parts) && Diverge(parts, other)
    ensures var o := Apply(JsonSet(path, value, codec), m);
            var empty := m.payload == None || m.payload.value == [];
            && (o.Panicked? <==> !empty && codec.decode(m.payload.value) == DecodedNull)
            && (o.Failed? <==>
                  && !empty
                  && var d := codec.decode(m.payload.value);
                  && (d.DecodeError?
                      || (d.DecodedMap? && codec.encode(SetPath(d.fields, parts, value)).EncodeError?)))
            && !o.Dropped? && (empty ==> o == Produced(m))
            && (o.Produced? ==> o.m.(payload := m.payload) == m)
            && (o.Produced? && !empty ==>
                  && o.m.payload.Some? && codec.decode(o.m.payload.value).DecodedMap?
                  && codec.decode(m.payload.value).DecodedMap?
                  && var after := Object(codec.decode(o.m.payload.value).fields);
                  && Read(after, parts) == Some(value)
                  && Read(after, other) == Read(Object(codec.decode(m.payload.value).fields), other))
  {
    PathVisits(parts);
    if m.payload.Some? && m.payload.value != [] && codec.decode(m.payload.value).DecodedMap? {
      PathUpdate(codec.decode(m.payload.value).fields, parts, value, other);
    }
  }

  function ApplyLeaf(t: Transformer, m: Message): Outcome
    requires !t.Chain?
  {
    match t
    case TopicRewrite(pattern, replacement) =>
      Produced(if m.topic == pattern then m.(topic := replacement) else m)
    case RegexRewrite(rewrite) => Produced(m.(topic := rewrite(m.topic)))
    case PayloadMap(None) => Produced(m)
    case PayloadMap(Some(f)) => ApplyPayload(f, m)
    case JsonSet(path, value, codec) => ApplyJson(path, value, codec, m)
    case Other(g) => g(m)
  }

  /** The meaning of one transformer and of a list of them, left to right. */
  function Apply(t: Transformer, m: Message): Outcome
    decreases t, 0
  {
    if t.Chain? then ApplyAll(t.parts, m) else ApplyLeaf(t, m)
  }

  function ApplyAll(ts: seq<Transformer>, m: Message): Outcome
    decreases ts, 1
  {
    if ts == [] then Produced(m)
    else Then(WrapChain(Apply(ts[0], m)), ts[1..])
  }

  function WrapChain(o: Outcome): Outcome {
    match o
    case Failed(e) => Failed(Wrapped("transformer error", e))
    case _ => o
  }

  function Then(o: Outcome, ts: seq<Transformer>): Outcome
    decreases ts, 2
  {
    if o.Produced? then ApplyAll(ts, o.m) else o
  }

  method Transform(t: Transformer, m: Option<Message>) returns (r: Outcome)
    ensures r == if m == None then Dropped else Apply(t, m.value)
    decreases t, 0
  {
    if m == None { return Dropped; }
    if t.Chain? {
      r := TransformChain(t.parts, m.value);
    } else {
      r := ApplyLeaf(t, m.value);
    }
  }

  lemma {:induction false} ApplyAllAppend(a: seq<Transformer>, b: seq<Transformer>, m: Message)
    ensures ApplyAll(a + b, m) == Then(ApplyAll(a, m), b)
  {
    if a == [] {
      assert a + b == b;
    } else {
      assert (a + b)[1..] == a[1..] + b;
      var o := WrapChain(Apply(a[0], m));
      if o.Produced? {
        ApplyAllAppend(a[1..], b, o.m);
      }
    }
  }

  lemma ApplyOne(t: Transformer, m: Message)
    ensures ApplyAll([t], m) == WrapChain(Apply(t, m))
    ensures Calls([t], m) == if t.Chain? then Calls(t.parts, m) else 1
  {
    assert [t][1..] == [];
    var o := WrapChain(Apply(t, m));
    if o.Produced? {
      assert ApplyAll([], o.m) == Produced(o.m) && Calls([], o.m) == 0;
    }
  }

  /** The loop of `CompositeTransformer.Transform`, and of `transformMessage`. */
  method TransformChain(ts: seq<Transformer>, m: Message) returns (r: Outcome)
    ensures r == ApplyAll(ts, m)
    decreases ts, 1
  {
    if |ts| == 0 { return Produced(m); }
    var current := m;
    for i := 0 to |ts|
      invariant ApplyAll(ts[..i], m) == Produced(current)
    {
      var o := Transform(ts[i], Some(current));
      assert ts[..i + 1] == ts[..i] + [ts[i]];
      ApplyAllAppend(ts[..i], [ts[i]], m);
      ApplyOne(ts[i], current);
      assert ts == ts[..i + 1] + ts[i + 1..];
      ApplyAllAppend(ts[..i + 1], ts[i + 1..], m);
      match o
      case Failed(e) => return Failed(Wrapped("transformer error", e));
      case Dropped => return Dropped;
      case Panicked => return Panicked;
      case Produced(next) => current := next;
    }
    assert ts[..|ts|] == ts;
    return Produced(current);
  }

  // ---- Flattening ----

  function Leaves(ts: seq<Transformer>): seq<Transformer> {
    if ts == [] then []
    else (if ts[0].Chain? then Leaves(ts[0].parts) else [ts[0]]) + Leaves(ts[1..])
  }

  /** Two outcomes alike except for the contexts wrapped around an error. */
  ghost predicate Alike(a: Outcome, b: Outcome) {
    match (a, b)
    case (Failed(e), Failed(f)) => Root(e) == Root(f)
    case _ => a == b
  }

  /** How many leaves of the tree are called: the last one called is the one that
      dropped the message or raised the error. */
  function Calls(ts: seq<Transformer>, m: Message): nat
    decreases ts, 1
  {
    if ts == [] then 0
    else
      (if ts[0].Chain? then Calls(ts[0].parts, m) else 1)
      + CallsAfter(Apply(ts[0], m), ts[1..])
  }

  function CallsAfter(o: Outcome, ts: seq<Transformer>): nat
    decreases ts, 2
  {
    if o.Produced? then Calls(ts, o.m) else 0
  }

  lemma AlikeAfter(o: Outcome, p: Outcome, a: seq<Transformer>, b: seq<Transformer>)
    requires Alike(o, p)
    requires o.Produced? ==> Alike(ApplyAll(a, o.m), ApplyAll(b, o.m))
    ensures Alike(Then(o, a), Then(p, b))
  {
  }

  lemma {:induction false} CallsAppend(a: seq<Transformer>, b: seq<Transformer>, m: Message)
    ensures Calls(a + b, m) == Calls(a, m) + CallsAfter(ApplyAll(a, m), b)
  {
    if a == [] {
      assert a + b == b;
    } else {
      assert (a + b)[1..] == a[1..] + b;
      var o := Apply(a[0], m);
      if o.Produced? {
        CallsAppend(a[1..], b, o.m);
      }
    }
  }

  /** A chain containing chains acts as its flattening: the same message, the same
      drop, the same panic, or an error with the same root cause out of the same leaf. */
  lemma {:induction false} ChainFlattens(ts: seq<Transformer>, m: Message)
    ensures Alike(ApplyAll(ts, m), ApplyAll(Leaves(ts), m))
    ensures Calls(ts, m) == Calls(Leaves(ts), m)
    decreases ts
  {
    if ts != [] {
      var head := if ts[0].Chain? then Leaves(ts[0].parts) else [ts[0]];
      var rest := Leaves(ts[1..]);
      if ts[0].Chain? {
        ChainFlattens(ts[0].parts, m);
      } else {
        ApplyOne(ts[0], m);
      }
      var o, p := WrapChain(Apply(ts[0], m)), ApplyAll(head, m);
      assert Alike(o, p);
      if o.Produced? {
        ChainFlattens(ts[1..], o.m);
      }
      AlikeAfter(o, p, ts[1..], rest);
      ApplyAllAppend(head, rest, m);
      CallsAppend(head, rest, m);
    }
  }

  // ---- When a chain panics ----

  /** A JSON leaf that meets the document `null`, or a foreign transformer that panics. */
  predicate LeafPanics(t: Transformer, m: Message)
    requires !t.Chain?
  {
    match t
    case JsonSet(_, _, codec) =>
      m.payload.Some? && m.payload.value != [] && codec.decode(m.payload.value) == DecodedNull
    case Other(g) => g(m).Panicked?
    case _ => false
  }

  lemma LeafPanicsExactly(t: Transformer, m: Message)
    requires !t.Chain?
    ensures Apply(t, m).Panicked? <==> LeafPanics(t, m)
  {
  }

  lemma {:induction false} LeavesAreLeaves(ts: seq<Transformer>)
    ensures forall k :: 0 <= k < |Leaves(ts)| ==> !Leaves(ts)[k].Chain?
  {
    if ts != [] {
      if ts[0].Chain? { LeavesAreLeaves(ts[0].parts); }
      LeavesAreLeaves(ts[1..]);
    }
  }

  /** The message reaches leaf `k`, and the leaf panics on what reaches it. */
  ghost predicate PanicsAt(leaves: seq<Transformer>, m: Message, k: nat)
    requires forall i :: 0 <= i < |leaves| ==> !leaves[i].Chain?
  {
    && k < |leaves|
    && ApplyAll(leaves[..k], m).Produced?
    && LeafPanics(leaves[k], ApplyAll(leaves[..k], m).m)
  }

  /** Some leaf of the chains, in the order they are called, panics on what reaches it. */
  ghost predicate Panics(ts: seq<Transformer>, m: Message) {
    LeavesAreLeaves(ts);
    exists k: nat :: PanicsAt(Leaves(ts), m, k)
  }

  /** A list panics at the first leaf or further down, on what the first leaf makes. */
  lemma PanicsAtNext(leaves: seq<Transformer>, m: Message, k: nat)
    requires leaves != [] && forall i :: 0 <= i < |leaves| ==> !leaves[i].Chain?
    ensures PanicsAt(leaves, m, 0) <==> LeafPanics(leaves[0], m)
    ensures k >= 1 ==>
              var o := Apply(leaves[0], m);
              PanicsAt(leaves, m, k) <==> o.Produced? && PanicsAt(leaves[1..], o.m, k - 1)
  {
    if 1 <= k < |leaves| {
      var o := Apply(leaves[0], m);
      assert leaves[..k][1..] == leaves[1..][..k - 1] && leaves[..k][0] == leaves[0];
      assert ApplyAll(leaves[..k], m) == Then(WrapChain(o), leaves[1..][..k - 1]);
      assert leaves[1..][k - 1] == leaves[k];
    }
  }

  lemma {:induction false} LeavesPanic(leaves: seq<Transformer>, m: Message)
    requires forall i :: 0 <= i < |leaves| ==> !leaves[i].Chain?
    ensures ApplyAll(leaves, m).Panicked? <==> exists k: nat :: PanicsAt(leaves, m, k)
  {
    hide PanicsAt;
    if leaves == [] {
      NoLeafNoPanic(m);
    } else {
      var o := Apply(leaves[0], m);
      PanicsAtNext(leaves, m, 0);
      LeafPanicsExactly(leaves[0], m);
      if o.Produced? {
        LeavesPanic(leaves[1..], o.m);
        if k: nat :| PanicsAt(leaves[1..], o.m, k) { PanicsAtNext(leaves, m, k + 1); }
      }
      if k: nat :| PanicsAt(leaves, m, k) { PanicsAtNext(leaves, m, k); }
    }
  }

  lemma NoLeafNoPanic(m: Message)
    ensures forall k: nat :: !PanicsAt([], m, k)
  {
  }

  /** When a chain, nested or not, panics: exactly when the message reaches a JSON leaf
      with a non-empty payload that decodes to `null`, or a foreign leaf that panics. */
  lemma PanicsExactly(ts: seq<Transformer>, m: Message)
    ensures ApplyAll(ts, m).Panicked? <==> Panics(ts, m)
  {
    ChainFlattens(ts, m);
    LeavesAreLeaves(ts);
    LeavesPanic(Leaves(ts), m);
  }

  /** One JSON leaf and the document `null`. */
  lemma NullPanics(path: string, value: Json, codec: Codec, m: Message)
    requires m.payload.Some? && m.payload.value != [] && codec.decode(m.payload.value) == DecodedNull
    ensures Panics([JsonSet(path, value, codec)], m)
  {
    ApplyOne(JsonSet(path, value, codec), m);
    PanicsExactly([JsonSet(path, value, codec)], m);
  }

  // ---- The leaves and the first step of a chain, spelled out ----

  /** A topic filter matches its pattern against the topic by the wildcard rule; a payload
      filter looks for its text anywhere in the payload; neither takes a nil message. */
  lemma FilterLeaves(pattern: string, text: seq<byte>, m: Option<Message>)
    ensures Accepts(TopicFilter(pattern), m) <==>
              m.Some? && TopicMatching.Spellable(Split(pattern, '/'), Split(m.value.topic, '/'))
    ensures Accepts(PayloadFilter(text), m) <==>
              m.Some? && m.value.payload.Some? && exists a, b :: m.value.payload.value == a + text + b
  {
    if m.Some? {
      TopicMatching.WildcardRule(pattern, m.value.topic);
      if m.value.payload.Some? { ContainsSpelled(m.value.payload.value, text); }
    }
  }

  lemma ContainsSpelled(s: seq<byte>, text: seq<byte>)
    ensures Contains(s, text) <==> exists a, b :: s == a + text + b
  {
    if Contains(s, text) {
      var i :| 0 <= i <= |s| && text <= s[i..];
      assert s == s[..i] + text + s[i + |text|..];
    }
    if a, b :| s == a + text + b {
      assert s[|a|..] == text + b;
    }
  }

  /** An AND accepts what all its operands accept, an OR what one of them does, and a
      composite without operands everything. */
  lemma CompositeMeaning(isAnd: bool, fs: seq<Filter>, m: Option<Message>)
    ensures fs == [] ==> Accepts(Composite(isAnd, fs), m)
    ensures fs != [] && isAnd ==>
              (Accepts(Composite(isAnd, fs), m) <==> forall i :: 0 <= i < |fs| ==> Accepts(fs[i], m))
    ensures fs != [] && !isAnd ==>
              (Accepts(Composite(isAnd, fs), m) <==> exists i :: 0 <= i < |fs| && Accepts(fs[i], m))
  {
  }

  /** The exact rewrite changes the topic of just the messages on its pattern, and nothing
      else of a message. */
  lemma RewriteLeaf(pattern: string, replacement: string, m: Message)
    ensures var o := Apply(TopicRewrite(pattern, replacement), m);
            && o.Produced? && o.m.payload == m.payload && o.m.meta == m.meta
            && (m.topic == pattern ==> o.m.topic == replacement)
            && (m.topic != pattern ==> o.m.topic == m.topic)
    ensures forall rewrite :: Apply(RegexRewrite(rewrite), m) == Produced(m.(topic := rewrite(m.topic)))
  {
  }

  /** A payload function replaces the payload, drops the message by nil, or fails it; the
      topic is untouched, and a nil function changes nothing. */
  lemma PayloadLeaf(f: Option<seq<byte>> -> PayloadResult, m: Message)
    ensures Apply(PayloadMap(None), m) == Produced(m)
    ensures var o := Apply(PayloadMap(Some(f)), m);
            && (o.Dropped? <==> f(m.payload).NilPayload?)
            && (o.Failed? <==> f(m.payload).PayloadError?)
            && (o.Failed? ==> Root(o.err) == f(m.payload).what)
            && (o.Produced? <==> f(m.payload).NewPayload?)
            && (o.Produced? ==> o.m.payload == Some(f(m.payload).bytes) && o.m.topic == m.topic && o.m.meta == m.meta)
  {
  }

  lemma ApplyAllFirst(ts: seq<Transformer>, m: Message)
    requires ts != []
    ensures ApplyAll(ts, m) == Then(WrapChain(Apply(ts[0], m)), ts[1..])
  {
  }

  lemma ApplyChain(ts: seq<Transformer>, m: Message)
    ensures Apply(Chain(ts), m) == ApplyAll(ts, m)
  {
  }

  /** A chain calls its first transformer, hands on what it produced, and ends with its drop,
      error or panic. */
  lemma ChainStep(ts: seq<Transformer>, m: Message)
    ensures ts == [] ==> Apply(Chain(ts), m) == Produced(m)
    ensures ts != [] ==>
              var first, all := Apply(ts[0], m), Apply(Chain(ts), m);
              && (first.Produced? ==> all == Apply(Chain(ts[1..]), first.m))
              && (first.Dropped? ==> all == Dropped)
              && (first.Failed? ==> all.Failed? && Root(all.err) == Root(first.err))
              && (first.Panicked? ==> all == Panicked)
  {
    ApplyChain(ts, m);
    if ts != [] {
      ApplyAllFirst(ts, m);
      var first := Apply(ts[0], m);
      if first.Produced? {
        ApplyChain(ts[1..], first.m);
      }
    }
  }
}
