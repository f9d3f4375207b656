/** A transformer that panics takes the message of its call out of the accounting. This
    is exactly when that happens, in terms of what goes into a route. */
module RoutePanics {
  import opened Wrappers
  import opened Tally
  import opened JsonPath
  import opened Pipeline
  import opened RouteSpec

  // ---- What a schedule puts in ----

  function MessageOf(e: Event): Option<Message> { if e.Deliver? then Some(e.m) else None }
  function FilterOf(e: Event): Option<Filter> { if e.AddFilter? then Some(e.f) else None }
  function TransformerOf(e: Event): Option<Transformer> { if e.AddTransformer? then Some(e.t) else None }

  function ToSeq<T>(o: Option<T>): seq<T> {
    match o
    case None => []
    case Some(x) => [x]
  }

  function Collect<T>(es: seq<Event>, pick: Event -> Option<T>): seq<T> {
    if es == [] then [] else ToSeq(pick(es[0])) + Collect(es[1..], pick)
  }

  function Delivered(es: seq<Event>): seq<Message> { Collect(es, MessageOf) }
  function AddedFilters(es: seq<Event>): seq<Filter> { Collect(es, FilterOf) }
  function AddedTransformers(es: seq<Event>): seq<Transformer> { Collect(es, TransformerOf) }

  lemma CollectCons<T>(e: Event, es: seq<Event>, pick: Event -> Option<T>)
    ensures Collect([e] + es, pick) == ToSeq(pick(e)) + Collect(es, pick)
  {
    assert ([e] + es)[1..] == es;
  }

  lemma {:induction false} CollectAppend<T>(a: seq<Event>, b: seq<Event>, pick: Event -> Option<T>)
    ensures Collect(a + b, pick) == Collect(a, pick) + Collect(b, pick)
  {
    hide Collect;
    if a == [] {
      CollectNothing(pick);
      assert a + b == b;
    } else {
      CollectCons(a[0], a[1..] + b, pick);
      CollectCons(a[0], a[1..], pick);
      CollectAppend(a[1..], b, pick);
      assert a + b == [a[0]] + (a[1..] + b) && a == [a[0]] + a[1..];
      Regroup(ToSeq(pick(a[0])), Collect(a[1..], pick), Collect(b, pick));
    }
  }

  lemma CollectNothing<T>(pick: Event -> Option<T>)
    ensures Collect([], pick) == []
  {
  }

  lemma Regroup<T>(x: seq<T>, y: seq<T>, z: seq<T>)
    ensures x + (y + z) == (x + y) + z
  {
  }

  /** A part of a schedule that delivers and adds nothing leaves no trace in its input. */
  lemma {:induction false} CollectNone<T>(es: seq<Event>, pick: Event -> Option<T>)
    requires forall k :: 0 <= k < |es| ==> pick(es[k]) == None
    ensures Collect(es, pick) == []
  {
    if es != [] { CollectNone(es[1..], pick); }
  }

  /** The lists a route starts with, and all that may ever be in them, in order. */
  datatype Lists = Lists(filters: seq<Filter>, transformers: seq<Transformer>,
                         allFilters: seq<Filter>, allTransformers: seq<Transformer>)

  ghost predicate ValidLists(l: Lists) {
    l.filters <= l.allFilters && l.transformers <= l.allTransformers
  }

  /** From a route with the lists `fs` and `ts`: additions in the order of `l`, and
      messages of a kind. */
  ghost predicate Feeds(l: Lists, fs: seq<Filter>, ts: seq<Transformer>, kind: Message -> bool, es: seq<Event>) {
    && fs + AddedFilters(es) <= l.allFilters
    && ts + AddedTransformers(es) <= l.allTransformers
    && forall m :: m in Delivered(es) ==> kind(m)
  }

  /** No message of the kind gets past the filters at one time and meets transformers
      that panic on it at another. */
  ghost predicate Harmless(l: Lists, kind: Message -> bool) {
    forall m: Message, i, j ::
      (&& kind(m)
       && |l.filters| <= i <= |l.allFilters| && |l.transformers| <= j <= |l.allTransformers|
       && AllAccept(l.allFilters[..i], Some(m)))
      ==> !Panics(l.allTransformers[..j], m)
  }

  function Originals(ks: seq<Call>): seq<Message> {
    seq(|ks|, i requires 0 <= i < |ks| => ks[i].original)
  }

  lemma OriginalsStep(cfg: Config, s: State, e: Event)
    ensures Originals(Step(cfg, s, e).calls) == Originals(s.calls) + ToSeq(MessageOf(e))
  {
    hide AfterFilters, AfterTransformers;
  }

  /** The calls of a run are about the messages it was given, in order. */
  lemma {:induction false} OriginalsAreDelivered(cfg: Config, s: State, es: seq<Event>)
    ensures Originals(Run(cfg, s, es).calls) == Originals(s.calls) + Delivered(es)
    decreases |es|
  {
    hide Step, Originals;
    if es == [] {
      Regroup(Originals(s.calls), [], []);
      assert Originals(s.calls) + [] == Originals(s.calls);
    } else {
      OriginalsStep(cfg, s, es[0]);
      OriginalsAreDelivered(cfg, Step(cfg, s, es[0]), es[1..]);
      Regroup(Originals(s.calls), ToSeq(MessageOf(es[0])), Delivered(es[1..]));
    }
  }

  // ---- Harmless input, no panic ----

  /** A call that is past the filters ends in a panic exactly when the list of that
      moment panics on its message. */
  lemma CallPanicsExactly(cfg: Config, s: State, c: nat)
    requires c < |s.calls| && s.calls[c].phase.Passed?
    ensures Step(cfg, s, RunTransformers(c)).calls[c].phase.Panicking? <==> Panics(s.transformers, s.calls[c].original)
  {
    hide Panics;
    PanicsExactly(s.transformers, s.calls[c].original);
  }

  ghost predicate CallQuiet(l: Lists, kind: Message -> bool, k: Call) {
    && kind(k.original) && !k.phase.Panicking?
    && (k.phase.Passed? ==>
          && |l.filters| <= k.phase.filters <= |l.allFilters|
          && AllAccept(l.allFilters[..k.phase.filters], Some(k.original)))
  }

  ghost predicate Quiet(l: Lists, kind: Message -> bool, s: State) {
    && l.filters <= s.filters <= l.allFilters
    && l.transformers <= s.transformers <= l.allTransformers
    && forall c :: 0 <= c < |s.calls| ==> CallQuiet(l, kind, s.calls[c])
  }

  /** One event that feeds a quiet route leaves it quiet. */
  lemma QuietStep(cfg: Config, l: Lists, kind: Message -> bool, s: State, e: Event)
    requires Harmless(l, kind) && Quiet(l, kind, s)
    requires e.AddFilter? ==> s.filters + [e.f] <= l.allFilters
    requires e.AddTransformer? ==> s.transformers + [e.t] <= l.allTransformers
    requires e.Deliver? ==> kind(e.m)
    ensures Quiet(l, kind, Step(cfg, s, e))
  {
    hide ApplyAll, AllAccept, Panics;
    if e.RunFilters? {
      assert s.filters == l.allFilters[..|s.filters|];
    } else if e.RunTransformers? && e.c < |s.calls| && s.calls[e.c].phase.Passed? {
      var k := s.calls[e.c];
      assert CallQuiet(l, kind, k);
      assert s.transformers == l.allTransformers[..|s.transformers|];
      assert !Panics(l.allTransformers[..|s.transformers|], k.original);
      CallPanicsExactly(cfg, s, e.c);
    }
  }

  lemma FeedsRest(l: Lists, fs: seq<Filter>, ts: seq<Transformer>, kind: Message -> bool, es: seq<Event>)
    requires Feeds(l, fs, ts, kind, es) && es != []
    ensures var gs, us := fs + ToSeq(FilterOf(es[0])), ts + ToSeq(TransformerOf(es[0]));
            && gs <= l.allFilters && us <= l.allTransformers
            && (es[0].Deliver? ==> kind(es[0].m))
            && Feeds(l, gs, us, kind, es[1..])
  {
    var e, rest := es[0], es[1..];
    Regroup(fs, ToSeq(FilterOf(e)), AddedFilters(rest));
    Regroup(ts, ToSeq(TransformerOf(e)), AddedTransformers(rest));
    assert e.Deliver? ==> e.m in Delivered(es);
    forall m | m in Delivered(rest) ensures kind(m) {
      assert m in Delivered(es);
    }
  }

  lemma {:induction false} QuietRun(cfg: Config, l: Lists, kind: Message -> bool, s: State, es: seq<Event>)
    requires Harmless(l, kind) && Quiet(l, kind, s) && Feeds(l, s.filters, s.transformers, kind, es)
    ensures Quiet(l, kind, Run(cfg, s, es))
    decreases |es|
  {
    hide Harmless, Quiet, Feeds;
    if es != [] {
      FeedsRest(l, s.filters, s.transformers, kind, es);
      QuietStep(cfg, l, kind, s, es[0]);
      ListsAfter(cfg, s, es[0]);
      QuietRun(cfg, l, kind, Step(cfg, s, es[0]), es[1..]);
    }
  }

  lemma Added(cfg: Config, s: State, e: Event)
    ensures e.AddFilter? ==> Step(cfg, s, e) == s.(filters := s.filters + [e.f])
    ensures e.AddTransformer? ==> Step(cfg, s, e) == s.(transformers := s.transformers + [e.t])
  {
  }

  lemma ListsAfter(cfg: Config, s: State, e: Event)
    ensures Step(cfg, s, e).filters == s.filters + ToSeq(FilterOf(e))
    ensures Step(cfg, s, e).transformers == s.transformers + ToSeq(TransformerOf(e))
  {
    assert s.filters + [] == s.filters && s.transformers + [] == s.transformers;
  }

  lemma {:induction false} NonePanicking(ks: seq<Call>)
    requires forall c :: 0 <= c < |ks| ==> !ks[c].phase.Panicking?
    ensures Sum(ks, IsPanicking) == 0
  {
    if ks != [] { NonePanicking(ks[1..]); }
  }

  lemma QuietIsBalanced(cfg: Config, l: Lists, kind: Message -> bool, es: seq<Event>)
    requires ValidLists(l) && Harmless(l, kind) && Feeds(l, l.filters, l.transformers, kind, es)
    ensures Balanced(Run(cfg, Init(l.filters, l.transformers), es))
  {
    hide Harmless, Feeds, Run;
    QuietRun(cfg, l, kind, Init(l.filters, l.transformers), es);
    Accounting(cfg, l.filters, l.transformers, es);
    NonePanicking(Run(cfg, Init(l.filters, l.transformers), es).calls);
  }

  // ---- One harmful message, and a run that loses it ----

  function AddFilters(fs: seq<Filter>): seq<Event> {
    if fs == [] then [] else [AddFilter(fs[0])] + AddFilters(fs[1..])
  }

  function AddTransformers(ts: seq<Transformer>): seq<Event> {
    if ts == [] then [] else [AddTransformer(ts[0])] + AddTransformers(ts[1..])
  }

  /** One message, as far as the transformers, on a route that has seen none. */
  function Lose(m: Message): seq<Event> {
    [Deliver(m), CountMsg(0), CountBytes(0), RunFilters(0), RunTransformers(0)]
  }

  lemma RunNothing(cfg: Config, s: State)
    ensures Run(cfg, s, []) == s
  {
  }

  lemma RunFirst(cfg: Config, s: State, e: Event, es: seq<Event>)
    ensures Run(cfg, s, [e] + es) == Run(cfg, Step(cfg, s, e), es)
  {
    assert ([e] + es)[1..] == es;
  }

  lemma {:induction false} RunAddFilters(cfg: Config, s: State, fs: seq<Filter>)
    ensures Run(cfg, s, AddFilters(fs)) == s.(filters := s.filters + fs)
    decreases |fs|
  {
    hide Step, Run;
    if fs == [] {
      RunNothing(cfg, s);
      assert s.filters + fs == s.filters;
    } else {
      var head, tail := fs[0], fs[1..];
      RunFirst(cfg, s, AddFilter(head), AddFilters(tail));
      Added(cfg, s, AddFilter(head));
      RunAddFilters(cfg, s.(filters := s.filters + [head]), tail);
      assert fs == [head] + tail;
      Regroup(s.filters, [head], tail);
    }
  }

  lemma {:induction false} AddFiltersInputs(fs: seq<Filter>)
    ensures AddedFilters(AddFilters(fs)) == fs && Delivered(AddFilters(fs)) == []
    ensures AddedTransformers(AddFilters(fs)) == []
  {
    hide Collect;
    if fs == [] {
      CollectNothing(FilterOf);
      CollectNothing(MessageOf);
      CollectNothing(TransformerOf);
    } else {
      var e, es := AddFilter(fs[0]), AddFilters(fs[1..]);
      CollectCons(e, es, FilterOf);
      CollectCons(e, es, MessageOf);
      CollectCons(e, es, TransformerOf);
      AddFiltersInputs(fs[1..]);
    }
  }

  lemma {:induction false} RunAddTransformers(cfg: Config, s: State, ts: seq<Transformer>)
    ensures Run(cfg, s, AddTransformers(ts)) == s.(transformers := s.transformers + ts)
    decreases |ts|
  {
    hide Step, Run;
    if ts == [] {
      RunNothing(cfg, s);
      assert s.transformers + ts == s.transformers;
    } else {
      var head, tail := ts[0], ts[1..];
      RunFirst(cfg, s, AddTransformer(head), AddTransformers(tail));
      Added(cfg, s, AddTransformer(head));
      RunAddTransformers(cfg, s.(transformers := s.transformers + [head]), tail);
      assert ts == [head] + tail;
      Regroup(s.transformers, [head], tail);
    }
  }

  lemma {:induction false} AddTransformersInputs(ts: seq<Transformer>)
    ensures AddedTransformers(AddTransformers(ts)) == ts && Delivered(AddTransformers(ts)) == []
    ensures AddedFilters(AddTransformers(ts)) == []
  {
    hide Collect;
    if ts == [] {
      CollectNothing(FilterOf);
      CollectNothing(MessageOf);
      CollectNothing(TransformerOf);
    } else {
      var e, es := AddTransformer(ts[0]), AddTransformers(ts[1..]);
      CollectCons(e, es, FilterOf);
      CollectCons(e, es, MessageOf);
      CollectCons(e, es, TransformerOf);
      AddTransformersInputs(ts[1..]);
    }
  }

  lemma LoseInputs(m: Message)
    ensures Delivered(Lose(m)) == [m] && AddedFilters(Lose(m)) == [] && AddedTransformers(Lose(m)) == []
  {
    hide Collect;
    var rest := [CountMsg(0), CountBytes(0), RunFilters(0), RunTransformers(0)];
    assert Lose(m) == [Deliver(m)] + rest;
    CollectCons(Deliver(m), rest, MessageOf);
    CollectNone(rest, MessageOf);
    CollectNone(Lose(m), FilterOf);
    CollectNone(Lose(m), TransformerOf);
  }

  lemma RunLose(cfg: Config, s: State, m: Message)
    ensures Run(cfg, s, Lose(m)) ==
              var counted := Step(cfg, Step(cfg, Step(cfg, s, Deliver(m)), CountMsg(0)), CountBytes(0));
              Step(cfg, Step(cfg, counted, RunFilters(0)), RunTransformers(0))
  {
    hide Step;
    var es := Lose(m);
    var s1 := Step(cfg, s, es[0]);
    var s2 := Step(cfg, s1, es[1]);
    var s3 := Step(cfg, s2, es[2]);
    var s4 := Step(cfg, s3, es[3]);
    assert Run(cfg, s, es) == Run(cfg, s1, es[1..]);
    assert es[1..][1..] == es[2..] && Run(cfg, s1, es[1..]) == Run(cfg, s2, es[2..]);
    assert es[2..][1..] == es[3..] && Run(cfg, s2, es[2..]) == Run(cfg, s3, es[3..]);
    assert es[3..][1..] == es[4..] && Run(cfg, s3, es[3..]) == Run(cfg, s4, es[4..]);
    assert es[4..][1..] == [] && Run(cfg, s4, es[4..]) == Step(cfg, s4, es[4]);
  }

  /** The message is counted as received and then as nothing. */
  lemma Lost(cfg: Config, fs: seq<Filter>, ts: seq<Transformer>, m: Message)
    requires AllAccept(fs, Some(m)) && Panics(ts, m)
    ensures var s := Run(cfg, Init(fs, ts), Lose(m));
            s.stats.received == 1 && s.calls == [Call(m, Panicking)] && s.channel == []
  {
    hide AllAccept, ApplyAll, Panics, Run;
    var s := Init(fs, ts);
    RunLose(cfg, s, m);
    PanicsExactly(ts, m);
    var s1 := Step(cfg, s, Deliver(m));
    var s2 := Step(cfg, s1, CountMsg(0));
    assert s1.calls == [Call(m, Entered)] && s2.calls == [Call(m, CountedMsg)];
    assert s2.stats.received == 1;
    var s3 := Step(cfg, s2, CountBytes(0));
    var s4 := Step(cfg, s3, RunFilters(0));
    assert s3.calls == [Call(m, CountedBytes)] && s4.calls == [Call(m, Passed(|fs|))];
  }

  lemma LostIsUnbalanced(s: State, m: Message)
    requires s.stats.received == 1 && s.calls == [Call(m, Panicking)] && s.channel == []
    ensures Sum(s.calls, IsFilteredOut) == 0 && Sum(s.calls, IsErased) == 0 && Sum(s.calls, IsErrored) == 0
    ensures Sum(s.calls, IsHanded) == 0 && Sum(s.calls, IsDropped) == 0 && Sum(s.calls, IsConsumed) == 0
    ensures Sum(s.calls, IsUnderWay) == 0 && !Balanced(s)
  {
    assert s.calls[1..] == [];
  }

  lemma HarmfulInputs(fs: seq<Filter>, ts: seq<Transformer>, m: Message)
    ensures var es := AddFilters(fs) + (AddTransformers(ts) + Lose(m));
            AddedFilters(es) == fs && AddedTransformers(es) == ts && Delivered(es) == [m]
  {
    hide Lose, AddFilters, AddTransformers, Collect;
    var a, b, c := AddFilters(fs), AddTransformers(ts), Lose(m);
    ThreeParts(a, b, c, FilterOf);
    ThreeParts(a, b, c, TransformerOf);
    ThreeParts(a, b, c, MessageOf);
    AddFiltersInputs(fs);
    AddTransformersInputs(ts);
    LoseInputs(m);
    assert fs + ([] + []) == fs && [] + (ts + []) == ts && [] + ([] + [m]) == [m];
  }

  lemma ThreeParts<T>(a: seq<Event>, b: seq<Event>, c: seq<Event>, pick: Event -> Option<T>)
    ensures Collect(a + (b + c), pick) == Collect(a, pick) + (Collect(b, pick) + Collect(c, pick))
  {
    CollectAppend(a, b + c, pick);
    CollectAppend(b, c, pick);
  }

  lemma HarmfulRunEnds(cfg: Config, s: State, fs: seq<Filter>, ts: seq<Transformer>, m: Message)
    requires s == Init(s.filters, s.transformers)
    ensures Run(cfg, s, AddFilters(fs) + (AddTransformers(ts) + Lose(m)))
         == Run(cfg, Init(s.filters + fs, s.transformers + ts), Lose(m))
  {
    hide Run, Lose;
    var a, b := AddFilters(fs), AddTransformers(ts);
    RunAppend(cfg, s, a, b + Lose(m));
    RunAddFilters(cfg, s, fs);
    RunAppend(cfg, Run(cfg, s, a), b, Lose(m));
    RunAddTransformers(cfg, Run(cfg, s, a), ts);
  }

  lemma HarmfulRun(cfg: Config, l: Lists, kind: Message -> bool, m: Message, i: nat, j: nat) returns (es: seq<Event>)
    requires ValidLists(l) && kind(m)
    requires |l.filters| <= i <= |l.allFilters| && |l.transformers| <= j <= |l.allTransformers|
    requires AllAccept(l.allFilters[..i], Some(m)) && Panics(l.allTransformers[..j], m)
    ensures Feeds(l, l.filters, l.transformers, kind, es)
    ensures !Balanced(Run(cfg, Init(l.filters, l.transformers), es))
  {
    hide AllAccept, Panics, Run, Lose, Balanced, AddFilters, AddTransformers;
    var fs, ts := l.allFilters[|l.filters|..i], l.allTransformers[|l.transformers|..j];
    assert l.filters + fs == l.allFilters[..i] && l.transformers + ts == l.allTransformers[..j];
    es := AddFilters(fs) + (AddTransformers(ts) + Lose(m));
    HarmfulRunEnds(cfg, Init(l.filters, l.transformers), fs, ts, m);
    HarmfulInputs(fs, ts, m);
    Lost(cfg, l.allFilters[..i], l.allTransformers[..j], m);
    LostIsUnbalanced(Run(cfg, Init(l.filters, l.transformers), es), m);
  }

  /** The law without a term for panics is true of every run with additions in the order
      of `l` and messages of a kind exactly when no message of the kind can be accepted
      by the filters as they are at some time and panic in the transformers as they are
      at some time. */
  lemma PanicsAreUncounted(cfg: Config, l: Lists, kind: Message -> bool)
    requires ValidLists(l)
    ensures (forall es :: Feeds(l, l.filters, l.transformers, kind, es) ==>
               Balanced(Run(cfg, Init(l.filters, l.transformers), es)))
            <==> Harmless(l, kind)
  {
    hide Feeds, Balanced, Run, AllAccept, Panics;
    if Harmless(l, kind) {
      forall es | Feeds(l, l.filters, l.transformers, kind, es)
        ensures Balanced(Run(cfg, Init(l.filters, l.transformers), es))
      {
        QuietIsBalanced(cfg, l, kind, es);
      }
    } else {
      var m: Message, i, j :|
        kind(m) && |l.filters| <= i <= |l.allFilters| && |l.transformers| <= j <= |l.allTransformers|
        && AllAccept(l.allFilters[..i], Some(m)) && Panics(l.allTransformers[..j], m);
      var es := HarmfulRun(cfg, l, kind, m, i, j);
    }
  }

  /** The smallest failing run: one JSON transformer, one payload that decodes to `null`. */
  lemma NullIsUncounted(cfg: Config, path: string, value: Json, codec: Codec, m: Message)
    requires m.payload.Some? && m.payload.value != [] && codec.decode(m.payload.value) == DecodedNull
    ensures var s := Run(cfg, Init([], [JsonSet(path, value, codec)]), Lose(m));
            && s.stats.received == 1 && s.channel == [] && !Balanced(s)
            && Sum(s.calls, IsFilteredOut) == 0 && Sum(s.calls, IsErased) == 0 && Sum(s.calls, IsErrored) == 0
            && Sum(s.calls, IsHanded) == 0 && Sum(s.calls, IsDropped) == 0 && Sum(s.calls, IsConsumed) == 0
            && Sum(s.calls, IsUnderWay) == 0
  {
    hide Run, Balanced;
    NullPanics(path, value, codec, m);
    Lost(cfg, [], [JsonSet(path, value, codec)], m);
    LostIsUnbalanced(Run(cfg, Init([], [JsonSet(path, value, codec)]), Lose(m)), m);
  }
}
