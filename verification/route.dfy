/** `AdvancedRoute`: its lists, counters and channel, and one `processMessage` call. */
module Route {
  import opened Wrappers
  import opened Pipeline
  import opened RouteSpec

  /** The steps of one call that no other step interrupts. */
  function Whole(c: nat, m: Message): seq<Event> {
    [Deliver(m), CountMsg(c), CountBytes(c), RunFilters(c)]
    + [RunTransformers(c), CountError(c), Dispatch(c), CountDrop(c)]
  }

  lemma RunFour(cfg: Config, s: State, a: Event, b: Event, c: Event, d: Event)
    ensures Run(cfg, s, [a, b, c, d]) == Step(cfg, Step(cfg, Step(cfg, Step(cfg, s, a), b), c), d)
  {
    hide Step;
    assert [a, b, c, d][1..] == [b, c, d] && [b, c, d][1..] == [c, d] && [c, d][1..] == [d] && [d][1..] == [];
    var s1 := Step(cfg, s, a);
    var s2 := Step(cfg, s1, b);
    assert Run(cfg, s2, [c, d]) == Run(cfg, Step(cfg, s2, c), [d]);
    assert Run(cfg, Step(cfg, s2, c), [d]) == Step(cfg, Step(cfg, s2, c), d);
  }

  lemma RunWhole(cfg: Config, s: State, c: nat, m: Message)
    ensures Run(cfg, s, Whole(c, m)) ==
              var s2 := Step(cfg, Step(cfg, s, Deliver(m)), CountMsg(c));
              var s4 := Step(cfg, Step(cfg, s2, CountBytes(c)), RunFilters(c));
              var s6 := Step(cfg, Step(cfg, s4, RunTransformers(c)), CountError(c));
              Step(cfg, Step(cfg, s6, Dispatch(c)), CountDrop(c))
  {
    hide Step;
    var first := [Deliver(m), CountMsg(c), CountBytes(c), RunFilters(c)];
    RunAppend(cfg, s, first, [RunTransformers(c), CountError(c), Dispatch(c), CountDrop(c)]);
    RunFour(cfg, s, Deliver(m), CountMsg(c), CountBytes(c), RunFilters(c));
    RunFour(cfg, Run(cfg, s, first), RunTransformers(c), CountError(c), Dispatch(c), CountDrop(c));
  }

  predicate Over(p: Phase) {
    p.FilteredOut? || p.Erased? || p.Errored? || p.Panicking? || p.DroppedFull? || p.Handed? || p.Waiting?
  }

  /** The state with a call of phase `p` behind the others and its message counted. */
  function Joined(s: State, m: Message, p: Phase): State {
    s.(stats := s.stats.(received := AddU64(s.stats.received, 1), bytes := AddU64(s.stats.bytes, PayloadLen(m))),
       calls := s.calls + [Call(m, p)])
  }

  function OneError(s: State): State {
    s.(stats := s.stats.(errors := AddU64(s.stats.errors, 1)))
  }

  function OneDrop(s: State): State {
    s.(stats := s.stats.(dropped := AddU64(s.stats.dropped, 1)))
  }

  /** One uninterrupted call in a single formula. */
  ghost function Alone(cfg: Config, s: State, m: Message): State {
    if !AllAccept(s.filters, Some(m)) then Joined(s, m, FilteredOut)
    else
      match ApplyAll(s.transformers, m)
      case Failed(_) => OneError(Joined(s, m, Errored))
      case Dropped => Joined(s, m, Erased)
      case Panicked => Joined(s, m, Panicking)
      case Produced(result) =>
        var out := Out(|s.filters|, |s.transformers|, result);
        if cfg.hasHandler then Joined(s, m, Handed(out))
        else if |s.channel| < cfg.capacity then
          Joined(s, m, Waiting(out)).(channel := s.channel + [Slot(|s.calls|, result)])
        else OneDrop(Joined(s, m, DroppedFull))
  }

  lemma FirstSteps(cfg: Config, s: State, m: Message)
    ensures Step(cfg, Step(cfg, Step(cfg, s, Deliver(m)), CountMsg(|s.calls|)), CountBytes(|s.calls|))
         == Joined(s, m, CountedBytes)
  {
    hide AfterFilters, AfterTransformers, AddU64;
    var s1 := Step(cfg, s, Deliver(m));
    var s2 := Step(cfg, s1, CountMsg(|s.calls|));
    assert s2.calls == s.calls + [Call(m, CountedMsg)];
    assert Step(cfg, s2, CountBytes(|s.calls|)).calls == s.calls + [Call(m, CountedBytes)];
  }

  /** What the next step does to the newest call. */
  lemma NextStep(cfg: Config, s: State, m: Message, p: Phase)
    ensures var c, j := |s.calls|, Joined(s, m, p);
            && (p.CountedBytes? ==> Step(cfg, j, RunFilters(c)) == Joined(s, m, AfterFilters(s, m)))
            && (p.Passed? ==> Step(cfg, j, RunTransformers(c)) == Joined(s, m, AfterTransformers(s, p.filters, m)))
            && (p.Erring? ==> Step(cfg, j, CountError(c)) == OneError(Joined(s, m, Errored)))
            && (p.Refused? ==> Step(cfg, j, CountDrop(c)) == OneDrop(Joined(s, m, DroppedFull)))
            && (p.Ready? ==> Step(cfg, j, Dispatch(c)) ==
                               if cfg.hasHandler then Joined(s, m, Handed(p.out))
                               else if |s.channel| < cfg.capacity then
                                 Joined(s, m, Waiting(p.out)).(channel := s.channel + [Slot(c, p.out.m)])
                               else Joined(s, m, Refused))
  {
    hide AfterFilters, AfterTransformers, AddU64;
    assert forall q :: (s.calls + [Call(m, p)])[|s.calls| := Call(m, q)] == s.calls + [Call(m, q)];
    assert AfterFilters(Joined(s, m, p), m) == AfterFilters(s, m) by { SameLists(s, Joined(s, m, p), m); }
    assert p.Passed? ==> AfterTransformers(Joined(s, m, p), p.filters, m) == AfterTransformers(s, p.filters, m) by {
      SameLists(s, Joined(s, m, p), m);
    }
  }

  lemma SameLists(s: State, t: State, m: Message)
    requires s.filters == t.filters && s.transformers == t.transformers
    ensures AfterFilters(s, m) == AfterFilters(t, m)
    ensures forall n :: AfterTransformers(s, n, m) == AfterTransformers(t, n, m)
  {
  }

  /** A step whose phase has not come, or is past, does nothing. */
  lemma NotYet(cfg: Config, s: State, c: nat)
    requires c < |s.calls|
    ensures !s.calls[c].phase.Passed? ==> Step(cfg, s, RunTransformers(c)) == s
    ensures !s.calls[c].phase.Erring? ==> Step(cfg, s, CountError(c)) == s
    ensures !s.calls[c].phase.Ready? ==> Step(cfg, s, Dispatch(c)) == s
    ensures !s.calls[c].phase.Refused? ==> Step(cfg, s, CountDrop(c)) == s
  {
  }

  lemma LastSteps(cfg: Config, s: State, m: Message)
    ensures var c, s4 := |s.calls|, Joined(s, m, AfterFilters(s, m));
            && var s6 := Step(cfg, Step(cfg, s4, RunTransformers(c)), CountError(c));
            && Step(cfg, Step(cfg, s6, Dispatch(c)), CountDrop(c)) == Alone(cfg, s, m)
  {
    hide Step, AllAccept, ApplyAll, AddU64;
    var c := |s.calls|;
    var s4 := Joined(s, m, AfterFilters(s, m));
    NextStep(cfg, s, m, AfterFilters(s, m));
    NotYet(cfg, s4, c);
    var s5 := Step(cfg, s4, RunTransformers(c));
    NotYet(cfg, s5, c);
    if AllAccept(s.filters, Some(m)) { NextStep(cfg, s, m, AfterTransformers(s, |s.filters|, m)); }
    var s6 := Step(cfg, s5, CountError(c));
    NotYet(cfg, s6, c);
    var s7 := Step(cfg, s6, Dispatch(c));
    NotYet(cfg, s7, c);
    NextStep(cfg, s, m, Refused);
  }

  /** The eight steps of a call, with nothing between them, make the formula. */
  lemma AloneIsRun(cfg: Config, s: State, m: Message)
    ensures Run(cfg, s, Whole(|s.calls|, m)) == Alone(cfg, s, m)
  {
    hide Step, AfterFilters, Alone, Joined, Run, Whole;
    RunWhole(cfg, s, |s.calls|, m);
    FirstSteps(cfg, s, m);
    NextStep(cfg, s, m, CountedBytes);
    LastSteps(cfg, s, m);
  }

  class AdvancedRoute {
    const cfg: Config
    var filters: seq<Filter>
    var transformers: seq<Transformer>
    var messagesReceived: nat
    var bytesReceived: nat
    var errorCount: nat
    var messagesDropped: nat
    var messages: seq<Message>   // the channel
    var handled: seq<Message>    // what the handler was called with
    ghost var abs: State

    ghost predicate Valid()
      reads this
    {
      && Inv(cfg, abs)
      && abs.filters == filters && abs.transformers == transformers
      && abs.stats == Stats(messagesReceived, bytesReceived, errorCount, messagesDropped)
      && |messages| == |abs.channel|
      && forall i :: 0 <= i < |messages| ==> messages[i] == abs.channel[i].m
    }

    constructor (cfg: Config, filters: seq<Filter>, transformers: seq<Transformer>)
      ensures Valid() && abs == Init(filters, transformers) && this.cfg == cfg && handled == []
    {
      this.cfg, this.filters, this.transformers := cfg, filters, transformers;
      messagesReceived, bytesReceived, errorCount, messagesDropped := 0, 0, 0, 0;
      messages, handled := [], [];
      abs := Init(filters, transformers);
      new;
      RouteStart(cfg, filters, transformers);
    }

    method AddFilter(f: Filter)
      requires Valid()
      modifies this`filters, this`abs
      ensures Valid() && abs == Step(cfg, old(abs), RouteSpec.AddFilter(f)) && filters == old(filters) + [f]
    {
      hide Inv;
      InvStep(cfg, abs, RouteSpec.AddFilter(f));
      filters := filters + [f];
      abs := Step(cfg, abs, RouteSpec.AddFilter(f));
    }

    method AddTransformer(t: Transformer)
      requires Valid()
      modifies this`transformers, this`abs
      ensures Valid() && abs == Step(cfg, old(abs), RouteSpec.AddTransformer(t))
      ensures transformers == old(transformers) + [t]
    {
      hide Inv;
      InvStep(cfg, abs, RouteSpec.AddTransformer(t));
      transformers := transformers + [t];
      abs := Step(cfg, abs, RouteSpec.AddTransformer(t));
    }

    method FilterMessage(m: Message) returns (accepted: bool)
      ensures accepted <==> AllAccept(filters, Some(m))
      ensures accepted <==> forall i :: 0 <= i < |filters| ==> Accepts(filters[i], Some(m))
    {
      if |filters| == 0 { return true; }
      for i := 0 to |filters|
        invariant forall j :: 0 <= j < i ==> Accepts(filters[j], Some(m))
      {
        var one := Match(filters[i], Some(m));
        if !one { return false; }
      }
      return true;
    }

    /** `TransformChain` is the loop; the composite transformer has the same one. */
    method TransformMessage(m: Message) returns (r: Outcome)
      ensures r == ApplyAll(transformers, m)
    {
      r := TransformChain(transformers, m);
    }

    /** One message on an open route. The call does to counters, channel and handler what
        its steps do in the interleaved machine when nothing comes between them. */
    method ProcessMessage(m: Message) returns (panicked: bool)
      requires Valid()
      modifies this
      ensures Valid() && abs == Run(cfg, old(abs), Whole(|old(abs).calls|, m))
      ensures filters == old(filters) && transformers == old(transformers)
      ensures |abs.calls| == |old(abs).calls| + 1
      ensures var phase := abs.calls[|old(abs).calls|].phase;
              && Over(phase)
              && (panicked <==> phase.Panicking?)
              && handled == old(handled) + (if phase.Handed? then [phase.out.m] else [])
              && messages == old(messages) + (if phase.Waiting? then [phase.out.m] else [])
      ensures messagesReceived == (old(messagesReceived) + 1) % TWO_64
      ensures bytesReceived == (old(bytesReceived) + if m.payload.Some? then |m.payload.value| else 0) % TWO_64
      ensures var accepted := AllAccept(filters, Some(m));
              var o := ApplyAll(transformers, m);
              var produced := accepted && o.Produced?;
              && errorCount == (if accepted && o.Failed? then (old(errorCount) + 1) % TWO_64 else old(errorCount))
              && (panicked <==> accepted && o.Panicked?)
              && handled == old(handled) + (if produced && cfg.hasHandler then [o.m] else [])
              && messages == old(messages)
                   + (if produced && !cfg.hasHandler && |old(messages)| < cfg.capacity then [o.m] else [])
              && messagesDropped == (if produced && !cfg.hasHandler && |old(messages)| >= cfg.capacity
                                     then (old(messagesDropped) + 1) % TWO_64 else old(messagesDropped))
    {
      hide Inv, AllAccept, ApplyAll, Whole, Run;
      AloneIsRun(cfg, abs, m);
      InvRun(cfg, abs, Whole(|abs.calls|, m));
      panicked := false;
      abs := Alone(cfg, abs, m);
      messagesReceived := AddU64(messagesReceived, 1);
      bytesReceived := AddU64(bytesReceived, PayloadLen(m));
      var accepted := FilterMessage(m);
      if !accepted {
        return;
      }
      var transformed := TransformMessage(m);
      if transformed.Failed? {
        errorCount := AddU64(errorCount, 1);
        return;
      }
      if transformed.Dropped? {
        return;
      }
      if transformed.Panicked? {
        return true;
      }
      if cfg.hasHandler {
        handled := handled + [transformed.m];
        return;
      }
      if |messages| < cfg.capacity {
        messages := messages + [transformed.m];
      } else {
        messagesDropped := AddU64(messagesDropped, 1);
      }
    }
  }
}
