/** `processMessage` calls on an open route as an interleaving of atomic steps. */
module RouteSpec {
  import opened Wrappers
  import opened Tally
  import opened Pipeline

  datatype Config = Config(capacity: nat, hasHandler: bool)

  /** A transformed message with the lengths the filter and transformer lists had when
      the call ran them. */
  datatype Out = Out(filters: nat, transformers: nat, m: Message)

  datatype Phase =
    | Entered                       // past the check of `done`
    | CountedMsg
    | CountedBytes
    | Passed(filters: nat)          // accepted by every filter
    | Ready(out: Out)               // transformed
    | Erring                        // a transformer failed, not yet counted
    | Refused                       // the channel was full, not yet counted
    | FilteredOut | Erased | Errored | Panicking | DroppedFull
    | Handed(out: Out)              // given to the handler
    | Waiting(out: Out)             // in the channel
    | Consumed(out: Out)

  datatype Call = Call(original: Message, phase: Phase)
  datatype Stats = Stats(received: nat, bytes: nat, errors: nat, dropped: nat)
  datatype Slot = Slot(call: nat, m: Message)

  datatype State = State(filters: seq<Filter>, transformers: seq<Transformer>, stats: Stats,
                         calls: seq<Call>, channel: seq<Slot>)

  datatype Event =
    | AddFilter(f: Filter) | AddTransformer(t: Transformer)
    | Deliver(m: Message)
    | CountMsg(c: nat) | CountBytes(c: nat) | RunFilters(c: nat) | RunTransformers(c: nat)
    | CountError(c: nat) | Dispatch(c: nat) | CountDrop(c: nat)
    | Consume

  function PayloadLen(m: Message): nat {
    match m.payload
    case None => 0
    case Some(p) => |p|
  }

  function Init(filters: seq<Filter>, transformers: seq<Transformer>): State {
    State(filters, transformers, Stats(0, 0, 0, 0), [], [])
  }

  function To(s: State, c: nat, p: Phase): State
    requires c < |s.calls|
  {
    s.(calls := s.calls[c := Call(s.calls[c].original, p)])
  }

  ghost function AfterFilters(s: State, m: Message): Phase {
    if AllAccept(s.filters, Some(m)) then Passed(|s.filters|) else FilteredOut
  }

  ghost function AfterTransformers(s: State, filters: nat, m: Message): Phase {
    match ApplyAll(s.transformers, m)
    case Produced(out) => Ready(Out(filters, |s.transformers|, out))
    case Dropped => Erased
    case Failed(_) => Erring
    case Panicked => Panicking
  }

  /** A step that is not enabled changes nothing. */
  ghost function Step(cfg: Config, s: State, e: Event): State {
    match e
    case AddFilter(f) => s.(filters := s.filters + [f])
    case AddTransformer(t) => s.(transformers := s.transformers + [t])
    case Deliver(m) => s.(calls := s.calls + [Call(m, Entered)])
    case CountMsg(c) =>
      if c < |s.calls| && s.calls[c].phase == Entered then
        To(s, c, CountedMsg).(stats := s.stats.(received := AddU64(s.stats.received, 1)))
      else s
    case CountBytes(c) =>
      if c < |s.calls| && s.calls[c].phase == CountedMsg then
        To(s, c, CountedBytes).(stats := s.stats.(bytes := AddU64(s.stats.bytes, PayloadLen(s.calls[c].original))))
      else s
    case RunFilters(c) =>
      if c < |s.calls| && s.calls[c].phase == CountedBytes then To(s, c, AfterFilters(s, s.calls[c].original)) else s
    case RunTransformers(c) =>
      if c < |s.calls| && s.calls[c].phase.Passed? then
        To(s, c, AfterTransformers(s, s.calls[c].phase.filters, s.calls[c].original))
      else s
    case CountError(c) =>
      if c < |s.calls| && s.calls[c].phase == Erring then
        To(s, c, Errored).(stats := s.stats.(errors := AddU64(s.stats.errors, 1)))
      else s
    case Dispatch(c) =>
      if c < |s.calls| && s.calls[c].phase.Ready? then
        var out := s.calls[c].phase.out;
        if cfg.hasHandler then To(s, c, Handed(out))
        else if |s.channel| < cfg.capacity then To(s, c, Waiting(out)).(channel := s.channel + [Slot(c, out.m)])
        else To(s, c, Refused)
      else s
    case CountDrop(c) =>
      if c < |s.calls| && s.calls[c].phase == Refused then
        To(s, c, DroppedFull).(stats := s.stats.(dropped := AddU64(s.stats.dropped, 1)))
      else s
    case Consume =>
      if s.channel != [] && s.channel[0].call < |s.calls| && s.calls[s.channel[0].call].phase.Waiting? then
        To(s, s.channel[0].call, Consumed(s.calls[s.channel[0].call].phase.out)).(channel := s.channel[1..])
      else s
  }

  ghost function Run(cfg: Config, s: State, es: seq<Event>): State
    decreases |es|
  {
    if es == [] then s else Run(cfg, Step(cfg, s, es[0]), es[1..])
  }

  lemma {:induction false} RunAppend(cfg: Config, s: State, a: seq<Event>, b: seq<Event>)
    ensures Run(cfg, s, a + b) == Run(cfg, Run(cfg, s, a), b)
    decreases |a|
  {
    if a == [] {
      assert a + b == b;
    } else {
      assert (a + b)[1..] == a[1..] + b;
      RunAppend(cfg, Step(cfg, s, a[0]), a[1..], b);
    }
  }

  // ---- Accounting ----

  function IsReceived(k: Call): nat { One(!k.phase.Entered?) }
  function Bytes(k: Call): nat { if k.phase.Entered? || k.phase.CountedMsg? then 0 else PayloadLen(k.original) }
  function IsErrored(k: Call): nat { One(k.phase.Errored?) }
  function IsDropped(k: Call): nat { One(k.phase.DroppedFull?) }
  function IsWaiting(k: Call): nat { One(k.phase.Waiting?) }
  function IsFilteredOut(k: Call): nat { One(k.phase.FilteredOut?) }
  function IsErased(k: Call): nat { One(k.phase.Erased?) }
  function IsPanicking(k: Call): nat { One(k.phase.Panicking?) }
  function IsHanded(k: Call): nat { One(k.phase.Handed?) }
  function IsConsumed(k: Call): nat { One(k.phase.Consumed?) }

  /** Counted as received and still on the way to its outcome. */
  function IsUnderWay(k: Call): nat {
    One(k.phase.CountedMsg? || k.phase.CountedBytes? || k.phase.Passed? || k.phase.Ready?
        || k.phase.Erring? || k.phase.Refused?)
  }

  ghost predicate Counts(s: State) {
    && s.stats.received == Sum(s.calls, IsReceived) % TWO_64
    && s.stats.bytes == Sum(s.calls, Bytes) % TWO_64
    && s.stats.errors == Sum(s.calls, IsErrored) % TWO_64
    && s.stats.dropped == Sum(s.calls, IsDropped) % TWO_64
    && |s.channel| == Sum(s.calls, IsWaiting)
  }

  lemma Moved(ks: seq<Call>, c: nat, k: Call)
    requires c < |ks|
    ensures Sum(ks[c := k], IsReceived) == Sum(ks, IsReceived) - IsReceived(ks[c]) + IsReceived(k)
    ensures Sum(ks[c := k], Bytes) == Sum(ks, Bytes) - Bytes(ks[c]) + Bytes(k)
    ensures Sum(ks[c := k], IsErrored) == Sum(ks, IsErrored) - IsErrored(ks[c]) + IsErrored(k)
    ensures Sum(ks[c := k], IsDropped) == Sum(ks, IsDropped) - IsDropped(ks[c]) + IsDropped(k)
    ensures Sum(ks[c := k], IsWaiting) == Sum(ks, IsWaiting) - IsWaiting(ks[c]) + IsWaiting(k)
  {
    SumSet(ks, c, k, IsReceived);
    SumSet(ks, c, k, Bytes);
    SumSet(ks, c, k, IsErrored);
    SumSet(ks, c, k, IsDropped);
    SumSet(ks, c, k, IsWaiting);
  }

  lemma CountsKeptByEnds(cfg: Config, s: State, e: Event)
    requires Counts(s) && (e.Deliver? || e.Consume?)
    ensures Counts(Step(cfg, s, e))
  {
    hide Sum;
    var t := Step(cfg, s, e);
    if e.Deliver? {
      var k := Call(e.m, Entered);
      SumPush(s.calls, k, IsReceived);
      SumPush(s.calls, k, Bytes);
      SumPush(s.calls, k, IsErrored);
      SumPush(s.calls, k, IsDropped);
      SumPush(s.calls, k, IsWaiting);
    } else if t != s {
      Moved(s.calls, s.channel[0].call, t.calls[s.channel[0].call]);
    }
  }

  lemma CountsKeptByLists(cfg: Config, s: State, e: Event)
    requires Counts(s) && (e.RunFilters? || e.RunTransformers? || e.AddFilter? || e.AddTransformer?)
    ensures Counts(Step(cfg, s, e))
  {
    hide Sum, AfterFilters, ApplyAll;
    if (e.RunFilters? || e.RunTransformers?) && e.c < |s.calls| {
      AfterFiltersKinds(s, s.calls[e.c].original);
      Moved(s.calls, e.c, Step(cfg, s, e).calls[e.c]);
    }
  }

  /** The steps that move one call and touch one counter or the channel. */
  lemma CountsKeptByCall(cfg: Config, s: State, e: Event)
    requires Counts(s) && (e.CountMsg? || e.CountBytes? || e.CountError? || e.CountDrop?) && e.c < |s.calls|
    ensures Counts(Step(cfg, s, e))
  {
    hide Sum, PayloadLen, AddU64;
    AddWraps(Sum(s.calls, IsReceived), 1);
    AddWraps(Sum(s.calls, Bytes), PayloadLen(s.calls[e.c].original));
    AddWraps(Sum(s.calls, IsErrored), 1);
    AddWraps(Sum(s.calls, IsDropped), 1);
    Moved(s.calls, e.c, Step(cfg, s, e).calls[e.c]);
  }

  lemma CountsKeptByDispatch(cfg: Config, s: State, c: nat)
    requires Counts(s) && c < |s.calls|
    ensures Counts(Step(cfg, s, Dispatch(c)))
  {
    hide Sum, PayloadLen;
    Moved(s.calls, c, Step(cfg, s, Dispatch(c)).calls[c]);
  }

  lemma CountsKept(cfg: Config, s: State, e: Event)
    requires Counts(s)
    ensures Counts(Step(cfg, s, e))
  {
    hide Counts;
    if e.Deliver? || e.Consume? {
      CountsKeptByEnds(cfg, s, e);
    } else if e.RunFilters? || e.RunTransformers? || e.AddFilter? || e.AddTransformer? {
      CountsKeptByLists(cfg, s, e);
    } else if e.c < |s.calls| {
      if e.Dispatch? {
        CountsKeptByDispatch(cfg, s, e.c);
      } else {
        CountsKeptByCall(cfg, s, e);
      }
    }
  }

  lemma AfterFiltersKinds(s: State, m: Message)
    ensures AfterFilters(s, m).Passed? || AfterFilters(s, m).FilteredOut?
  {
  }

  // ---- What reaches the handler, the channel and the consumer ----

  /** The output is the image of its call's own message: it passed the filters and went
      through the transformers that were in the lists when the call ran them. */
  ghost predicate Genuine(s: State, original: Message, o: Out) {
    && o.filters <= |s.filters| && o.transformers <= |s.transformers|
    && AllAccept(s.filters[..o.filters], Some(original))
    && ApplyAll(s.transformers[..o.transformers], original) == Produced(o.m)
  }

  ghost predicate CallOk(s: State, k: Call) {
    match k.phase
    case Passed(n) => n <= |s.filters| && AllAccept(s.filters[..n], Some(k.original))
    case Ready(o) => Genuine(s, k.original, o)
    case Handed(o) => Genuine(s, k.original, o)
    case Waiting(o) => Genuine(s, k.original, o)
    case Consumed(o) => Genuine(s, k.original, o)
    case _ => true
  }

  ghost predicate ChannelOk(cfg: Config, s: State) {
    && |s.channel| <= cfg.capacity
    && (forall i :: 0 <= i < |s.channel| ==>
          var x := s.channel[i];
          x.call < |s.calls| && s.calls[x.call].phase.Waiting? && s.calls[x.call].phase.out.m == x.m)
    && forall i, j :: 0 <= i < j < |s.channel| ==> s.channel[i].call != s.channel[j].call
  }

  ghost predicate Inv(cfg: Config, s: State) {
    && Counts(s)
    && ChannelOk(cfg, s)
    && forall c :: 0 <= c < |s.calls| ==> CallOk(s, s.calls[c])
  }

  lemma ListsGrow(s: State, t: State, k: Call)
    requires s.filters <= t.filters && s.transformers <= t.transformers && CallOk(s, k)
    ensures CallOk(t, k)
  {
    forall n | 0 <= n <= |s.filters| ensures t.filters[..n] == s.filters[..n] { }
    forall n | 0 <= n <= |s.transformers| ensures t.transformers[..n] == s.transformers[..n] { }
  }

  lemma ChannelKept(cfg: Config, s: State, e: Event)
    requires ChannelOk(cfg, s)
    ensures ChannelOk(cfg, Step(cfg, s, e))
  {
    hide AfterFilters, ApplyAll;
    var t := Step(cfg, s, e);
    if e.Consume? && t != s {
      forall i | 0 <= i < |t.channel| ensures t.channel[i] == s.channel[i + 1] { }
    }
  }

  lemma MovedCallOk(cfg: Config, s: State, e: Event, c: nat)
    requires c < |s.calls| && CallOk(s, s.calls[c])
    requires !e.AddFilter? && !e.AddTransformer?
    ensures c < |Step(cfg, s, e).calls| && CallOk(s, Step(cfg, s, e).calls[c])
  {
    assert s.filters[..|s.filters|] == s.filters && s.transformers[..|s.transformers|] == s.transformers;
  }

  lemma StepGrows(cfg: Config, s: State, e: Event)
    ensures s.filters <= Step(cfg, s, e).filters && s.transformers <= Step(cfg, s, e).transformers
    ensures |s.calls| <= |Step(cfg, s, e).calls| <= |s.calls| + 1
    ensures |Step(cfg, s, e).calls| > |s.calls| ==> Step(cfg, s, e).calls[|s.calls|].phase == Entered
    ensures e.AddFilter? || e.AddTransformer? ==> Step(cfg, s, e).calls == s.calls
  {
    hide AfterFilters, AfterTransformers;
  }

  lemma InvStep(cfg: Config, s: State, e: Event)
    requires Inv(cfg, s)
    ensures Inv(cfg, Step(cfg, s, e))
  {
    hide Counts, ChannelOk, CallOk, Step;
    var t := Step(cfg, s, e);
    CountsKept(cfg, s, e);
    ChannelKept(cfg, s, e);
    StepGrows(cfg, s, e);
    forall c | 0 <= c < |t.calls| ensures CallOk(t, t.calls[c]) {
      if c == |s.calls| {
        EnteredOk(t, t.calls[c]);
      } else {
        if !e.AddFilter? && !e.AddTransformer? { MovedCallOk(cfg, s, e, c); }
        ListsGrow(s, t, t.calls[c]);
      }
    }
  }

  lemma EnteredOk(s: State, k: Call)
    requires k.phase == Entered
    ensures CallOk(s, k)
  {
  }

  lemma {:induction false} InvRun(cfg: Config, s: State, es: seq<Event>)
    requires Inv(cfg, s)
    ensures Inv(cfg, Run(cfg, s, es))
    decreases |es|
  {
    if es != [] {
      InvStep(cfg, s, es[0]);
      InvRun(cfg, Step(cfg, s, es[0]), es[1..]);
    }
  }

  lemma {:induction false} Parts(ks: seq<Call>)
    ensures Sum(ks, IsReceived) ==
              Sum(ks, IsFilteredOut) + Sum(ks, IsErased) + Sum(ks, IsErrored) + Sum(ks, IsHanded) + Sum(ks, IsDropped)
              + Sum(ks, IsConsumed) + Sum(ks, IsWaiting) + Sum(ks, IsPanicking) + Sum(ks, IsUnderWay)
  {
    if ks != [] { Parts(ks[1..]); }
  }

  /** Every message counted as received was filtered out, erased, an error, handed to the
      handler, dropped, taken by the consumer, is still in the channel or under way, or
      its call panicked in a transformer; bytes are those of the original payloads. The
      counters agree with these numbers up to the 2^64 they wrap at. */
  lemma Accounting(cfg: Config, filters: seq<Filter>, transformers: seq<Transformer>, es: seq<Event>)
    ensures var s := Run(cfg, Init(filters, transformers), es);
            && s.stats.received == (Sum(s.calls, IsFilteredOut) + Sum(s.calls, IsErased) + Sum(s.calls, IsErrored)
                                    + Sum(s.calls, IsHanded) + Sum(s.calls, IsDropped) + Sum(s.calls, IsConsumed)
                                    + |s.channel| + Sum(s.calls, IsUnderWay) + Sum(s.calls, IsPanicking)) % TWO_64
            && s.stats.errors == Sum(s.calls, IsErrored) % TWO_64
            && s.stats.dropped == Sum(s.calls, IsDropped) % TWO_64
            && s.stats.bytes == Sum(s.calls, Bytes) % TWO_64
  {
    hide Run, ChannelOk, CallOk;
    RouteStart(cfg, filters, transformers);
    InvRun(cfg, Init(filters, transformers), es);
    Parts(Run(cfg, Init(filters, transformers), es).calls);
  }

  lemma RouteStart(cfg: Config, filters: seq<Filter>, transformers: seq<Transformer>)
    ensures Inv(cfg, Init(filters, transformers))
  {
  }

  /** The law of the received counter with no term for panics. */
  ghost predicate Balanced(s: State) {
    s.stats.received == (Sum(s.calls, IsFilteredOut) + Sum(s.calls, IsErased) + Sum(s.calls, IsErrored)
                         + Sum(s.calls, IsHanded) + Sum(s.calls, IsDropped) + Sum(s.calls, IsConsumed)
                         + |s.channel| + Sum(s.calls, IsUnderWay)) % TWO_64
  }

  /** What the handler or the consumer gets, or waits for it, is genuine. */
  lemma DeliveredIsGenuine(cfg: Config, filters: seq<Filter>, transformers: seq<Transformer>, es: seq<Event>, c: nat)
    requires var s := Run(cfg, Init(filters, transformers), es);
             c < |s.calls| && (s.calls[c].phase.Handed? || s.calls[c].phase.Waiting? || s.calls[c].phase.Consumed?)
    ensures var s := Run(cfg, Init(filters, transformers), es);
            Genuine(s, s.calls[c].original, s.calls[c].phase.out)
  {
    hide Run;
    RouteStart(cfg, filters, transformers);
    InvRun(cfg, Init(filters, transformers), es);
    var s := Run(cfg, Init(filters, transformers), es);
    assert CallOk(s, s.calls[c]);
  }

  // ---- What each step decides, spelled out ----

  /** A call passes exactly when all filters of that moment accept its message. */
  lemma PassedExactly(cfg: Config, s: State, c: nat)
    requires c < |s.calls| && s.calls[c].phase == CountedBytes
    ensures var p := Step(cfg, s, RunFilters(c)).calls[c].phase;
            var accepted := forall i :: 0 <= i < |s.filters| ==> Accepts(s.filters[i], Some(s.calls[c].original));
            (p.Passed? <==> accepted) && (p.FilteredOut? <==> !accepted)
  {
  }

  /** A message is an error exactly when the transformers of that moment fail on it, erased
      exactly when they drop it, and ready, with what they make of it, exactly when they
      produce something. */
  lemma OutcomeExactly(cfg: Config, s: State, c: nat)
    requires c < |s.calls| && s.calls[c].phase.Passed?
    ensures var p, o := Step(cfg, s, RunTransformers(c)).calls[c].phase, ApplyAll(s.transformers, s.calls[c].original);
            && (p.Erring? <==> o.Failed?) && (p.Erased? <==> o.Dropped?)
            && (p.Ready? <==> o.Produced?) && (p.Panicking? <==> o.Panicked?)
            && (p.Ready? ==> p.out.m == o.m)
    ensures Step(cfg, s, RunTransformers(c)).stats == s.stats
  {
    hide ApplyAll;
  }

  /** A ready message goes to the handler when there is one; else to the end of the channel
      exactly when it has room. */
  lemma DispatchedExactly(cfg: Config, s: State, c: nat)
    requires c < |s.calls| && s.calls[c].phase.Ready?
    ensures var t, p := Step(cfg, s, Dispatch(c)), Step(cfg, s, Dispatch(c)).calls[c].phase;
            && (p.Handed? <==> cfg.hasHandler)
            && (p.Waiting? <==> !cfg.hasHandler && |s.channel| < cfg.capacity)
            && (p.Refused? <==> !cfg.hasHandler && |s.channel| >= cfg.capacity)
            && (p.Handed? || p.Waiting? ==> p.out == s.calls[c].phase.out)
            && t.channel == if p.Waiting? then s.channel + [Slot(c, s.calls[c].phase.out.m)] else s.channel
  {
  }

  /** Each count is raised once for its call: errors for failures, drops for refusals, and
      bytes by the length of the original payload. */
  lemma CountedExactly(cfg: Config, s: State, c: nat)
    requires c < |s.calls|
    ensures var k, st := s.calls[c], s.stats;
            && (k.phase.Entered? ==>
                  Step(cfg, s, CountMsg(c)).stats == st.(received := (st.received + 1) % TWO_64))
            && (k.phase.CountedMsg? ==>
                  var n := if k.original.payload.Some? then |k.original.payload.value| else 0;
                  Step(cfg, s, CountBytes(c)).stats == st.(bytes := (st.bytes + n) % TWO_64))
            && (k.phase.Erring? ==>
                  Step(cfg, s, CountError(c)).stats == st.(errors := (st.errors + 1) % TWO_64))
            && (k.phase.Refused? ==>
                  Step(cfg, s, CountDrop(c)).stats == st.(dropped := (st.dropped + 1) % TWO_64))
  {
  }

  /** The consumer takes the message at the head of the channel, and its call is over. */
  lemma ConsumedExactly(cfg: Config, s: State)
    requires ChannelOk(cfg, s) && s.channel != []
    ensures var t, c := Step(cfg, s, Consume), s.channel[0].call;
            && t.channel == s.channel[1..] && c < |s.calls|
            && t.calls[c].phase.Consumed? && t.calls[c].phase.out.m == s.channel[0].m
  {
  }
}
