/** What holds of the forwarder in every interleaving. */
module ForwarderTheorems {
  import opened Wrappers
  import opened Tally
  import opened ForwarderSpec

  // ---- The logs ----

  /** Each message of the log is the message of its own call, in one of the phases. */
  ghost predicate LogOk(cfg: Config, f: Flow, log: seq<Msg>, late: bool) {
    && Distinct(log)
    && forall i :: 0 <= i < |log| ==>
         log[i].call < |f.calls| && log[i].call < |f.phases|
         && log[i] == MsgOf(cfg, f.calls, log[i].call)
         && (f.phases[log[i].call] in {Taken, Sent, Failed} || (!late && f.phases[log[i].call] == Queued))
  }

  ghost predicate NotYet(f: Flow, attempted: seq<Msg>) {
    forall i, w :: 0 <= i < |attempted| && 0 <= w < |f.workers| && f.workers[w].Holding?
      ==> attempted[i].call != f.workers[w].m.call
  }

  ghost predicate PublishedOk(cfg: Config, logs: Logs) {
    |logs.published| == |logs.attempted|
    && forall i :: 0 <= i < |logs.attempted| ==> logs.published[i] == PublishOf(cfg, logs.attempted[i])
  }

  ghost predicate Logged(cfg: Config, f: Flow, logs: Logs) {
    && LogOk(cfg, f, logs.enqueued, false)
    && LogOk(cfg, f, logs.attempted, true)
    && NotYet(f, logs.attempted)
    && PublishedOk(cfg, logs)
  }

  /** A change of phases that keeps accepted calls accepted, taken calls taken. */
  ghost predicate Onward(f: Flow, g: Flow) {
    && |f.calls| <= |g.calls| && g.calls[..|f.calls|] == f.calls && |f.phases| <= |g.phases|
    && forall c :: 0 <= c < |f.phases| ==>
         && (f.phases[c] in {Taken, Sent, Failed} ==> g.phases[c] in {Taken, Sent, Failed})
         && (f.phases[c] == Queued ==> g.phases[c] in {Queued, Taken, Sent, Failed})
  }

  lemma LogOnward(cfg: Config, f: Flow, g: Flow, log: seq<Msg>, late: bool)
    requires Sized(f) && Onward(f, g) && LogOk(cfg, f, log, late)
    ensures LogOk(cfg, g, log, late)
  {
    forall c | 0 <= c < |f.calls| ensures MsgOf(cfg, g.calls, c) == MsgOf(cfg, f.calls, c) {
      assert g.calls[..|f.calls|][c] == g.calls[c];
    }
  }

  lemma StepOnward(cfg: Config, s: State, e: Event)
    requires Sized(s.flow) && Carried(cfg, s.flow)
    ensures Onward(s.flow, Step(cfg, s, e).flow)
  {
    var f, g := s.flow, Step(cfg, s, e).flow;
    assert g.calls[..|f.calls|] == f.calls;
    if e.Receive? && e.w < |f.workers| && f.queue != [] {
      assert Belongs(cfg, f, f.queue[0], Queued);
    }
  }

  lemma LogPush(cfg: Config, f: Flow, log: seq<Msg>, m: Msg, late: bool)
    requires LogOk(cfg, f, log, late) && LogOk(cfg, f, [m], late)
    requires forall i :: 0 <= i < |log| ==> log[i].call != m.call
    ensures LogOk(cfg, f, log + [m], late)
  {
    assert [m][0] == m;
  }

  lemma AcceptLogged(cfg: Config, s: State, c: nat)
    requires Sized(s.flow) && Carried(cfg, s.flow) && Logged(cfg, s.flow, s.logs)
    requires In(s.flow, c, Filled) && |s.flow.queue| < cfg.capacity
    ensures Logged(cfg, Step(cfg, s, Offer(c)).flow, Step(cfg, s, Offer(c)).logs)
  {
    var t, m := Step(cfg, s, Offer(c)), MsgOf(cfg, s.flow.calls, c);
    StepOnward(cfg, s, Offer(c));
    LogOnward(cfg, s.flow, t.flow, s.logs.enqueued, false);
    LogOnward(cfg, s.flow, t.flow, s.logs.attempted, true);
    LogPush(cfg, t.flow, s.logs.enqueued, m, false);
  }

  lemma PublishLogged(cfg: Config, s: State, w: nat)
    requires Sized(s.flow) && Carried(cfg, s.flow) && Logged(cfg, s.flow, s.logs)
    requires w < |s.flow.workers| && s.flow.workers[w].Holding?
    ensures Logged(cfg, Step(cfg, s, PublishTo(w)).flow, Step(cfg, s, PublishTo(w)).logs)
  {
    var t, m := Step(cfg, s, PublishTo(w)), s.flow.workers[w].m;
    assert Busy(s.flow.workers[w]) == 1 && Belongs(cfg, s.flow, m, Taken);
    StepOnward(cfg, s, PublishTo(w));
    LogOnward(cfg, s.flow, t.flow, s.logs.enqueued, false);
    LogOnward(cfg, s.flow, t.flow, s.logs.attempted, true);
    LogPush(cfg, t.flow, s.logs.attempted, m, true);
    forall v | 0 <= v < |t.flow.workers| && t.flow.workers[v].Holding?
      ensures m.call != t.flow.workers[v].m.call
    {
      assert Busy(s.flow.workers[v]) == 1;
    }
  }

  lemma LoggedKept(cfg: Config, s: State, e: Event)
    requires Sized(s.flow) && Carried(cfg, s.flow) && Logged(cfg, s.flow, s.logs)
    ensures Logged(cfg, Step(cfg, s, e).flow, Step(cfg, s, e).logs)
  {
    var f, t := s.flow, Step(cfg, s, e);
    if e.Offer? && In(f, e.c, Filled) && |f.queue| < cfg.capacity {
      AcceptLogged(cfg, s, e.c);
    } else if e.PublishTo? && e.w < |f.workers| && f.workers[e.w].Holding? {
      PublishLogged(cfg, s, e.w);
    } else {
      assert t.logs == s.logs;
      StepOnward(cfg, s, e);
      LogOnward(cfg, f, t.flow, s.logs.enqueued, false);
      LogOnward(cfg, f, t.flow, s.logs.attempted, true);
      if !e.PublishTo? { NotYetKept(cfg, s, e); }
    }
  }

  lemma NotYetKept(cfg: Config, s: State, e: Event)
    requires Sized(s.flow) && Carried(cfg, s.flow) && Logged(cfg, s.flow, s.logs) && !e.PublishTo?
    ensures NotYet(Step(cfg, s, e).flow, s.logs.attempted)
  {
    hide Sum, WorkersOk;
    var f, g := s.flow, Step(cfg, s, e).flow;
    if e.Receive? && g != f {
      assert Belongs(cfg, f, f.queue[0], Queued);
      forall i | 0 <= i < |s.logs.attempted| ensures s.logs.attempted[i].call != f.queue[0].call {
        AttemptedPhase(cfg, f, s.logs, i);
      }
    }
  }

  lemma AttemptedPhase(cfg: Config, f: Flow, logs: Logs, i: nat)
    requires Logged(cfg, f, logs) && i < |logs.attempted|
    ensures logs.attempted[i].call < |f.phases| && f.phases[logs.attempted[i].call] != Queued
  {
  }

  // ---- Order ----

  /** The message the only worker has received and not yet tried to publish. */
  ghost function InHand(workers: seq<Worker>): seq<Msg> {
    if |workers| == 1 && workers[0].Holding? then [workers[0].m] else []
  }

  /** With at most one worker started, messages go to `PublishTo` in channel order. */
  ghost predicate Fifo(f: Flow, logs: Logs) {
    |f.workers| <= 1 ==> logs.attempted + InHand(f.workers) + f.queue == logs.enqueued
  }

  lemma FifoKept(cfg: Config, s: State, e: Event)
    requires Sized(s.flow) && Fifo(s.flow, s.logs)
    ensures Fifo(Step(cfg, s, e).flow, Step(cfg, s, e).logs)
  {
    var f, g, a := s.flow, s.logs, s.logs.attempted;
    var t := Step(cfg, s, e);
    if |t.flow.workers| <= 1 {
      if e.Offer? && t.logs != s.logs {
        var m := MsgOf(cfg, f.calls, e.c);
        assert a + InHand(f.workers) + (f.queue + [m]) == a + InHand(f.workers) + f.queue + [m];
      } else if e.Receive? && t != s {
        assert f.queue == [f.queue[0]] + f.queue[1..];
        assert a + [] + f.queue == a + [f.queue[0]] + f.queue[1..];
      } else if e.PublishTo? && t != s {
        assert a + [f.workers[0].m] + f.queue == (a + [f.workers[0].m]) + [] + f.queue;
      }
    }
  }

  // ---- Every reachable state ----

  ghost predicate Inv(cfg: Config, s: State) {
    && Sized(s.flow) && Control(s.ctl) && Counts(s.stats, s.flow)
    && Carried(cfg, s.flow) && Logged(cfg, s.flow, s.logs) && Fifo(s.flow, s.logs)
  }

  lemma InvStep(cfg: Config, s: State, e: Event)
    requires Inv(cfg, s)
    ensures Inv(cfg, Step(cfg, s, e))
  {
    hide Counts, Carried, Logged, Fifo, CallStep, WorkerStep;
    ControlKept(s.ctl, e);
    CountsKept(cfg, s, e);
    CarriedKept(cfg, s, e);
    LoggedKept(cfg, s, e);
    FifoKept(cfg, s, e);
    CtlOnly(cfg, s, e);
  }

  lemma CtlOnly(cfg: Config, s: State, e: Event)
    requires Sized(s.flow)
    ensures Step(cfg, s, e).ctl == CtlStep(s.ctl, e)
  {
  }

  lemma {:induction false} InvRun(cfg: Config, s: State, es: seq<Event>)
    requires Inv(cfg, s)
    ensures Inv(cfg, Run(cfg, s, es))
    decreases |es|
  {
    if es != [] {
      InvStep(cfg, s, es[0]);
      InvRun(cfg, Step(cfg, s, es[0]), es[1..]);
    }
  }

  lemma Reachable(cfg: Config, es: seq<Event>)
    ensures Inv(cfg, Run(cfg, Init(), es))
  {
    InvRun(cfg, Init(), es);
  }

  // ---- Main results ----

  /** Messages in the hands of calls, from the receive count to the send or drop count. */
  function HeldByCalls(ph: seq<Phase>): nat {
    Num(ph, Counted) + Num(ph, Acquired) + Num(ph, Filled) + Num(ph, Refused)
  }

  function IsUnderWay(p: Phase): nat {
    if p.Counted? || p.Acquired? || p.Filled? || p.Refused? then 1 else 0
  }

  function IsPlaced(p: Phase): nat {
    if p.Sent? || p.Failed? || p.DroppedFull? || p.Queued? || p.Taken? then 1 else 0
  }

  lemma {:induction false} UnderWayParts(ph: seq<Phase>)
    ensures Sum(ph, IsUnderWay) == HeldByCalls(ph)
  {
    if ph != [] { UnderWayParts(ph[1..]); }
  }

  lemma {:induction false} PlacedParts(ph: seq<Phase>)
    ensures Sum(ph, IsPlaced) ==
              Num(ph, Sent) + Num(ph, Failed) + Num(ph, DroppedFull) + Num(ph, Queued) + Num(ph, Taken)
  {
    if ph != [] { PlacedParts(ph[1..]); }
  }

  lemma ReceivedParts(ph: seq<Phase>)
    ensures Sum(ph, IsReceived) ==
              Num(ph, Sent) + Num(ph, Failed) + Num(ph, DroppedFull) + Num(ph, Queued) + Num(ph, Taken)
              + HeldByCalls(ph)
  {
    hide Sum, Num, HeldByCalls;
    SumAdds(ph, IsPlaced, IsUnderWay, IsReceived);
    PlacedParts(ph);
    UnderWayParts(ph);
  }

  lemma {:induction false} OtherParts(ph: seq<Phase>)
    ensures Sum(ph, IsDropped) == Num(ph, DroppedFull) + Num(ph, DroppedStopped)
    ensures Sum(ph, IsSent) == Num(ph, Sent) && Sum(ph, IsQueued) == Num(ph, Queued)
    ensures Sum(ph, IsTaken) == Num(ph, Taken)
  {
    if ph != [] { OtherParts(ph[1..]); }
  }

  lemma {:induction false} AllParts(ph: seq<Phase>)
    ensures |ph| == Sum(ph, IsReceived) + Num(ph, DroppedStopped)
                    + Num(ph, Entered) + Num(ph, SawStopped) + Num(ph, Admitted)
  {
    if ph != [] { AllParts(ph[1..]); }
  }

  /** Received = sent + failed + dropped because full + in the channel + held by calls +
      held by workers, and dropped = because full + because stopped; the counters agree
      with these numbers up to the 2^64 they wrap at. */
  lemma Conservation(cfg: Config, es: seq<Event>)
    ensures var s := Run(cfg, Init(), es);
            var ph := s.flow.phases;
            && s.stats.received == (Num(ph, Sent) + Num(ph, Failed) + Num(ph, DroppedFull)
                                    + |s.flow.queue| + HeldByCalls(ph) + Sum(s.flow.workers, Busy)) % TWO_64
            && s.stats.sent == Num(ph, Sent) % TWO_64
            && s.stats.dropped == (Num(ph, DroppedFull) + Num(ph, DroppedStopped)) % TWO_64
  {
    hide Run, Carried, Logged, Fifo, Control, Num, Sum, HeldByCalls;
    Reachable(cfg, es);
    ReceivedParts(Run(cfg, Init(), es).flow.phases);
    OtherParts(Run(cfg, Init(), es).flow.phases);
  }

  /** A call that will do nothing more, or whose message waits in the channel. */
  predicate Settled(p: Phase) {
    p.DroppedStopped? || p.DroppedFull? || p.Queued? || p.Sent? || p.Failed?
  }

  lemma {:induction false} NoneOf(ph: seq<Phase>, p: Phase)
    requires forall i :: 0 <= i < |ph| ==> ph[i] != p
    ensures Num(ph, p) == 0
  {
    if ph != [] { NoneOf(ph[1..], p); }
  }

  /** At quiescence every call is accounted for exactly once. */
  lemma Quiescence(cfg: Config, es: seq<Event>)
    requires var s := Run(cfg, Init(), es);
             |s.flow.calls| < TWO_64 && forall c :: 0 <= c < |s.flow.phases| ==> Settled(s.flow.phases[c])
    ensures var s := Run(cfg, Init(), es);
            |s.flow.calls| == s.stats.sent + Num(s.flow.phases, Failed) + s.stats.dropped + |s.flow.queue|
  {
    hide Run, Inv, Counts, HeldByCalls, Num, Sum;
    var s := Run(cfg, Init(), es);
    var ph := s.flow.phases;
    Conservation(cfg, es);
    AllParts(ph);
    ReceivedParts(ph);
    QueuedPart(cfg, es);
    NoneOf(ph, Entered);
    NoneOf(ph, SawStopped);
    NoneOf(ph, Admitted);
    NoneOf(ph, Taken);
    NoneHeld(ph);
    NoWrap(Num(ph, Sent));
    NoWrap(Num(ph, DroppedFull) + Num(ph, DroppedStopped));
  }

  lemma QueuedPart(cfg: Config, es: seq<Event>)
    ensures var s := Run(cfg, Init(), es);
            |s.flow.queue| == Num(s.flow.phases, Queued) && |s.flow.calls| == |s.flow.phases|
  {
    hide Run, Carried, Logged, Fifo, Control;
    Reachable(cfg, es);
    OtherParts(Run(cfg, Init(), es).flow.phases);
  }

  lemma NoneHeld(ph: seq<Phase>)
    requires forall c :: 0 <= c < |ph| ==> Settled(ph[c])
    ensures HeldByCalls(ph) == 0
  {
    NoneOf(ph, Counted);
    NoneOf(ph, Acquired);
    NoneOf(ph, Filled);
    NoneOf(ph, Refused);
  }

  /** With one `Start`, the publish attempts are the accepted messages in order, each
      with the mapped topic and the bytes of the call that enqueued it; what is missing
      at the end is the worker's current message and then the channel. */
  lemma PublishOrder(cfg: Config, es: seq<Event>)
    requires |Run(cfg, Init(), es).flow.workers| <= 1
    ensures var s := Run(cfg, Init(), es);
            var n := |s.logs.published|;
            && n <= |s.logs.enqueued|
            && (forall i :: 0 <= i < n ==> s.logs.published[i] == PublishOf(cfg, s.logs.enqueued[i]))
            && s.logs.enqueued[n..] == InHand(s.flow.workers) + s.flow.queue
            && |s.flow.queue| <= cfg.capacity
  {
    Reachable(cfg, es);
    var s := Run(cfg, Init(), es);
    var a, rest := s.logs.attempted, InHand(s.flow.workers) + s.flow.queue;
    assert a + rest == s.logs.enqueued;
  }

  /** With any number of `Start`s, no call is published twice, and each publish carries
      the mapped topic and the bytes of one accepted call. */
  lemma PublishProvenance(cfg: Config, es: seq<Event>, i: nat)
    requires i < |Run(cfg, Init(), es).logs.published|
    ensures var s := Run(cfg, Init(), es);
            && i < |s.logs.attempted|
            && var c := s.logs.attempted[i].call;
            && c < |s.flow.calls|
            && s.logs.published[i] == Publish(Target(cfg, s.flow.calls[c].topic), s.flow.calls[c].payload, cfg.qos)
            && s.flow.phases[c] in {Taken, Sent, Failed}
            && forall j :: 0 <= j < |s.logs.attempted| && j != i ==> s.logs.attempted[j].call != c
  {
    Reachable(cfg, es);
  }

  /** `stopCh` is closed at most once, and exactly when `stopped` is set, except between
      the two assignments that `Stop` makes while it holds the lock. */
  lemma StopClosesOnce(cfg: Config, es: seq<Event>)
    ensures var k := Run(cfg, Init(), es).ctl;
            && k.closes <= 1
            && (k.lock != StopMarked ==> (k.closed <==> k.stopped) && k.closes == (if k.stopped then 1 else 0))
  {
    Reachable(cfg, es);
  }

  /** The phases of a call that meets the stopped flag. */
  predicate TurnedAway(p: Phase) {
    p.Entered? || p.SawStopped? || p.DroppedStopped?
  }

  lemma WorkerLeaves(cfg: Config, s: State, w: nat, e: Event, c: nat)
    requires w < |s.flow.workers| && (c < |s.flow.phases| ==> TurnedAway(s.flow.phases[c]))
    requires s.flow.queue != [] ==> In(s.flow, s.flow.queue[0].call, Queued)
    requires Busy(s.flow.workers[w]) == 1 ==> In(s.flow, s.flow.workers[w].m.call, Taken)
    ensures var t := WorkerStep(cfg, s, w, e);
            c < |t.flow.phases| ==> TurnedAway(t.flow.phases[c])
  {
  }

  lemma CallStaysAway(cfg: Config, s: State, e: Event, c: nat)
    requires Sized(s.flow) && s.ctl.stopped
    requires c < |s.flow.phases| ==> TurnedAway(s.flow.phases[c])
    ensures var t := CallStep(cfg, s, e);
            c < |t.flow.phases| ==> TurnedAway(t.flow.phases[c])
  {
  }

  lemma TurnedAwayStep(cfg: Config, s: State, e: Event, c: nat)
    requires Inv(cfg, s) && s.ctl.stopped
    requires c < |s.flow.phases| ==> TurnedAway(s.flow.phases[c])
    ensures var t := Step(cfg, s, e);
            t.ctl.stopped && (c < |t.flow.phases| ==> TurnedAway(t.flow.phases[c]))
  {
    hide Counts, Logged, Fifo, Carried, CallStep, WorkerStep;
    ControlKept(s.ctl, e);
    CtlOnly(cfg, s, e);
    if IsWorkerEvent(e) {
      if e.w < |s.flow.workers| {
        CarriedPhases(cfg, s.flow, e.w);
        WorkerLeaves(cfg, s, e.w, e, c);
      }
    } else if !IsControlEvent(e) {
      CallStaysAway(cfg, s, e, c);
    }
  }

  lemma {:induction false} StopIsFinalFrom(cfg: Config, s: State, es: seq<Event>, c: nat)
    requires Inv(cfg, s) && s.ctl.stopped
    requires c < |s.flow.phases| ==> TurnedAway(s.flow.phases[c])
    ensures var t := Run(cfg, s, es);
            t.ctl.stopped && (c < |t.flow.phases| ==> TurnedAway(t.flow.phases[c]))
    decreases |es|
  {
    if es != [] {
      TurnedAwayStep(cfg, s, es[0], c);
      InvStep(cfg, s, es[0]);
      StopIsFinalFrom(cfg, Step(cfg, s, es[0]), es[1..], c);
    }
  }

  lemma {:induction false} RunAppend(cfg: Config, s: State, a: seq<Event>, b: seq<Event>)
    requires Sized(s.flow)
    ensures Run(cfg, s, a + b) == Run(cfg, Run(cfg, s, a), b)
    decreases |a|
  {
    if a == [] {
      assert a + b == b;
    } else {
      assert (a + b)[1..] == a[1..] + b;
      RunAppend(cfg, Step(cfg, s, a[0]), a[1..], b);
    }
  }

  lemma RunOneMore(cfg: Config, s: State, es: seq<Event>, i: nat)
    requires Sized(s.flow) && i < |es|
    ensures Run(cfg, s, es[..i + 1]) == Step(cfg, Run(cfg, s, es[..i]), es[i])
  {
    assert es[..i + 1] == es[..i] + [es[i]];
    RunAppend(cfg, s, es[..i], [es[i]]);
    assert [es[i]][1..] == [];
  }

  /** Stop is final, a later `Start` included: the flag stays set, and a call that had
      not made its check when it was set is never accepted or published; if it comes to
      an end, it is counted as dropped and not as received. */
  lemma StopIsFinal(cfg: Config, before: seq<Event>, after: seq<Event>, c: nat)
    requires var s := Run(cfg, Init(), before);
             s.ctl.stopped && (c < |s.flow.phases| ==> s.flow.phases[c] == Entered)
    ensures var t := Run(cfg, Init(), before + after);
            && t.ctl.stopped
            && (c < |t.flow.phases| ==> IsReceived(t.flow.phases[c]) == 0 && TurnedAway(t.flow.phases[c]))
            && (forall i :: 0 <= i < |t.logs.enqueued| ==> t.logs.enqueued[i].call != c)
            && (forall i :: 0 <= i < |t.logs.attempted| ==> t.logs.attempted[i].call != c)
  {
    Reachable(cfg, before);
    RunAppend(cfg, Init(), before, after);
    StopIsFinalFrom(cfg, Run(cfg, Init(), before), after, c);
    Reachable(cfg, before + after);
  }
}
