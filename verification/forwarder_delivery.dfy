/** From what arrives to what is published and counted, spelled out: which arguments, with
    which outcome, and what one undisturbed message goes through. */
module ForwarderDelivery {
  import opened Wrappers
  import opened ForwarderSpec
  import opened ForwarderTheorems
  import opened ForwarderOrder

  // ---- The calls are the arrivals ----

  function ArrivalOf(e: Event): seq<Call> {
    if e.Arrive? then [Call(e.topic, e.payload)] else []
  }

  function Arrivals(es: seq<Event>): seq<Call> {
    if es == [] then [] else ArrivalOf(es[0]) + Arrivals(es[1..])
  }

  lemma CallsStep(cfg: Config, s: State, e: Event)
    requires Sized(s.flow)
    ensures Step(cfg, s, e).flow.calls == s.flow.calls + ArrivalOf(e)
  {
    assert s.flow.calls + [] == s.flow.calls;
  }

  lemma {:induction false} CallsAreArrivals(cfg: Config, s: State, es: seq<Event>)
    requires Sized(s.flow)
    ensures Run(cfg, s, es).flow.calls == s.flow.calls + Arrivals(es)
    decreases |es|
  {
    hide Step;
    if es == [] {
      assert s.flow.calls + [] == s.flow.calls;
    } else {
      var t := Step(cfg, s, es[0]);
      CallsStep(cfg, s, es[0]);
      CallsAreArrivals(cfg, t, es[1..]);
      var first, rest := ArrivalOf(es[0]), Arrivals(es[1..]);
      assert s.flow.calls + first + rest == s.flow.calls + (first + rest);
    }
  }

  /** Each publish carries the bytes of one arrival, the configured QoS, and the topic the
      map gives for the topic of that arrival, or this topic when the map has none. */
  lemma PublishedAsMapped(cfg: Config, es: seq<Event>, i: nat)
    requires i < |Run(cfg, Init(), es).logs.published|
    ensures var s := Run(cfg, Init(), es);
            && i < |s.logs.attempted| && s.logs.attempted[i].call < |Arrivals(es)|
            && var a := Arrivals(es)[s.logs.attempted[i].call];
            && s.logs.published[i].topic == (if a.topic in cfg.topicMap then cfg.topicMap[a.topic] else a.topic)
            && s.logs.published[i].payload == a.payload
            && s.logs.published[i].qos == cfg.qos
  {
    hide Run;
    CallsAreArrivals(cfg, Init(), es);
    assert [] + Arrivals(es) == Arrivals(es);
    PublishProvenance(cfg, es, i);
  }

  // ---- Sent or failed is what the publish returned ----

  datatype Outcome = Outcome(call: nat, ok: bool)

  /** The call whose publish ends with this event, and how it ends. */
  ghost function OutcomeOf(s: State, e: Event): seq<Outcome> {
    if e.Return? && e.w < |s.flow.workers| && s.flow.workers[e.w].Publishing?
    then [Outcome(s.flow.workers[e.w].m.call, e.ok)] else []
  }

  ghost function Outcomes(cfg: Config, s: State, es: seq<Event>): seq<Outcome>
    requires Sized(s.flow)
    decreases |es|
  {
    if es == [] then [] else OutcomeOf(s, es[0]) + Outcomes(cfg, Step(cfg, s, es[0]), es[1..])
  }

  ghost predicate WorkerTold(x: Worker, log: seq<Outcome>) {
    && (x.Stamping? ==> Outcome(x.m.call, x.ok) in log)
    && (x.Counting? ==> Outcome(x.m.call, true) in log)
  }

  ghost predicate PhaseTold(p: Phase, c: nat, log: seq<Outcome>) {
    && (p == Sent ==> Outcome(c, true) in log)
    && (p == Failed ==> Outcome(c, false) in log)
  }

  /** What a worker past its publish, or a settled call, has behind it. */
  ghost predicate Told(f: Flow, log: seq<Outcome>) {
    && (forall w :: 0 <= w < |f.workers| ==> WorkerTold(f.workers[w], log))
    && (forall c :: 0 <= c < |f.phases| ==> PhaseTold(f.phases[c], c, log))
  }

  /** The publish of this call has ended. */
  ghost predicate Over(f: Flow, c: nat) {
    && (In(f, c, Taken) || In(f, c, Sent) || In(f, c, Failed))
    && forall w :: 0 <= w < |f.workers| && (f.workers[w].Holding? || f.workers[w].Publishing?) ==>
         f.workers[w].m.call != c
  }

  /** A call has one outcome, and only once its publish has ended. */
  ghost predicate ToldOnce(f: Flow, log: seq<Outcome>) {
    && (forall i, j :: 0 <= i < j < |log| ==> log[i].call != log[j].call)
    && (forall i :: 0 <= i < |log| ==> Over(f, log[i].call))
  }

  lemma WorkerToldStep(cfg: Config, s: State, e: Event, log: seq<Outcome>, w: nat)
    requires Sized(s.flow) && w < |Step(cfg, s, e).flow.workers|
    requires w < |s.flow.workers| ==> WorkerTold(s.flow.workers[w], log)
    ensures WorkerTold(Step(cfg, s, e).flow.workers[w], log + OutcomeOf(s, e))
  {
    if e.Return? && e.w == w {
      assert forall o :: (log + [o])[|log|] == o;
    }
  }

  lemma PhaseToldStep(cfg: Config, s: State, e: Event, log: seq<Outcome>, c: nat)
    requires Sized(s.flow) && c < |Step(cfg, s, e).flow.phases|
    requires c < |s.flow.phases| ==> PhaseTold(s.flow.phases[c], c, log)
    requires IsWorkerEvent(e) && e.w < |s.flow.workers| ==> WorkerTold(s.flow.workers[e.w], log)
    ensures PhaseTold(Step(cfg, s, e).flow.phases[c], c, log + OutcomeOf(s, e))
  {
  }

  lemma ToldStep(cfg: Config, s: State, e: Event, log: seq<Outcome>)
    requires Sized(s.flow) && Told(s.flow, log)
    ensures Told(Step(cfg, s, e).flow, log + OutcomeOf(s, e))
  {
    hide Step, WorkerTold, PhaseTold, OutcomeOf;
    var g, more := Step(cfg, s, e).flow, log + OutcomeOf(s, e);
    forall w | 0 <= w < |g.workers| ensures WorkerTold(g.workers[w], more) {
      WorkerToldStep(cfg, s, e, log, w);
    }
    forall c | 0 <= c < |g.phases| ensures PhaseTold(g.phases[c], c, more) {
      PhaseToldStep(cfg, s, e, log, c);
    }
  }

  /** A publish that has ended is not taken up again. */
  lemma StaysOver(cfg: Config, s: State, e: Event, c: nat)
    requires Sized(s.flow) && Carried(cfg, s.flow) && Over(s.flow, c)
    ensures Over(Step(cfg, s, e).flow, c)
  {
    hide Carried;
    if IsWorkerEvent(e) && e.w < |s.flow.workers| {
      CarriedPhases(cfg, s.flow, e.w);
    }
  }

  /** The call of this outcome was not over and now is. */
  lemma NowOver(cfg: Config, s: State, w: nat, ok: bool)
    requires Sized(s.flow) && Carried(cfg, s.flow) && w < |s.flow.workers| && s.flow.workers[w].Publishing?
    ensures !Over(s.flow, s.flow.workers[w].m.call)
    ensures Over(Step(cfg, s, Return(w, ok)).flow, s.flow.workers[w].m.call)
  {
    hide QueueOk;
    CarriedPhases(cfg, s.flow, w);
    assert forall v :: 0 <= v < |s.flow.workers| && v != w && Busy(s.flow.workers[v]) == 1 ==>
        s.flow.workers[v].m.call != s.flow.workers[w].m.call;
  }

  lemma ToldOnceStep(cfg: Config, s: State, e: Event, log: seq<Outcome>)
    requires Sized(s.flow) && Carried(cfg, s.flow) && ToldOnce(s.flow, log)
    ensures ToldOnce(Step(cfg, s, e).flow, log + OutcomeOf(s, e))
  {
    hide Step, Over, Carried;
    forall i | 0 <= i < |log| ensures Over(Step(cfg, s, e).flow, log[i].call) {
      StaysOver(cfg, s, e, log[i].call);
    }
    if e.Return? && e.w < |s.flow.workers| && s.flow.workers[e.w].Publishing? {
      NowOver(cfg, s, e.w, e.ok);
    }
  }

  lemma {:induction false} ToldRun(cfg: Config, s: State, es: seq<Event>, log: seq<Outcome>)
    requires Inv(cfg, s) && Told(s.flow, log) && ToldOnce(s.flow, log)
    ensures var all := log + Outcomes(cfg, s, es);
            Told(Run(cfg, s, es).flow, all) && ToldOnce(Run(cfg, s, es).flow, all)
    decreases |es|
  {
    hide Step, Told, ToldOnce, Inv, OutcomeOf;
    InvSized(cfg, s);
    if es == [] {
      assert log + [] == log;
    } else {
      ToldStep(cfg, s, es[0], log);
      ToldOnceStep(cfg, s, es[0], log);
      InvStep(cfg, s, es[0]);
      var more := log + OutcomeOf(s, es[0]);
      ToldRun(cfg, Step(cfg, s, es[0]), es[1..], more);
      var rest := Outcomes(cfg, Step(cfg, s, es[0]), es[1..]);
      assert more + rest == log + (OutcomeOf(s, es[0]) + rest);
    }
  }

  lemma InvSized(cfg: Config, s: State)
    requires Inv(cfg, s)
    ensures Sized(s.flow) && Carried(cfg, s.flow)
  {
  }

  lemma NothingTold(cfg: Config)
    ensures Inv(cfg, Init()) && Told(Init().flow, []) && ToldOnce(Init().flow, [])
  {
    StartsInv(cfg);
  }

  /** A settled message counts as sent exactly when its publish returned no error, and each
      call has one outcome at most. */
  lemma SettledAsReturned(cfg: Config, es: seq<Event>, c: nat)
    ensures var s, log := Run(cfg, Init(), es), Outcomes(cfg, Init(), es);
            && (In(s.flow, c, Sent) ==> Outcome(c, true) in log && Outcome(c, false) !in log)
            && (In(s.flow, c, Failed) ==> Outcome(c, false) in log && Outcome(c, true) !in log)
  {
    hide Run, Outcomes, Inv;
    NothingTold(cfg);
    ToldRun(cfg, Init(), es, []);
    assert [] + Outcomes(cfg, Init(), es) == Outcomes(cfg, Init(), es);
  }

  // ---- One undisturbed message ----

  lemma ToAWorker(cfg: Config, s: State, w: nat, call: Call) returns (es: seq<Event>, t: State)
    requires Sized(s.flow) && s.ctl.lock == Unlocked && !s.ctl.stopped && cfg.capacity >= 1 && s.flow.queue == []
    requires w < |s.flow.workers| && s.flow.workers[w] == Selecting
    ensures LeadsTo(cfg, s, es, t) && t.ctl == s.ctl
    ensures t.stats == s.stats.(received := (s.stats.received + 1) % TWO_64)
    ensures var c := |s.flow.calls|;
            t.flow == s.flow.(calls := s.flow.calls + [call], phases := s.flow.phases + [Taken],
                              workers := s.flow.workers[w := Holding(Msg(c, call.topic, call.payload, cfg.qos))])
    ensures t.logs.published == s.logs.published
  {
    hide LeadsTo, Run, Step;
    Starts(cfg, s);
    es, t := OneFilled(cfg, s, [], s, call);
    es, t := HandedOver(cfg, s, es, t, |s.flow.calls|, w);
    assert t.flow.phases == s.flow.phases + [Taken];
  }

  lemma Published(cfg: Config, start: State, es: seq<Event>, s: State, w: nat, ok: bool)
    returns (fs: seq<Event>, t: State)
    requires LeadsTo(cfg, start, es, s) && w < |s.flow.workers| && s.flow.workers[w].Holding?
    ensures LeadsTo(cfg, start, fs, t) && t.ctl == s.ctl && t.stats == s.stats
    ensures var m := s.flow.workers[w].m;
            && t.flow == s.flow.(workers := s.flow.workers[w := Stamping(m, ok)])
            && t.logs.published == s.logs.published
                 + [Publish(if m.topic in cfg.topicMap then cfg.topicMap[m.topic] else m.topic, m.payload, m.qos)]
  {
    hide LeadsTo, Run, CallStep, CtlStep, Spawned;
    fs, t := Onwards(cfg, start, es, s, PublishTo(w));
    fs, t := Onwards(cfg, start, fs, t, Return(w, ok));
  }

  lemma CountedAndReleased(cfg: Config, start: State, es: seq<Event>, s: State, w: nat)
    returns (fs: seq<Event>, t: State)
    requires LeadsTo(cfg, start, es, s) && s.ctl.lock == Unlocked
    requires w < |s.flow.workers| && s.flow.workers[w].Stamping? && s.flow.workers[w].m.call < |s.flow.phases|
    ensures LeadsTo(cfg, start, fs, t) && t.ctl == s.ctl && t.logs == s.logs
    ensures var x := s.flow.workers[w];
            && t.flow == s.flow.(phases := s.flow.phases[x.m.call := if x.ok then Sent else Failed],
                                 workers := s.flow.workers[w := Selecting])
            && t.stats == if x.ok then s.stats.(sent := (s.stats.sent + 1) % TWO_64) else s.stats
  {
    hide LeadsTo, Run, CallStep, CtlStep, Spawned;
    fs, t := Onwards(cfg, start, es, s, Stamp(w));
    if s.flow.workers[w].ok {
      fs, t := Onwards(cfg, start, fs, t, CountSent(w));
    }
    fs, t := Onwards(cfg, start, fs, t, Release(w));
  }

  /** Into an empty channel with a free worker: the message is published under the mapped
      topic, counted as received, and as sent exactly when the publish returns no error. */
  lemma OneDelivered(cfg: Config, s: State, w: nat, call: Call, ok: bool) returns (es: seq<Event>)
    requires Sized(s.flow) && s.ctl.lock == Unlocked && !s.ctl.stopped && cfg.capacity >= 1 && s.flow.queue == []
    requires w < |s.flow.workers| && s.flow.workers[w] == Selecting
    ensures var t := Run(cfg, s, es);
            && t.ctl == s.ctl && t.flow.workers == s.flow.workers && t.flow.queue == []
            && t.flow.phases == s.flow.phases + [if ok then Sent else Failed]
            && t.stats == Stats((s.stats.received + 1) % TWO_64,
                                if ok then (s.stats.sent + 1) % TWO_64 else s.stats.sent, s.stats.dropped)
            && t.logs.published == s.logs.published
                 + [Publish(if call.topic in cfg.topicMap then cfg.topicMap[call.topic] else call.topic,
                            call.payload, cfg.qos)]
  {
    hide LeadsTo, Run, Step;
    var t;
    es, t := ToAWorker(cfg, s, w, call);
    es, t := Published(cfg, s, es, t, w, ok);
    es, t := CountedAndReleased(cfg, s, es, t, w);
    assert t.flow.workers == s.flow.workers;
    assert t.flow.phases == s.flow.phases + [if ok then Sent else Failed];
    Ends(cfg, s, es, t);
  }

  lemma Ends(cfg: Config, start: State, es: seq<Event>, s: State)
    requires LeadsTo(cfg, start, es, s)
    ensures Run(cfg, start, es) == s
  {
  }

  /** A send succeeds exactly when the channel has room; the message goes to its end. */
  lemma AcceptedExactly(cfg: Config, s: State, c: nat)
    requires Sized(s.flow) && In(s.flow, c, Filled)
    ensures var t := Step(cfg, s, Offer(c));
            && (In(t.flow, c, Queued) <==> |s.flow.queue| < cfg.capacity)
            && (In(t.flow, c, Refused) <==> |s.flow.queue| >= cfg.capacity)
            && t.flow.queue == if |s.flow.queue| < cfg.capacity
                               then s.flow.queue + [Msg(c, s.flow.calls[c].topic, s.flow.calls[c].payload, cfg.qos)]
                               else s.flow.queue
  {
  }

  /** Into a full channel: counted as received and as dropped, and the channel is as before. */
  lemma OneRefused(cfg: Config, s: State, call: Call) returns (es: seq<Event>)
    requires Sized(s.flow) && s.ctl.lock == Unlocked && !s.ctl.stopped && |s.flow.queue| >= cfg.capacity
    ensures var t := Run(cfg, s, es);
            && t.flow.queue == s.flow.queue && t.flow.phases == s.flow.phases + [DroppedFull] && t.logs == s.logs
            && t.stats == Stats((s.stats.received + 1) % TWO_64, s.stats.sent, (s.stats.dropped + 1) % TWO_64)
  {
    hide LeadsTo, Run, WorkerStep, CtlStep, Spawned;
    var t;
    Starts(cfg, s);
    es, t := OneFilled(cfg, s, [], s, call);
    es, t := Onwards(cfg, s, es, t, Offer(|s.flow.calls|));
    es, t := Onwards(cfg, s, es, t, CountFullDrop(|s.flow.calls|));
    assert t.flow.phases == s.flow.phases + [DroppedFull];
    Ends(cfg, s, es, t);
  }

  /** After `Stop`: counted as dropped and not as received. */
  lemma OneTurnedAway(cfg: Config, s: State, call: Call) returns (es: seq<Event>)
    requires Sized(s.flow) && s.ctl.lock == Unlocked && s.ctl.stopped
    ensures var t := Run(cfg, s, es);
            && t.flow.queue == s.flow.queue && t.flow.phases == s.flow.phases + [DroppedStopped] && t.logs == s.logs
            && t.stats == s.stats.(dropped := (s.stats.dropped + 1) % TWO_64)
  {
    hide LeadsTo, Run, WorkerStep, CtlStep, Spawned;
    var t;
    Starts(cfg, s);
    es, t := Onwards(cfg, s, [], s, Arrive(call.topic, call.payload));
    es, t := Onwards(cfg, s, es, t, Check(|s.flow.calls|));
    es, t := Onwards(cfg, s, es, t, CountStopDrop(|s.flow.calls|));
    assert t.flow.phases == s.flow.phases + [DroppedStopped];
    Ends(cfg, s, es, t);
  }

  // ---- Start and Stop do something ----

  /** An undisturbed `Start` of a forwarder that is not running sets it running, with one
      worker more. */
  lemma StartRuns(cfg: Config, s: State) returns (es: seq<Event>)
    requires Sized(s.flow) && s.ctl.lock == Unlocked && !s.ctl.running
    ensures var t := Run(cfg, s, es);
            && t.ctl == s.ctl.(running := true) && t.stats == s.stats && t.logs == s.logs
            && t.flow == s.flow.(workers := s.flow.workers + [Selecting])
  {
    hide LeadsTo, Run, WorkerStep, CallStep;
    var t;
    Starts(cfg, s);
    es, t := Onwards(cfg, s, [], s, StartLock);
    es, t := Onwards(cfg, s, es, t, StartSpawn);
    es, t := Onwards(cfg, s, es, t, StartDone);
    Ends(cfg, s, es, t);
  }

  /** An undisturbed `Stop` of a running forwarder that was not stopped before stops it and
      closes the stop channel. */
  lemma StopStops(cfg: Config, s: State) returns (es: seq<Event>)
    requires Sized(s.flow) && Control(s.ctl) && s.ctl.lock == Unlocked && s.ctl.running && !s.ctl.stopped
    ensures var t := Run(cfg, s, es);
            && t.ctl == Ctl(Unlocked, false, true, true, true, 1)
            && t.flow == s.flow && t.stats == s.stats && t.logs == s.logs
  {
    hide LeadsTo, Run, WorkerStep, CallStep;
    var t;
    Starts(cfg, s);
    es, t := Onwards(cfg, s, [], s, StopLock);
    es, t := Onwards(cfg, s, es, t, StopMark);
    es, t := Onwards(cfg, s, es, t, StopClose);
    es, t := Onwards(cfg, s, es, t, StopUnlock);
    Ends(cfg, s, es, t);
  }

  ghost predicate ExitsOk(s: State) {
    forall w :: 0 <= w < |s.flow.workers| && s.flow.workers[w] == Exited ==> s.ctl.closed
  }

  lemma ExitsStep(cfg: Config, s: State, e: Event)
    requires Sized(s.flow) && ExitsOk(s)
    ensures ExitsOk(Step(cfg, s, e))
  {
  }

  lemma {:induction false} ExitsFrom(cfg: Config, s: State, es: seq<Event>)
    requires Sized(s.flow) && ExitsOk(s)
    ensures ExitsOk(Run(cfg, s, es))
    decreases |es|
  {
    hide Step, ExitsOk;
    if es != [] {
      ExitsStep(cfg, s, es[0]);
      ExitsFrom(cfg, Step(cfg, s, es[0]), es[1..]);
    }
  }

  /** No worker ends before `stopped` is set and the stop channel closed. */
  lemma WorkersStayUntilStop(cfg: Config, es: seq<Event>, w: nat)
    requires w < |Run(cfg, Init(), es).flow.workers| && Run(cfg, Init(), es).flow.workers[w] == Exited
    ensures Run(cfg, Init(), es).ctl.closed && Run(cfg, Init(), es).ctl.stopped
  {
    hide Run;
    ExitsFrom(cfg, Init(), es);
    Reachable(cfg, es);
  }
}
