/** How many workers there can be, and with how many the order of messages is kept. */
module ForwarderOrder {
  import opened Wrappers
  import opened ForwarderSpec
  import opened ForwarderTheorems

  // ---- Never more than two workers ----

  /** One worker for the `Start` before `Stop` took effect, and one for the `Start` after. */
  function WorkersOf(k: Ctl): nat {
    (if k.stopped then 1 else 0) + (if k.running || k.lock.StartSpawned? then 1 else 0)
  }

  lemma WorkersStep(cfg: Config, s: State, e: Event)
    requires Sized(s.flow) && Control(s.ctl) && |s.flow.workers| == WorkersOf(s.ctl)
    ensures |Step(cfg, s, e).flow.workers| == WorkersOf(Step(cfg, s, e).ctl)
  {
    hide CallStep;
    CallsKeepWorkers(cfg, s, e);
  }

  lemma CallsKeepWorkers(cfg: Config, s: State, e: Event)
    requires Sized(s.flow)
    ensures CallStep(cfg, s, e).flow.workers == s.flow.workers && CallStep(cfg, s, e).ctl == s.ctl
  {
  }

  lemma {:induction false} WorkersRun(cfg: Config, s: State, es: seq<Event>)
    requires Inv(cfg, s) && |s.flow.workers| == WorkersOf(s.ctl)
    ensures |Run(cfg, s, es).flow.workers| == WorkersOf(Run(cfg, s, es).ctl)
    decreases |es|
  {
    hide Step, WorkersOf, Counts, Carried, Logged, Fifo, Control;
    if es != [] {
      WorkersStep(cfg, s, es[0]);
      InvStep(cfg, s, es[0]);
      WorkersRun(cfg, Step(cfg, s, es[0]), es[1..]);
    }
  }

  /** However often `Start` and `Stop` are called, two workers at most are ever started:
      a second `Stop` has no effect, so a third `Start` finds the forwarder running. */
  lemma AtMostTwoWorkers(cfg: Config, es: seq<Event>)
    ensures |Run(cfg, Init(), es).flow.workers| <= 2
    ensures !Run(cfg, Init(), es).ctl.stopped ==> |Run(cfg, Init(), es).flow.workers| <= 1
  {
    hide Run, Step, Inv, Control;
    StartsInv(cfg);
    WorkersRun(cfg, Init(), es);
  }

  lemma StartsInv(cfg: Config)
    ensures Inv(cfg, Init())
  {
    hide Inv;
    Reachable(cfg, []);
  }

  // ---- A run that loses the order ----

  /** From state `start`, `es` leads to state `s`. */
  ghost predicate LeadsTo(cfg: Config, start: State, es: seq<Event>, s: State) {
    Sized(start.flow) && Run(cfg, start, es) == s
  }

  lemma Starts(cfg: Config, s: State)
    requires Sized(s.flow)
    ensures LeadsTo(cfg, s, [], s)
  {
  }

  lemma Onwards(cfg: Config, start: State, es: seq<Event>, s: State, e: Event) returns (fs: seq<Event>, t: State)
    requires LeadsTo(cfg, start, es, s)
    ensures LeadsTo(cfg, start, fs, t) && Sized(s.flow) && t == Step(cfg, s, e)
  {
    fs, t := es + [e], Step(cfg, s, e);
    RunAppend(cfg, start, es, [e]);
    assert [e][1..] == [];
  }

  /** One more call, undisturbed, up to the point where it offers its message. */
  lemma OneFilled(cfg: Config, start: State, es: seq<Event>, s: State, call: Call) returns (fs: seq<Event>, t: State)
    requires LeadsTo(cfg, start, es, s) && s.ctl.lock == Unlocked && !s.ctl.stopped
    ensures LeadsTo(cfg, start, fs, t) && t.ctl == s.ctl && t.logs == s.logs
    ensures t.stats == s.stats.(received := (s.stats.received + 1) % TWO_64)
    ensures t.flow == s.flow.(calls := s.flow.calls + [call], phases := s.flow.phases + [Filled])
  {
    hide LeadsTo, Run, WorkerStep, CtlStep, Spawned;
    var c := |s.flow.calls|;
    fs, t := Onwards(cfg, start, es, s, Arrive(call.topic, call.payload));
    fs, t := Onwards(cfg, start, fs, t, Check(c));
    fs, t := Onwards(cfg, start, fs, t, CountReceived(c));
    assert t.flow.phases == s.flow.phases + [Counted];
    fs, t := Onwards(cfg, start, fs, t, Acquire(c, 0));
    fs, t := Onwards(cfg, start, fs, t, Fill(c, 0));
  }

  /** `Start`, `Stop`, `Start` leaves two workers. */
  lemma Restarted(cfg: Config, start: State, es: seq<Event>, s: State) returns (fs: seq<Event>, t: State)
    requires LeadsTo(cfg, start, es, s) && s.ctl == Init().ctl && s.flow.workers == []
    ensures LeadsTo(cfg, start, fs, t) && t.flow == s.flow.(workers := [Selecting, Selecting]) && t.logs == s.logs
  {
    hide LeadsTo, Run, WorkerStep, CallStep;
    fs, t := Onwards(cfg, start, es, s, StartLock);
    fs, t := Onwards(cfg, start, fs, t, StartSpawn);
    fs, t := Onwards(cfg, start, fs, t, StartDone);
    fs, t := Onwards(cfg, start, fs, t, StopLock);
    fs, t := Onwards(cfg, start, fs, t, StopMark);
    fs, t := Onwards(cfg, start, fs, t, StopClose);
    fs, t := Onwards(cfg, start, fs, t, StopUnlock);
    fs, t := Onwards(cfg, start, fs, t, StartLock);
    fs, t := Onwards(cfg, start, fs, t, StartSpawn);
  }

  /** A message goes through the empty channel into the hands of a worker. */
  lemma HandedOver(cfg: Config, start: State, es: seq<Event>, s: State, c: nat, w: nat)
    returns (fs: seq<Event>, t: State)
    requires LeadsTo(cfg, start, es, s) && cfg.capacity >= 1 && s.flow.queue == []
    requires In(s.flow, c, Filled) && w < |s.flow.workers| && s.flow.workers[w] == Selecting
    ensures LeadsTo(cfg, start, fs, t) && c < |s.flow.calls|
    ensures var m := MsgOf(cfg, s.flow.calls, c);
            && t.flow == s.flow.(phases := s.flow.phases[c := Taken], workers := s.flow.workers[w := Holding(m)])
            && t.logs == s.logs.(enqueued := s.logs.enqueued + [m])
    ensures t.ctl == s.ctl && t.stats == s.stats
  {
    hide LeadsTo, Run, Step;
    SizedAt(cfg, start, es, s);
    OfferIs(cfg, s, c);
    fs, t := Onwards(cfg, start, es, s, Offer(c));
    var m := MsgOf(cfg, s.flow.calls, c);
    assert t.flow.queue == [m] && t.flow.queue[1..] == [];
    ReceiveIs(cfg, t, w);
    fs, t := Onwards(cfg, start, fs, t, Receive(w));
  }

  lemma SizedAt(cfg: Config, start: State, es: seq<Event>, s: State)
    requires LeadsTo(cfg, start, es, s)
    ensures Sized(s.flow)
  {
  }

  /** The message accepted second is published first. */
  lemma Overtaken(cfg: Config, start: State, es: seq<Event>, s: State) returns (fs: seq<Event>, t: State)
    requires LeadsTo(cfg, start, es, s) && cfg.capacity >= 1 && s.logs == Logs([], [], []) && s.flow.queue == []
    requires In(s.flow, 0, Filled) && In(s.flow, 1, Filled) && s.flow.workers == [Selecting, Selecting]
    ensures LeadsTo(cfg, start, fs, t) && |t.flow.workers| == 2 && |s.flow.calls| >= 2
    ensures t.logs.enqueued == [MsgOf(cfg, s.flow.calls, 0), MsgOf(cfg, s.flow.calls, 1)]
    ensures t.logs.published == [PublishOf(cfg, MsgOf(cfg, s.flow.calls, 1))]
  {
    hide LeadsTo, Run, CallStep, CtlStep, Spawned;
    fs, t := HandedOver(cfg, start, es, s, 0, 0);
    fs, t := HandedOver(cfg, start, fs, t, 1, 1);
    fs, t := Onwards(cfg, start, fs, t, PublishTo(1));
  }

  /** Every publish so far is the image of the message accepted at its place. */
  ghost predicate InOrder(cfg: Config, s: State) {
    && |s.logs.published| <= |s.logs.enqueued|
    && forall i :: 0 <= i < |s.logs.published| ==> s.logs.published[i] == PublishOf(cfg, s.logs.enqueued[i])
  }

  /** With two workers the order can be lost, whatever the capacity and the topic map. */
  lemma OrderNeedsOneStart(cfg: Config) returns (es: seq<Event>)
    requires cfg.capacity >= 1
    ensures var s := Run(cfg, Init(), es);
            && |s.flow.workers| == 2 && |s.logs.published| == 1 && |s.logs.enqueued| == 2
            && s.logs.published[0] == PublishOf(cfg, s.logs.enqueued[1])
            && s.logs.published[0] != PublishOf(cfg, s.logs.enqueued[0])
  {
    hide Run, Step;
    var s0, s := Init(), Init();
    Starts(cfg, s0);
    es, s := OneFilled(cfg, s0, [], s, Call("", [0]));
    es, s := OneFilled(cfg, s0, es, s, Call("", [1]));
    es, s := Restarted(cfg, s0, es, s);
    es, s := Overtaken(cfg, s0, es, s);
  }

  /** With so many workers started, every run keeps the order exactly when there is one
      at most. */
  lemma OrderExactly(cfg: Config, workers: nat)
    requires cfg.capacity >= 1
    ensures (forall es :: |Run(cfg, Init(), es).flow.workers| <= workers ==> InOrder(cfg, Run(cfg, Init(), es)))
            <==> workers <= 1
  {
    hide Run, Step;
    if workers <= 1 {
      forall es | |Run(cfg, Init(), es).flow.workers| <= workers ensures InOrder(cfg, Run(cfg, Init(), es)) {
        PublishOrder(cfg, es);
      }
    } else {
      var es := OrderNeedsOneStart(cfg);
      assert !InOrder(cfg, Run(cfg, Init(), es));
    }
  }
}
