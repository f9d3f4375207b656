/** The forwarder as an interleaving of atomic steps, with immutable messages: any number
    of `handleMessage` calls, `Start` and `Stop`, and one worker for each `Start`. */
module ForwarderSpec {
  import opened Wrappers
  import opened Tally

  /** `topicMap == map[]` also stands for a nil map: both map nothing. */
  datatype Config = Config(capacity: nat, topicMap: map<string, string>, qos: byte)

  /** How far one `handleMessage` call, and then its message, has come. */
  datatype Phase =
    | Entered          // before the check of `stopped`
    | SawStopped       // `stopped` read as true, drop not yet counted
    | DroppedStopped
    | Admitted         // `stopped` read as false, not yet counted as received
    | Counted          // counted as received
    | Acquired         // has a message object
    | Filled           // the message is complete
    | Refused          // the channel was full, drop not yet counted
    | DroppedFull
    | Queued
    | Taken            // received by a worker, outcome not yet counted
    | Sent
    | Failed

  datatype Call = Call(topic: string, payload: seq<byte>)

  /** A message carries the number of its call only for the specification. */
  datatype Msg = Msg(call: nat, topic: string, payload: seq<byte>, qos: byte)

  /** The arguments of one `PublishTo`. */
  datatype Publish = Publish(topic: string, payload: seq<byte>, qos: byte)

  datatype Worker =
    | Selecting
    | Exited
    | Holding(m: Msg)             // received, target topic not yet looked up
    | Publishing(m: Msg)          // inside `PublishTo`
    | Stamping(m: Msg, ok: bool)  // about to take the lock for `lastSent`/`lastError`
    | Counting(m: Msg)            // about to add to `msgSent`
    | Releasing                   // about to give the object back

  /** Who holds `mu` for writing, and how far it has come. */
  datatype Lock = Unlocked | StartHeld | StartSpawned | StopHeld | StopMarked | StopClosed

  datatype Ctl = Ctl(lock: Lock, running: bool, stopped: bool, once: bool, closed: bool, closes: nat)

  /** The three atomic uint64 counters. */
  datatype Stats = Stats(received: nat, sent: nat, dropped: nat)

  datatype Flow = Flow(calls: seq<Call>, phases: seq<Phase>, queue: seq<Msg>, workers: seq<Worker>)

  /** What went into the channel, what was taken to `PublishTo`, and with which arguments. */
  datatype Logs = Logs(enqueued: seq<Msg>, attempted: seq<Msg>, published: seq<Publish>)

  datatype State = State(ctl: Ctl, stats: Stats, flow: Flow, logs: Logs)

  function Init(): State {
    State(Ctl(Unlocked, false, false, false, false, 0), Stats(0, 0, 0), Flow([], [], [], []), Logs([], [], []))
  }

  datatype Event =
    | Arrive(topic: string, payload: seq<byte>)
    | Check(c: nat) | CountStopDrop(c: nat) | CountReceived(c: nat)
    | Acquire(c: nat, slot: nat) | Fill(c: nat, now: int) | Offer(c: nat)
    | CountFullDrop(c: nat) | ReleaseRefused(c: nat)
    | StartLock | StartFail | StartSpawn | StartDone
    | StopLock | StopMark | StopClose | StopUnlock
    | Exit(w: nat) | Receive(w: nat) | PublishTo(w: nat) | Return(w: nat, ok: bool)
    | Stamp(w: nat) | CountSent(w: nat) | Release(w: nat)
    | PoolTake(i: nat) | PoolUse(i: nat, topic: string, payload: seq<byte>) | PoolPut(i: nat)

  function Target(cfg: Config, topic: string): string {
    if topic in cfg.topicMap then cfg.topicMap[topic] else topic
  }

  function MsgOf(cfg: Config, calls: seq<Call>, c: nat): Msg
    requires c < |calls|
  {
    Msg(c, calls[c].topic, calls[c].payload, cfg.qos)
  }

  function PublishOf(cfg: Config, m: Msg): Publish {
    Publish(Target(cfg, m.topic), m.payload, m.qos)
  }

  /** Call `c` is in phase `p`. */
  predicate In(f: Flow, c: nat, p: Phase) {
    c < |f.phases| && f.phases[c] == p
  }

  function Move(f: Flow, c: nat, p: Phase): Flow
    requires c < |f.phases|
  {
    f.(phases := f.phases[c := p])
  }

  function SetWorker(f: Flow, w: nat, x: Worker): Flow
    requires w < |f.workers|
  {
    f.(workers := f.workers[w := x])
  }

  ghost predicate Sized(f: Flow) { |f.calls| == |f.phases| }

  /** The steps of `handleMessage`; a step that is not enabled changes nothing. */
  function CallStep(cfg: Config, s: State, e: Event): (t: State)
    requires |s.flow.calls| == |s.flow.phases|
    ensures |t.flow.calls| == |t.flow.phases|
  {
    var f, st := s.flow, s.stats;
    match e
    case Arrive(topic, payload) =>
      s.(flow := f.(calls := f.calls + [Call(topic, payload)], phases := f.phases + [Entered]))
    case Check(c) =>
      if In(f, c, Entered) && s.ctl.lock == Unlocked then
        s.(flow := Move(f, c, if s.ctl.stopped then SawStopped else Admitted))
      else s
    case CountStopDrop(c) =>
      if In(f, c, SawStopped) then
        s.(flow := Move(f, c, DroppedStopped), stats := st.(dropped := AddU64(st.dropped, 1)))
      else s
    case CountReceived(c) =>
      if In(f, c, Admitted) then
        s.(flow := Move(f, c, Counted), stats := st.(received := AddU64(st.received, 1)))
      else s
    case Acquire(c, _) => if In(f, c, Counted) then s.(flow := Move(f, c, Acquired)) else s
    case Fill(c, _) => if In(f, c, Acquired) then s.(flow := Move(f, c, Filled)) else s
    case Offer(c) =>
      if !In(f, c, Filled) then s
      else if |f.queue| < cfg.capacity then
        var m := MsgOf(cfg, f.calls, c);
        s.(flow := Move(f, c, Queued).(queue := f.queue + [m]), logs := s.logs.(enqueued := s.logs.enqueued + [m]))
      else s.(flow := Move(f, c, Refused))
    case CountFullDrop(c) =>
      if In(f, c, Refused) then
        s.(flow := Move(f, c, DroppedFull), stats := st.(dropped := AddU64(st.dropped, 1)))
      else s
    case _ => s
  }

  /** The steps of `Start` and `Stop` on the fields under the lock. */
  function CtlStep(k: Ctl, e: Event): Ctl {
    match e
    case StartLock => if k.lock == Unlocked && !k.running then k.(lock := StartHeld) else k
    case StartFail => if k.lock == StartHeld then k.(lock := Unlocked) else k
    case StartSpawn => if k.lock == StartHeld then k.(lock := StartSpawned) else k
    case StartDone => if k.lock == StartSpawned then k.(running := true, lock := Unlocked) else k
    case StopLock => if k.lock == Unlocked && k.running && !k.stopped then k.(lock := StopHeld) else k
    case StopMark =>
      if k.lock != StopHeld then k
      else if k.once then k.(lock := StopClosed)
      else k.(once := true, running := false, stopped := true, lock := StopMarked)
    case StopClose => if k.lock == StopMarked then k.(closed := true, closes := k.closes + 1, lock := StopClosed) else k
    case StopUnlock => if k.lock == StopClosed then k.(lock := Unlocked) else k
    case _ => k
  }

  /** `go sf.processMessages()` adds a worker. */
  function Spawned(k: Ctl, e: Event, f: Flow): Flow {
    if e.StartSpawn? && k.lock == StartHeld then f.(workers := f.workers + [Selecting]) else f
  }

  /** The steps of `processMessages` and `forwardMessage`. */
  function WorkerStep(cfg: Config, s: State, w: nat, e: Event): (t: State)
    requires w < |s.flow.workers|
    ensures |t.flow.calls| == |s.flow.calls| && |t.flow.phases| == |s.flow.phases|
  {
    var f, x := s.flow, s.flow.workers[w];
    match e
    case Exit(_) => if x == Selecting && s.ctl.closed then s.(flow := SetWorker(f, w, Exited)) else s
    case Receive(_) =>
      if x == Selecting && f.queue != [] && f.queue[0].call < |f.phases| then
        s.(flow := SetWorker(Move(f, f.queue[0].call, Taken), w, Holding(f.queue[0])).(queue := f.queue[1..]))
      else s
    case PublishTo(_) =>
      if x.Holding? then
        s.(flow := SetWorker(f, w, Publishing(x.m)),
           logs := s.logs.(attempted := s.logs.attempted + [x.m],
                           published := s.logs.published + [PublishOf(cfg, x.m)]))
      else s
    case Return(_, ok) => if x.Publishing? then s.(flow := SetWorker(f, w, Stamping(x.m, ok))) else s
    case Stamp(_) =>
      if x.Stamping? && s.ctl.lock == Unlocked && x.m.call < |f.phases| then
        s.(flow := if x.ok then SetWorker(f, w, Counting(x.m)) else SetWorker(Move(f, x.m.call, Failed), w, Releasing))
      else s
    case CountSent(_) =>
      if x.Counting? && x.m.call < |f.phases| then
        s.(flow := SetWorker(Move(f, x.m.call, Sent), w, Releasing),
           stats := s.stats.(sent := AddU64(s.stats.sent, 1)))
      else s
    case Release(_) => if x == Releasing then s.(flow := SetWorker(f, w, Selecting)) else s
    case _ => s
  }

  predicate IsWorkerEvent(e: Event) {
    e.Exit? || e.Receive? || e.PublishTo? || e.Return? || e.Stamp? || e.CountSent? || e.Release?
  }

  predicate IsControlEvent(e: Event) {
    || e.StartLock? || e.StartFail? || e.StartSpawn? || e.StartDone?
    || e.StopLock? || e.StopMark? || e.StopClose? || e.StopUnlock?
  }

  function Step(cfg: Config, s: State, e: Event): (t: State)
    requires |s.flow.calls| == |s.flow.phases|
    ensures |t.flow.calls| == |t.flow.phases|
  {
    if IsWorkerEvent(e) then (if e.w < |s.flow.workers| then WorkerStep(cfg, s, e.w, e) else s)
    else if IsControlEvent(e) then s.(ctl := CtlStep(s.ctl, e), flow := Spawned(s.ctl, e, s.flow))
    else CallStep(cfg, s, e)
  }

  // ---- Single steps, unfolded ----

  lemma AcquireIs(cfg: Config, s: State, c: nat, slot: nat)
    requires Sized(s.flow)
    ensures Step(cfg, s, Acquire(c, slot)) ==
              if In(s.flow, c, Counted) then s.(flow := Move(s.flow, c, Acquired)) else s
  {
  }

  lemma FillIs(cfg: Config, s: State, c: nat, now: int)
    requires Sized(s.flow)
    ensures Step(cfg, s, Fill(c, now)) == if In(s.flow, c, Acquired) then s.(flow := Move(s.flow, c, Filled)) else s
  {
  }

  lemma OfferIs(cfg: Config, s: State, c: nat)
    requires Sized(s.flow)
    ensures Step(cfg, s, Offer(c)) ==
              if !In(s.flow, c, Filled) then s
              else if |s.flow.queue| < cfg.capacity then
                var m := MsgOf(cfg, s.flow.calls, c);
                s.(flow := Move(s.flow, c, Queued).(queue := s.flow.queue + [m]),
                   logs := s.logs.(enqueued := s.logs.enqueued + [m]))
              else s.(flow := Move(s.flow, c, Refused))
  {
  }

  lemma ReceiveIs(cfg: Config, s: State, w: nat)
    requires Sized(s.flow)
    ensures var f := s.flow;
            Step(cfg, s, Receive(w)) ==
              if w < |f.workers| && f.workers[w] == Selecting && f.queue != [] && f.queue[0].call < |f.phases| then
                s.(flow := SetWorker(Move(f, f.queue[0].call, Taken), w, Holding(f.queue[0])).(queue := f.queue[1..]))
              else s
  {
  }

  lemma StampIs(cfg: Config, s: State, w: nat)
    requires Sized(s.flow)
    ensures var f := s.flow;
            Step(cfg, s, Stamp(w)) ==
              if && w < |f.workers| && f.workers[w].Stamping?
                 && s.ctl.lock == Unlocked && f.workers[w].m.call < |f.phases| then
                var m := f.workers[w].m;
                s.(flow := if f.workers[w].ok then SetWorker(f, w, Counting(m))
                           else SetWorker(Move(f, m.call, Failed), w, Releasing))
              else s
  {
  }

  lemma CountSentIs(cfg: Config, s: State, w: nat)
    requires Sized(s.flow)
    ensures var f := s.flow;
            Step(cfg, s, CountSent(w)) ==
              if w < |f.workers| && f.workers[w].Counting? && f.workers[w].m.call < |f.phases| then
                s.(flow := SetWorker(Move(f, f.workers[w].m.call, Sent), w, Releasing),
                   stats := s.stats.(sent := AddU64(s.stats.sent, 1)))
              else s
  {
  }

  /** What other users of the pool do is no step of the forwarder. */
  lemma PoolIs(cfg: Config, s: State, e: Event)
    requires Sized(s.flow) && (e.PoolTake? || e.PoolUse? || e.PoolPut?)
    ensures Step(cfg, s, e) == s
  {
  }

  // ---- Runs ----

  /** A schedule is any list of events. */
  function Run(cfg: Config, s: State, es: seq<Event>): (t: State)
    requires |s.flow.calls| == |s.flow.phases|
    ensures |t.flow.calls| == |t.flow.phases|
    decreases |es|
  {
    if es == [] then s else Run(cfg, Step(cfg, s, es[0]), es[1..])
  }

  // ---- Start and Stop ----

  ghost predicate Control(k: Ctl) {
    && (k.once <==> k.stopped)
    && (k.lock != StopMarked ==> (k.closed <==> k.stopped))
    && (k.lock == StopMarked ==> k.stopped && !k.closed)
    && (k.lock == StopHeld ==> k.running && !k.stopped)
    && (k.lock.StartHeld? || k.lock.StartSpawned? ==> !k.running)
    && k.closes == (if k.closed then 1 else 0)
  }

  lemma ControlKept(k: Ctl, e: Event)
    requires Control(k)
    ensures Control(CtlStep(k, e))
    ensures k.stopped ==> CtlStep(k, e).stopped
  {
  }

  // ---- Counters ----

  function Busy(x: Worker): nat {
    if x.Holding? || x.Publishing? || x.Stamping? || x.Counting? then 1 else 0
  }

  function IsReceived(p: Phase): nat {
    if p.Entered? || p.SawStopped? || p.DroppedStopped? || p.Admitted? then 0 else 1
  }

  function IsDropped(p: Phase): nat { if p.DroppedStopped? || p.DroppedFull? then 1 else 0 }
  function IsQueued(p: Phase): nat { if p.Queued? then 1 else 0 }
  function IsTaken(p: Phase): nat { if p.Taken? then 1 else 0 }
  function IsSent(p: Phase): nat { if p.Sent? then 1 else 0 }

  /** Each counter, and each place messages wait in, against the calls. */
  ghost predicate Counts(st: Stats, f: Flow) {
    && st.received == Sum(f.phases, IsReceived) % TWO_64
    && st.dropped == Sum(f.phases, IsDropped) % TWO_64
    && st.sent == Sum(f.phases, IsSent) % TWO_64
    && |f.queue| == Sum(f.phases, IsQueued)
    && Sum(f.workers, Busy) == Sum(f.phases, IsTaken)
  }

  lemma Moved(ph: seq<Phase>, c: nat, p: Phase)
    requires c < |ph|
    ensures Sum(ph[c := p], IsReceived) == Sum(ph, IsReceived) - IsReceived(ph[c]) + IsReceived(p)
    ensures Sum(ph[c := p], IsDropped) == Sum(ph, IsDropped) - IsDropped(ph[c]) + IsDropped(p)
    ensures Sum(ph[c := p], IsQueued) == Sum(ph, IsQueued) - IsQueued(ph[c]) + IsQueued(p)
    ensures Sum(ph[c := p], IsTaken) == Sum(ph, IsTaken) - IsTaken(ph[c]) + IsTaken(p)
    ensures Sum(ph[c := p], IsSent) == Sum(ph, IsSent) - IsSent(ph[c]) + IsSent(p)
  {
    SumSet(ph, c, p, IsReceived);
    SumSet(ph, c, p, IsDropped);
    SumSet(ph, c, p, IsQueued);
    SumSet(ph, c, p, IsTaken);
    SumSet(ph, c, p, IsSent);
  }

  lemma CountsKeptByCall(cfg: Config, s: State, e: Event)
    requires Sized(s.flow) && Counts(s.stats, s.flow)
    requires !IsWorkerEvent(e) && !IsControlEvent(e)
    ensures Counts(CallStep(cfg, s, e).stats, CallStep(cfg, s, e).flow)
  {
    hide Sum, AddU64;
    AddWraps(Sum(s.flow.phases, IsReceived), 1);
    AddWraps(Sum(s.flow.phases, IsDropped), 1);
    var t := CallStep(cfg, s, e);
    if e.Arrive? {
      SumPush(s.flow.phases, Entered, IsReceived);
      SumPush(s.flow.phases, Entered, IsDropped);
      SumPush(s.flow.phases, Entered, IsQueued);
      SumPush(s.flow.phases, Entered, IsTaken);
      SumPush(s.flow.phases, Entered, IsSent);
    } else if t != s {
      Moved(s.flow.phases, e.c, t.flow.phases[e.c]);
    }
  }

  /** A worker goes on, and the message of call `c` with it: the two sums agree still. */
  lemma WorkerMoved(st: Stats, f: Flow, w: nat, x: Worker, c: nat, p: Phase)
    requires Counts(st, f) && w < |f.workers| && c < |f.phases|
    requires Busy(x) - Busy(f.workers[w]) == IsTaken(p) - IsTaken(f.phases[c])
    requires IsReceived(p) == IsReceived(f.phases[c]) && IsDropped(p) == IsDropped(f.phases[c])
    ensures var g := SetWorker(Move(f, c, p), w, x);
            && Sum(g.workers, Busy) == Sum(g.phases, IsTaken)
            && st.received == Sum(g.phases, IsReceived) % TWO_64
            && st.dropped == Sum(g.phases, IsDropped) % TWO_64
            && Sum(g.phases, IsSent) == Sum(f.phases, IsSent) - IsSent(f.phases[c]) + IsSent(p)
            && Sum(g.phases, IsQueued) == |f.queue| - IsQueued(f.phases[c]) + IsQueued(p)
  {
    hide Sum;
    SumSet(f.workers, w, x, Busy);
    Moved(f.phases, c, p);
  }

  lemma CountsKeptByWorker(cfg: Config, s: State, w: nat, e: Event)
    requires Sized(s.flow) && Counts(s.stats, s.flow) && w < |s.flow.workers|
    requires s.flow.queue != [] ==> In(s.flow, s.flow.queue[0].call, Queued)
    requires Busy(s.flow.workers[w]) == 1 ==> In(s.flow, s.flow.workers[w].m.call, Taken)
    ensures Counts(WorkerStep(cfg, s, w, e).stats, WorkerStep(cfg, s, w, e).flow)
  {
    hide Sum, AddU64;
    var t, f, x := WorkerStep(cfg, s, w, e), s.flow, s.flow.workers[w];
    if t != s {
      if e.Receive? {
        WorkerMoved(s.stats, f, w, Holding(f.queue[0]), f.queue[0].call, Taken);
      } else if e.Stamp? && !x.ok {
        WorkerMoved(s.stats, f, w, Releasing, x.m.call, Failed);
      } else if e.CountSent? {
        WorkerMoved(s.stats, f, w, Releasing, x.m.call, Sent);
        AddWraps(Sum(f.phases, IsSent), 1);
      } else {
        SumSet(f.workers, w, t.flow.workers[w], Busy);
      }
    }
  }

  lemma CountsKept(cfg: Config, s: State, e: Event)
    requires Sized(s.flow) && Counts(s.stats, s.flow) && Carried(cfg, s.flow)
    ensures Counts(Step(cfg, s, e).stats, Step(cfg, s, e).flow)
  {
    hide Carried, CallStep, WorkerStep;
    if IsWorkerEvent(e) {
      if e.w < |s.flow.workers| {
        CarriedPhases(cfg, s.flow, e.w);
        CountsKeptByWorker(cfg, s, e.w, e);
      }
    } else if IsControlEvent(e) {
      SumPush(s.flow.workers, Selecting, Busy);
    } else {
      CountsKeptByCall(cfg, s, e);
    }
  }

  // ---- Every message belongs to one call and is in one place ----

  /** `m` is the message of its call, and that call is in phase `p`. */
  ghost predicate Belongs(cfg: Config, f: Flow, m: Msg, p: Phase) {
    In(f, m.call, p) && m.call < |f.calls| && m == MsgOf(cfg, f.calls, m.call)
  }

  ghost predicate Distinct(ms: seq<Msg>) {
    forall i, j :: 0 <= i < j < |ms| ==> ms[i].call != ms[j].call
  }

  ghost predicate QueueOk(cfg: Config, f: Flow) {
    && |f.queue| <= cfg.capacity
    && Distinct(f.queue)
    && forall i :: 0 <= i < |f.queue| ==> Belongs(cfg, f, f.queue[i], Queued)
  }

  ghost predicate WorkersOk(cfg: Config, f: Flow) {
    && (forall w :: 0 <= w < |f.workers| && Busy(f.workers[w]) == 1 ==> Belongs(cfg, f, f.workers[w].m, Taken))
    && (forall v, w :: 0 <= v < w < |f.workers| && Busy(f.workers[v]) == 1 && Busy(f.workers[w]) == 1
          ==> f.workers[v].m.call != f.workers[w].m.call)
  }

  ghost predicate Carried(cfg: Config, f: Flow) {
    QueueOk(cfg, f) && WorkersOk(cfg, f)
  }

  lemma CarriedPhases(cfg: Config, f: Flow, w: nat)
    requires Carried(cfg, f) && w < |f.workers|
    ensures f.queue != [] ==> In(f, f.queue[0].call, Queued)
    ensures Busy(f.workers[w]) == 1 ==> In(f, f.workers[w].m.call, Taken)
  {
    if f.queue != [] { assert Belongs(cfg, f, f.queue[0], Queued); }
    if Busy(f.workers[w]) == 1 { assert Belongs(cfg, f, f.workers[w].m, Taken); }
  }

  /** A move of a call whose message is in no place changes no message. */
  lemma QuietMove(cfg: Config, f: Flow, c: nat, p: Phase)
    requires Sized(f) && Carried(cfg, f) && c < |f.phases|
    requires f.phases[c] != Queued && f.phases[c] != Taken
    ensures Carried(cfg, Move(f, c, p))
  {
  }

  lemma AcceptKeeps(cfg: Config, f: Flow, c: nat)
    requires Sized(f) && Carried(cfg, f) && In(f, c, Filled) && |f.queue| < cfg.capacity
    ensures Carried(cfg, Move(f, c, Queued).(queue := f.queue + [MsgOf(cfg, f.calls, c)]))
  {
    var g := Move(f, c, Queued).(queue := f.queue + [MsgOf(cfg, f.calls, c)]);
    assert WorkersOk(cfg, g);
    forall i | 0 <= i < |g.queue| ensures Belongs(cfg, g, g.queue[i], Queued) { }
  }

  lemma ReceiveKeeps(cfg: Config, f: Flow, w: nat)
    requires Sized(f) && Carried(cfg, f) && w < |f.workers| && f.workers[w] == Selecting && f.queue != []
    ensures Carried(cfg, SetWorker(Move(f, f.queue[0].call, Taken), w, Holding(f.queue[0])).(queue := f.queue[1..]))
  {
    var m := f.queue[0];
    assert Belongs(cfg, f, m, Queued);
    var g := SetWorker(Move(f, m.call, Taken), w, Holding(m)).(queue := f.queue[1..]);
    forall i | 0 <= i < |g.queue| ensures Belongs(cfg, g, g.queue[i], Queued) {
      assert g.queue[i] == f.queue[i + 1];
    }
    assert Belongs(cfg, g, m, Taken);
  }

  /** A worker goes on with its message, or settles it and lets it go. */
  lemma AdvanceKeeps(cfg: Config, f: Flow, w: nat, x: Worker)
    requires Sized(f) && Carried(cfg, f) && w < |f.workers|
    requires Busy(x) == 1 ==> Busy(f.workers[w]) == 1 && x.m == f.workers[w].m
    ensures Carried(cfg, SetWorker(f, w, x))
  {
  }

  lemma SettleKeeps(cfg: Config, f: Flow, w: nat, p: Phase)
    requires Sized(f) && Carried(cfg, f) && w < |f.workers| && Busy(f.workers[w]) == 1
    ensures Carried(cfg, SetWorker(Move(f, f.workers[w].m.call, p), w, Releasing))
  {
  }

  /** A call that arrives, or a worker that starts, changes no message. */
  lemma NewcomerKeeps(cfg: Config, f: Flow, call: Call)
    requires Sized(f) && Carried(cfg, f)
    ensures Carried(cfg, f.(calls := f.calls + [call], phases := f.phases + [Entered]))
    ensures Carried(cfg, f.(workers := f.workers + [Selecting]))
  {
  }

  lemma CarriedKept(cfg: Config, s: State, e: Event)
    requires Sized(s.flow) && Carried(cfg, s.flow)
    ensures Sized(Step(cfg, s, e).flow) && Carried(cfg, Step(cfg, s, e).flow)
  {
    hide Carried;
    var f, t := s.flow, Step(cfg, s, e);
    if t.flow != f {
      if e.Offer? && |f.queue| < cfg.capacity {
        AcceptKeeps(cfg, f, e.c);
      } else if e.Receive? {
        ReceiveKeeps(cfg, f, e.w);
      } else if e.CountSent? {
        SettleKeeps(cfg, f, e.w, Sent);
      } else if e.Stamp? && !f.workers[e.w].ok {
        SettleKeeps(cfg, f, e.w, Failed);
      } else if IsWorkerEvent(e) {
        AdvanceKeeps(cfg, f, e.w, t.flow.workers[e.w]);
      } else if e.Arrive? {
        NewcomerKeeps(cfg, f, Call(e.topic, e.payload));
      } else if e.StartSpawn? {
        NewcomerKeeps(cfg, f, Call("", []));
      } else {
        QuietMove(cfg, f, e.c, t.flow.phases[e.c]);
      }
    }
  }
}
