/** The forwarder with pooled messages that are filled, read and reset in place. Each
    method is one atomic step of some goroutine; any order of calls is an interleaving. */
module Forwarder {
  import opened Wrappers
  import opened ObjectPool
  import opened ForwarderSpec
  import opened ForwarderTheorems
  import opened Ownership

  const DEFAULT_BUFFER_SIZE: nat := 100

  datatype Creation = Created(f: Forwarder) | NoSourceSession | NoSourceTopics | NoTargetSession

  method NewForwarder(sourceSession: string, sourceTopics: seq<string>, targetSession: string,
                      topicMap: map<string, string>, qos: byte, bufferSize: int)
    returns (r: Creation)
    ensures r.NoSourceSession? <==> sourceSession == ""
    ensures r.NoSourceTopics? <==> sourceSession != "" && sourceTopics == []
    ensures r.NoTargetSession? <==> sourceSession != "" && sourceTopics != [] && targetSession == ""
    ensures r.Created? ==> fresh(r.f) && r.f.Valid() && r.f.abs == Init() && fresh(Footprint(r.f.at))
    ensures r.Created? ==>
              r.f.cfg == Config(if bufferSize > 0 then bufferSize else 100, topicMap, qos)
  {
    if sourceSession == "" { return NoSourceSession; }
    if |sourceTopics| == 0 { return NoSourceTopics; }
    if targetSession == "" { return NoTargetSession; }
    var capacity := DEFAULT_BUFFER_SIZE;
    if bufferSize > 0 { capacity := bufferSize; }
    var f := new Forwarder(Config(capacity, topicMap, qos));
    return Created(f);
  }

  class Forwarder {
    const cfg: Config
    var lock: Lock
    var running: bool
    var stopped: bool
    var once: bool
    var closed: bool
    ghost var closes: nat
    var msgReceived: nat
    var msgSent: nat
    var msgDropped: nat
    var calls: seq<Call>
    var pcs: seq<Pc>
    var messageCh: seq<PooledMessage>
    var workers: seq<Hand>
    var pool: seq<PooledMessage>   // free objects of the global pool
    var lent: seq<PooledMessage>   // objects other users of the global pool hold
    var published: seq<Publish>    // the arguments of every `PublishTo` so far
    ghost var abs: State           // the same run with immutable messages
    ghost var at: Places

    ghost function CurrentRefs(): Refs
      reads this
    {
      Refs(pcs, messageCh, workers, pool, lent)
    }

    ghost predicate Fields()
      reads this
    {
      && abs.ctl == Ctl(lock, running, stopped, once, closed, closes)
      && abs.stats == Stats(msgReceived, msgSent, msgDropped)
      && abs.flow.calls == calls
      && abs.logs.published == published
    }

    ghost predicate Valid()
      reads this, at.Keys, set o | o in at.Keys :: o.data
    {
      Inv(cfg, abs) && Fields() && Tied(cfg, abs.flow, CurrentRefs(), at) && ObjectsOk(at)
    }

    constructor (cfg: Config)
      ensures Valid() && abs == Init() && at == map[] && this.cfg == cfg
    {
      hide Inv, Tied, ObjectsOk;
      this.cfg := cfg;
      lock, running, stopped, once, closed, closes := Unlocked, false, false, false, false, 0;
      msgReceived, msgSent, msgDropped := 0, 0, 0;
      calls, pcs, messageCh, workers, pool, lent, published := [], [], [], [], [], [], [];
      abs, at := Init(), map[];
      new;
      StartsTied(cfg);
    }

    // ---- GetMessage and PutMessage ----

    /** Some free object, or a new one when `slot` names none; reset either way. */
    method GetMessage(slot: nat, ghost p: Place) returns (m: PooledMessage)
      requires ObjectsOk(at) && Want(p).None?
      requires slot < |pool| ==> pool[slot] in at
      modifies this`pool, if slot < |pool| then {pool[slot]} else {}
      ensures m.Blank()
      ensures ObjectsOk(at[m := p]) && fresh(Footprint(at[m := p]) - old(Footprint(at)))
      ensures slot < |old(pool)| ==>
                m == old(pool)[slot] && m.data == old(m.data) && pool == old(pool)[..slot] + old(pool)[slot + 1..]
      ensures slot >= |old(pool)| ==> fresh(m) && fresh(m.data) && pool == old(pool)
    {
      hide ObjectsOk;
      if slot < |pool| {
        m := pool[slot];
        pool := pool[..slot] + pool[slot + 1..];
        ResetMessage(m, at, p);
      } else {
        m := new PooledMessage();
        ObjectArrays(at);
        ObjectAdded(at, m, p);
        ResetMessage(m, at[m := p], p);
        assert at[m := p][m := p] == at[m := p];
      }
    }

    method PutMessage(m: PooledMessage)
      requires ObjectsOk(at) && m in at
      modifies this`pool, m
      ensures m.Blank()
      ensures ObjectsOk(at[m := InPool]) && Footprint(at[m := InPool]) == old(Footprint(at))
      ensures pool == old(pool) + [m]
    {
      hide ObjectsOk;
      ResetMessage(m, at, InPool);
      pool := pool + [m];
    }

    // ---- handleMessage ----

    method Arrive(topic: string, payload: seq<byte>)
      requires Valid()
      modifies this
      ensures Valid() && abs == Step(cfg, old(abs), ForwarderSpec.Arrive(topic, payload)) && at == old(at)
    {
      hide Inv, ObjectsOk, Tied, WorkerStep, CtlStep, Spawned;
      InvStep(cfg, abs, ForwarderSpec.Arrive(topic, payload));
      ArriveTied(cfg, abs.flow, CurrentRefs(), at, Call(topic, payload));
      calls := calls + [Call(topic, payload)];
      pcs := pcs + [AtCheck];
      abs := Step(cfg, abs, ForwarderSpec.Arrive(topic, payload));
    }

    /** Read `stopped` under the read lock. */
    method Check(c: nat)
      requires Valid()
      modifies this
      ensures Valid() && abs == Step(cfg, old(abs), ForwarderSpec.Check(c)) && at == old(at)
    {
      hide Inv, ObjectsOk, Tied, WorkerStep, CtlStep, Spawned;
      CallFacts(cfg, abs.flow, CurrentRefs(), at, c);
      InvStep(cfg, abs, ForwarderSpec.Check(c));
      if c < |pcs| && pcs[c].AtCheck? && lock == Unlocked {
        var next := if stopped then AtStopDrop else AtCount;
        CallTied(cfg, abs.flow, CurrentRefs(), at, c, next, if stopped then SawStopped else Admitted);
        pcs := pcs[c := next];
      }
      abs := Step(cfg, abs, ForwarderSpec.Check(c));
    }

    method CountStopDrop(c: nat)
      requires Valid()
      modifies this
      ensures Valid() && abs == Step(cfg, old(abs), ForwarderSpec.CountStopDrop(c)) && at == old(at)
    {
      hide Inv, ObjectsOk, Tied, WorkerStep, CtlStep, Spawned;
      CallFacts(cfg, abs.flow, CurrentRefs(), at, c);
      InvStep(cfg, abs, ForwarderSpec.CountStopDrop(c));
      if c < |pcs| && pcs[c].AtStopDrop? {
        CallTied(cfg, abs.flow, CurrentRefs(), at, c, Returned, DroppedStopped);
        msgDropped := AddU64(msgDropped, 1);
        pcs := pcs[c := Returned];
      }
      abs := Step(cfg, abs, ForwarderSpec.CountStopDrop(c));
    }

    method CountReceived(c: nat)
      requires Valid()
      modifies this
      ensures Valid() && abs == Step(cfg, old(abs), ForwarderSpec.CountReceived(c)) && at == old(at)
    {
      hide Inv, ObjectsOk, Tied, WorkerStep, CtlStep, Spawned;
      CallFacts(cfg, abs.flow, CurrentRefs(), at, c);
      InvStep(cfg, abs, ForwarderSpec.CountReceived(c));
      if c < |pcs| && pcs[c].AtCount? {
        CallTied(cfg, abs.flow, CurrentRefs(), at, c, AtGet, Counted);
        msgReceived := AddU64(msgReceived, 1);
        pcs := pcs[c := AtGet];
      }
      abs := Step(cfg, abs, ForwarderSpec.CountReceived(c));
    }

    /** The call gets an object; the immutable run has not moved yet. */
    method Take(c: nat, slot: nat)
      requires Tied(cfg, abs.flow, CurrentRefs(), at) && ObjectsOk(at)
      requires c < |pcs| && pcs[c].AtGet? && c < |abs.flow.phases|
      requires slot < |pool| ==> pool[slot] in at
      modifies this`pcs, this`pool, this`at, at.Keys
      ensures Tied(cfg, Move(abs.flow, c, Acquired), CurrentRefs(), at) && ObjectsOk(at)
      ensures fresh(Footprint(at) - old(Footprint(at)))
    {
      hide Tied, ObjectsOk, Footprint;
      ghost var before := CurrentRefs();
      var m := GetMessage(slot, AtCall(c, None));
      AcquireTied(cfg, abs.flow, before, at, c, m, slot, pool);
      pcs := pcs[c := AtFill(m)];
      at := at[m := AtCall(c, None)];
    }

    /** Take a message object from the pool. */
    method Acquire(c: nat, slot: nat)
      requires Valid()
      modifies this, at.Keys
      ensures Valid() && abs == Step(cfg, old(abs), ForwarderSpec.Acquire(c, slot))
      ensures fresh(Footprint(at) - old(Footprint(at)))
    {
      hide Inv, Tied, ObjectsOk, Step, Footprint;
      ghost var e := ForwarderSpec.Acquire(c, slot);
      AcquireReady(cfg, abs, CurrentRefs(), at, c, slot);
      if c < |pcs| && pcs[c].AtGet? {
        Take(c, slot);
      }
      abs := Step(cfg, abs, e);
    }

    /** Fill the object in place. */
    method Fill(c: nat, now: int)
      requires Valid()
      modifies this, at.Keys, set o | o in at.Keys :: o.data
      ensures Valid() && abs == Step(cfg, old(abs), ForwarderSpec.Fill(c, now))
      ensures fresh(Footprint(at) - old(Footprint(at)))
    {
      hide Inv, Tied, ObjectsOk, Step;
      ghost var e := ForwarderSpec.Fill(c, now);
      FillReady(cfg, abs, CurrentRefs(), at, c, now);
      if c < |pcs| && pcs[c].AtFill? {
        var m := pcs[c].m;
        CallTied(cfg, abs.flow, CurrentRefs(), at, c, AtSend(m), Filled);
        ghost var place := AtCall(c, Some(MsgOf(cfg, calls, c)));
        FillMessage(m, calls[c].topic, calls[c].payload, cfg.qos, now, at, place);
        pcs := pcs[c := AtSend(m)];
        at := at[m := place];
      }
      abs := Step(cfg, abs, e);
    }

    /** The non-blocking send. */
    method Offer(c: nat)
      requires Valid()
      modifies this
      ensures Valid() && abs == Step(cfg, old(abs), ForwarderSpec.Offer(c)) && at.Keys == old(at.Keys)
    {
      hide Inv, Tied, ObjectsOk, Step;
      ghost var e := ForwarderSpec.Offer(c);
      OfferReady(cfg, abs, CurrentRefs(), at, c);
      if c < |pcs| && pcs[c].AtSend? {
        var m := pcs[c].m;
        if |messageCh| < cfg.capacity {
          AcceptTied(cfg, abs.flow, CurrentRefs(), at, c);
          ObjectMoved(at, m, InQueue(MsgOf(cfg, calls, c)));
          messageCh := messageCh + [m];
          pcs := pcs[c := Returned];
          at := at[m := InQueue(MsgOf(cfg, calls, c))];
        } else {
          CallTied(cfg, abs.flow, CurrentRefs(), at, c, AtFullDrop(m), Refused);
          ObjectMoved(at, m, AtCall(c, None));
          pcs := pcs[c := AtFullDrop(m)];
          at := at[m := AtCall(c, None)];
        }
      }
      abs := Step(cfg, abs, e);
    }

    method CountFullDrop(c: nat)
      requires Valid()
      modifies this
      ensures Valid() && abs == Step(cfg, old(abs), ForwarderSpec.CountFullDrop(c)) && at == old(at)
    {
      hide Inv, ObjectsOk, Tied, WorkerStep, CtlStep, Spawned;
      CallFacts(cfg, abs.flow, CurrentRefs(), at, c);
      InvStep(cfg, abs, ForwarderSpec.CountFullDrop(c));
      if c < |pcs| && pcs[c].AtFullDrop? {
        var m := pcs[c].m;
        CallTied(cfg, abs.flow, CurrentRefs(), at, c, AtPut(m), DroppedFull);
        assert at[m := CallPlace(cfg, abs.flow, AtPut(m), c)] == at;
        msgDropped := AddU64(msgDropped, 1);
        pcs := pcs[c := AtPut(m)];
      }
      abs := Step(cfg, abs, ForwarderSpec.CountFullDrop(c));
    }

    /** `PutMessage` on a refused message. */
    method ReleaseRefused(c: nat)
      requires Valid()
      modifies this, at.Keys
      ensures Valid() && abs == Step(cfg, old(abs), ForwarderSpec.ReleaseRefused(c))
      ensures Footprint(at) == old(Footprint(at))
    {
      hide Inv, Tied, ObjectsOk, WorkerStep, CtlStep, Spawned, Footprint;
      CallFacts(cfg, abs.flow, CurrentRefs(), at, c);
      ghost var e := ForwarderSpec.ReleaseRefused(c);
      InvStep(cfg, abs, e);
      if c < |pcs| && pcs[c].AtPut? {
        var m := pcs[c].m;
        CallReleaseTied(cfg, abs.flow, CurrentRefs(), at, c);
        PutMessage(m);
        pcs := pcs[c := Returned];
        at := at[m := InPool];
      }
      abs := Step(cfg, abs, e);
    }

    // ---- Start and Stop, one assignment at a time under the lock ----

    method StartLock() returns (alreadyRunning: bool)
      requires Valid()
      modifies this
      ensures Valid() && abs == Step(cfg, old(abs), ForwarderSpec.StartLock) && at == old(at)
      ensures alreadyRunning <==> old(running) && lock == old(lock)
    {
      hide Inv, ObjectsOk, Tied, WorkerStep, CallStep;
      InvStep(cfg, abs, ForwarderSpec.StartLock);
      alreadyRunning := running;
      if lock == Unlocked && !running {
        lock := StartHeld;
      }
      abs := Step(cfg, abs, ForwarderSpec.StartLock);
    }

    /** The session is missing or a subscription fails. */
    method StartFail()
      requires Valid()
      modifies this
      ensures Valid() && abs == Step(cfg, old(abs), ForwarderSpec.StartFail) && at == old(at)
    {
      hide Inv, ObjectsOk, Tied, WorkerStep, CallStep;
      InvStep(cfg, abs, ForwarderSpec.StartFail);
      if lock == StartHeld {
        lock := Unlocked;
      }
      abs := Step(cfg, abs, ForwarderSpec.StartFail);
    }

    method StartSpawn()
      requires Valid()
      modifies this
      ensures Valid() && abs == Step(cfg, old(abs), ForwarderSpec.StartSpawn) && at == old(at)
    {
      hide Inv, ObjectsOk, Tied, WorkerStep, CallStep;
      InvStep(cfg, abs, ForwarderSpec.StartSpawn);
      if lock == StartHeld {
        SpawnTied(cfg, abs.flow, CurrentRefs(), at);
        workers := workers + [AtSelect];
        lock := StartSpawned;
      }
      abs := Step(cfg, abs, ForwarderSpec.StartSpawn);
    }

    method StartDone()
      requires Valid()
      modifies this
      ensures Valid() && abs == Step(cfg, old(abs), ForwarderSpec.StartDone) && at == old(at)
    {
      hide Inv, ObjectsOk, Tied, WorkerStep, CallStep;
      InvStep(cfg, abs, ForwarderSpec.StartDone);
      if lock == StartSpawned {
        running := true;
        lock := Unlocked;
      }
      abs := Step(cfg, abs, ForwarderSpec.StartDone);
    }

    method StopLock()
      requires Valid()
      modifies this
      ensures Valid() && abs == Step(cfg, old(abs), ForwarderSpec.StopLock) && at == old(at)
    {
      hide Inv, ObjectsOk, Tied, WorkerStep, CallStep;
      InvStep(cfg, abs, ForwarderSpec.StopLock);
      if lock == Unlocked {
        if running && !stopped {
          lock := StopHeld;
        }
      }
      abs := Step(cfg, abs, ForwarderSpec.StopLock);
    }

    method StopMark()
      requires Valid()
      modifies this
      ensures Valid() && abs == Step(cfg, old(abs), ForwarderSpec.StopMark) && at == old(at)
    {
      hide Inv, ObjectsOk, Tied, WorkerStep, CallStep;
      InvStep(cfg, abs, ForwarderSpec.StopMark);
      if lock == StopHeld {
        if once {
          lock := StopClosed;
        } else {
          once := true;
          running := false;
          stopped := true;
          lock := StopMarked;
        }
      }
      abs := Step(cfg, abs, ForwarderSpec.StopMark);
    }

    method StopClose()
      requires Valid()
      modifies this
      ensures Valid() && abs == Step(cfg, old(abs), ForwarderSpec.StopClose) && at == old(at)
    {
      hide Inv, ObjectsOk, Tied, WorkerStep, CallStep;
      InvStep(cfg, abs, ForwarderSpec.StopClose);
      if lock == StopMarked {
        closed := true;
        closes := closes + 1;
        lock := StopClosed;
      }
      abs := Step(cfg, abs, ForwarderSpec.StopClose);
    }

    method StopUnlock()
      requires Valid()
      modifies this
      ensures Valid() && abs == Step(cfg, old(abs), ForwarderSpec.StopUnlock) && at == old(at)
    {
      hide Inv, ObjectsOk, Tied, WorkerStep, CallStep;
      InvStep(cfg, abs, ForwarderSpec.StopUnlock);
      if lock == StopClosed {
        lock := Unlocked;
      }
      abs := Step(cfg, abs, ForwarderSpec.StopUnlock);
    }

    // ---- processMessages and forwardMessage ----

    method Exit(w: nat)
      requires Valid()
      modifies this
      ensures Valid() && abs == Step(cfg, old(abs), ForwarderSpec.Exit(w)) && at == old(at)
    {
      hide Inv, ObjectsOk, Tied, CallStep, CtlStep, Spawned;
      HandFacts(cfg, abs.flow, CurrentRefs(), at, w);
      InvStep(cfg, abs, ForwarderSpec.Exit(w));
      if w < |workers| && workers[w].AtSelect? && closed {
        HandTied(cfg, abs.flow, CurrentRefs(), at, w, Gone, Exited);
        workers := workers[w := Gone];
      }
      abs := Step(cfg, abs, ForwarderSpec.Exit(w));
    }

    method Receive(w: nat)
      requires Valid()
      modifies this
      ensures Valid() && abs == Step(cfg, old(abs), ForwarderSpec.Receive(w)) && at.Keys == old(at.Keys)
    {
      hide Inv, Carried, Tied, ObjectsOk, Step;
      InvFacts(cfg, abs);
      ReceiveIs(cfg, abs, w);
      HandFacts(cfg, abs.flow, CurrentRefs(), at, w);
      ChannelFacts(cfg, abs.flow, CurrentRefs(), at);
      ghost var e := ForwarderSpec.Receive(w);
      InvStep(cfg, abs, e);
      if w < |workers| && workers[w].AtSelect? && |messageCh| > 0 {
        ReceiveTied(cfg, abs.flow, CurrentRefs(), at, w);
        var m := messageCh[0];
        ObjectMoved(at, m, AtWorker(w, Some(abs.flow.queue[0])));
        at := at[m := AtWorker(w, Some(abs.flow.queue[0]))];
        messageCh := messageCh[1..];
        workers := workers[w := Received(m)];
      }
      abs := Step(cfg, abs, e);
    }

    /** Look up the target topic and call `PublishTo` with what the object
        holds at this moment. */
    method PublishTo(w: nat)
      requires Valid()
      modifies this
      ensures Valid() && abs == Step(cfg, old(abs), ForwarderSpec.PublishTo(w)) && at == old(at)
      ensures w < |old(workers)| && old(workers[w]).Received? ==>
                var m := old(workers[w]).m;
                && m.Valid()
                && published == old(published)
                     + [Publish(if m.topic in cfg.topicMap then cfg.topicMap[m.topic] else m.topic,
                                m.Contents(), cfg.qos)]
    {
      hide Inv, Tied, ObjectsOk, CallStep, CtlStep, Spawned;
      HandFacts(cfg, abs.flow, CurrentRefs(), at, w);
      ghost var e := ForwarderSpec.PublishTo(w);
      InvStep(cfg, abs, e);
      if w < |workers| && workers[w].Received? {
        var m := workers[w].m;
        ghost var x := Publishing(abs.flow.workers[w].m);
        HandTied(cfg, abs.flow, CurrentRefs(), at, w, InPublish(m), x);
        assert at[m := HandPlace(x, w)] == at;
        ObjectShows(at, m);
        HeldQos(cfg, abs, w);
        var targetTopic := m.topic;
        if m.topic in cfg.topicMap {
          targetTopic := cfg.topicMap[m.topic];
        }
        published := published + [Publish(targetTopic, m.data[..m.len], cfg.qos)];
        workers := workers[w := InPublish(m)];
      }
      abs := Step(cfg, abs, e);
    }

    /** `PublishTo` returns, with or without an error; the object still shows what was
        given to it. */
    method Return(w: nat, ok: bool)
      requires Valid()
      modifies this
      ensures Valid() && abs == Step(cfg, old(abs), ForwarderSpec.Return(w, ok)) && at == old(at)
    {
      hide Inv, ObjectsOk, Tied, CallStep, CtlStep, Spawned;
      HandFacts(cfg, abs.flow, CurrentRefs(), at, w);
      ghost var e := ForwarderSpec.Return(w, ok);
      InvStep(cfg, abs, e);
      if w < |workers| && workers[w].InPublish? {
        var m := workers[w].m;
        ghost var x := Stamping(abs.flow.workers[w].m, ok);
        HandTied(cfg, abs.flow, CurrentRefs(), at, w, AtStamp(m, ok), x);
        assert at[m := HandPlace(x, w)] == at;
        workers := workers[w := AtStamp(m, ok)];
      }
      abs := Step(cfg, abs, e);
    }

    /** Note the time of the outcome under the lock. */
    method Stamp(w: nat)
      requires Valid()
      modifies this
      ensures Valid() && abs == Step(cfg, old(abs), ForwarderSpec.Stamp(w)) && at.Keys == old(at.Keys)
    {
      hide Inv, Carried, Tied, ObjectsOk, Step;
      InvFacts(cfg, abs);
      StampIs(cfg, abs, w);
      HandFacts(cfg, abs.flow, CurrentRefs(), at, w);
      ghost var e := ForwarderSpec.Stamp(w);
      InvStep(cfg, abs, e);
      if w < |workers| && workers[w].AtStamp? && lock == Unlocked {
        var m, ok := workers[w].m, workers[w].ok;
        ghost var f, msg := abs.flow, abs.flow.workers[w].m;
        TakenCall(cfg, f, CurrentRefs(), at, w);
        if ok {
          HandTied(cfg, f, CurrentRefs(), at, w, AtSentCount(m), Counting(msg));
          workers := workers[w := AtSentCount(m)];
          assert at[m := HandPlace(Counting(msg), w)] == at;
        } else {
          SettleTied(cfg, f, CurrentRefs(), at, w, Failed);
          ObjectMoved(at, m, AtWorker(w, None));
          at := at[m := AtWorker(w, None)];
          workers := workers[w := AtRelease(m)];
        }
      }
      abs := Step(cfg, abs, e);
    }

    method CountSent(w: nat)
      requires Valid()
      modifies this
      ensures Valid() && abs == Step(cfg, old(abs), ForwarderSpec.CountSent(w)) && at.Keys == old(at.Keys)
    {
      hide Inv, Carried, Tied, ObjectsOk, Step;
      InvFacts(cfg, abs);
      CountSentIs(cfg, abs, w);
      HandFacts(cfg, abs.flow, CurrentRefs(), at, w);
      ghost var e := ForwarderSpec.CountSent(w);
      InvStep(cfg, abs, e);
      if w < |workers| && workers[w].AtSentCount? {
        var m := workers[w].m;
        TakenCall(cfg, abs.flow, CurrentRefs(), at, w);
        SettleTied(cfg, abs.flow, CurrentRefs(), at, w, Sent);
        ObjectMoved(at, m, AtWorker(w, None));
        msgSent := AddU64(msgSent, 1);
        at := at[m := AtWorker(w, None)];
        workers := workers[w := AtRelease(m)];
      }
      abs := Step(cfg, abs, e);
    }

    /** The deferred `PutMessage`. */
    method Release(w: nat)
      requires Valid()
      modifies this, at.Keys
      ensures Valid() && abs == Step(cfg, old(abs), ForwarderSpec.Release(w)) && Footprint(at) == old(Footprint(at))
    {
      hide Inv, Tied, ObjectsOk, CallStep, CtlStep, Spawned, Footprint;
      HandFacts(cfg, abs.flow, CurrentRefs(), at, w);
      ghost var e := ForwarderSpec.Release(w);
      InvStep(cfg, abs, e);
      if w < |workers| && workers[w].AtRelease? {
        var m := workers[w].m;
        HandReleaseTied(cfg, abs.flow, CurrentRefs(), at, w);
        PutMessage(m);
        workers := workers[w := AtSelect];
        at := at[m := InPool];
      }
      abs := Step(cfg, abs, e);
    }

    // ---- Other users of the global pool ----

    /** Another user takes free object `i`, or the collector discards it. */
    method PoolTake(i: nat)
      requires Valid()
      modifies this
      ensures Valid() && abs == Step(cfg, old(abs), ForwarderSpec.PoolTake(i)) && at.Keys == old(at.Keys)
    {
      hide Inv, Carried, Tied, ObjectsOk, Step;
      PoolFacts(cfg, abs.flow, CurrentRefs(), at, i);
      ghost var e := ForwarderSpec.PoolTake(i);
      InvFacts(cfg, abs);
      PoolIs(cfg, abs, e);
      if i < |pool| {
        LendTied(cfg, abs.flow, CurrentRefs(), at, i);
        var m := pool[i];
        pool := pool[..i] + pool[i + 1..];
        lent := lent + [m];
        ObjectMoved(at, m, Lent);
        at := at[m := Lent];
      }
      abs := Step(cfg, abs, e);
    }

    /** Another user writes into an object it holds. */
    method PoolUse(i: nat, topic: string, payload: seq<byte>)
      requires Valid()
      modifies this, at.Keys, set o | o in at.Keys :: o.data
      ensures Valid() && abs == Step(cfg, old(abs), ForwarderSpec.PoolUse(i, topic, payload))
      ensures fresh(Footprint(at) - old(Footprint(at)))
    {
      hide Inv, Carried, Tied, ObjectsOk, Step;
      ghost var e := ForwarderSpec.PoolUse(i, topic, payload);
      InvFacts(cfg, abs);
      PoolIs(cfg, abs, e);
      if i < |lent| {
        PoolFacts(cfg, abs.flow, CurrentRefs(), at, i);
        var m := lent[i];
        FillMessage(m, topic, payload, m.qos, m.timestamp, at, Lent);
        assert at[m := Lent] == at;
      }
      abs := Step(cfg, abs, e);
    }

    /** Another user gives an object back. */
    method PoolPut(i: nat)
      requires Valid()
      modifies this, at.Keys
      ensures Valid() && abs == Step(cfg, old(abs), ForwarderSpec.PoolPut(i)) && Footprint(at) == old(Footprint(at))
    {
      hide Inv, Carried, Tied, ObjectsOk, Step, Footprint;
      PoolFacts(cfg, abs.flow, CurrentRefs(), at, i);
      ghost var e := ForwarderSpec.PoolPut(i);
      InvFacts(cfg, abs);
      PoolIs(cfg, abs, e);
      if i < |lent| {
        GiveBackTied(cfg, abs.flow, CurrentRefs(), at, i);
        var m := lent[i];
        PutMessage(m);
        lent := lent[..i] + lent[i + 1..];
        at := at[m := InPool];
      }
      abs := Step(cfg, abs, e);
    }

    // ---- Any interleaving ----

    method Perform(e: Event)
      requires Valid()
      modifies this, Footprint(at)
      ensures Valid() && abs == Step(cfg, old(abs), e)
      ensures fresh(Footprint(at) - old(Footprint(at)))
    {
      hide Inv, Fields, Tied, ObjectsOk, Step;
      match e
      case Arrive(topic, payload) => Arrive(topic, payload);
      case Check(c) => Check(c);
      case CountStopDrop(c) => CountStopDrop(c);
      case CountReceived(c) => CountReceived(c);
      case Acquire(c, slot) => Acquire(c, slot);
      case Fill(c, now) => Fill(c, now);
      case Offer(c) => Offer(c);
      case CountFullDrop(c) => CountFullDrop(c);
      case ReleaseRefused(c) => ReleaseRefused(c);
      case StartLock => var _ := StartLock();
      case StartFail => StartFail();
      case StartSpawn => StartSpawn();
      case StartDone => StartDone();
      case StopLock => StopLock();
      case StopMark => StopMark();
      case StopClose => StopClose();
      case StopUnlock => StopUnlock();
      case Exit(w) => Exit(w);
      case Receive(w) => Receive(w);
      case PublishTo(w) => PublishTo(w);
      case Return(w, ok) => Return(w, ok);
      case Stamp(w) => Stamp(w);
      case CountSent(w) => CountSent(w);
      case Release(w) => Release(w);
      case PoolTake(i) => PoolTake(i);
      case PoolUse(i, topic, payload) => PoolUse(i, topic, payload);
      case PoolPut(i) => PoolPut(i);
    }

    /** Every interleaving of the in-place forwarder is the same interleaving of the one
        with immutable messages: same arguments to `PublishTo`, same counters. */
    method Execute(es: seq<Event>)
      requires Valid() && abs == Init()
      modifies this, Footprint(at)
      ensures Valid() && abs == Run(cfg, Init(), es)
      ensures published == Run(cfg, Init(), es).logs.published
      ensures Stats(msgReceived, msgSent, msgDropped) == Run(cfg, Init(), es).stats
    {
      hide Inv, Tied, ObjectsOk, Step;
      for i := 0 to |es|
        invariant Valid() && abs == Run(cfg, Init(), es[..i])
        invariant fresh(Footprint(at) - old(Footprint(at)))
      {
        Perform(es[i]);
        RunOneMore(cfg, Init(), es, i);
      }
      assert es[..|es|] == es;
    }
  }
}
