/** Where every pooled message object is, and how the goroutines that hold objects stand
    to the forwarder with immutable messages. */
module Ownership {
  import opened Wrappers
  import opened ObjectPool
  import opened ForwarderSpec
  import opened ForwarderTheorems

  /** The program counter of one `handleMessage` call, with the object it holds. */
  datatype Pc =
    | AtCheck | AtStopDrop | AtCount | AtGet
    | AtFill(m: PooledMessage) | AtSend(m: PooledMessage) | AtFullDrop(m: PooledMessage) | AtPut(m: PooledMessage)
    | Returned

  /** The program counter of one `processMessages` goroutine. */
  datatype Hand =
    | AtSelect | Gone
    | Received(m: PooledMessage) | InPublish(m: PooledMessage) | AtStamp(m: PooledMessage, ok: bool)
    | AtSentCount(m: PooledMessage) | AtRelease(m: PooledMessage)

  /** The place of one object, and the message it must show there. */
  datatype Place =
    | InPool
    | Lent  // with some other user of the global pool
    | AtCall(c: nat, want: Option<Msg>)
    | InQueue(msg: Msg)
    | AtWorker(w: nat, want: Option<Msg>)

  type Places = map<PooledMessage, Place>

  /** The references the goroutines, the channel and the pool hold. */
  datatype Refs = Refs(pcs: seq<Pc>, channel: seq<PooledMessage>, hands: seq<Hand>,
                       pool: seq<PooledMessage>, lent: seq<PooledMessage>)

  function Want(p: Place): Option<Msg> {
    match p
    case AtCall(_, want) => want
    case InQueue(msg) => Some(msg)
    case AtWorker(_, want) => want
    case _ => None
  }

  predicate Holds(pc: Pc) { pc.AtFill? || pc.AtSend? || pc.AtFullDrop? || pc.AtPut? }
  predicate HandHolds(h: Hand) { !h.AtSelect? && !h.Gone? }

  predicate PcTie(pc: Pc, p: Phase) {
    match pc
    case AtCheck => p == Entered
    case AtStopDrop => p == SawStopped
    case AtCount => p == Admitted
    case AtGet => p == Counted
    case AtFill(_) => p == Acquired
    case AtSend(_) => p == Filled
    case AtFullDrop(_) => p == Refused
    case AtPut(_) => p == DroppedFull
    case Returned => p in {DroppedStopped, DroppedFull, Queued, Taken, Sent, Failed}
  }

  predicate HandTie(h: Hand, x: Worker) {
    match h
    case AtSelect => x == Selecting
    case Gone => x == Exited
    case Received(_) => x.Holding?
    case InPublish(_) => x.Publishing?
    case AtStamp(_, ok) => x.Stamping? && x.ok == ok
    case AtSentCount(_) => x.Counting?
    case AtRelease(_) => x == Releasing
  }

  ghost predicate NoRepeats(s: seq<PooledMessage>) {
    forall i, j :: 0 <= i < j < |s| ==> s[i] != s[j]
  }

  ghost function CallPlace(cfg: Config, f: Flow, pc: Pc, c: nat): Place
    requires c < |f.calls|
  {
    AtCall(c, if pc.AtSend? then Some(MsgOf(cfg, f.calls, c)) else None)
  }

  ghost function HandPlace(x: Worker, w: nat): Place {
    AtWorker(w, if Busy(x) == 1 then Some(x.m) else None)
  }

  ghost predicate CallsTied(cfg: Config, f: Flow, r: Refs, at: Places) {
    && |r.pcs| == |f.phases| == |f.calls|
    && forall c :: 0 <= c < |r.pcs| ==>
         && PcTie(r.pcs[c], f.phases[c])
         && (Holds(r.pcs[c]) ==> r.pcs[c].m in at && at[r.pcs[c].m] == CallPlace(cfg, f, r.pcs[c], c))
  }

  ghost predicate QueueTied(f: Flow, r: Refs, at: Places) {
    && |r.channel| == |f.queue|
    && forall i :: 0 <= i < |r.channel| ==> r.channel[i] in at && at[r.channel[i]] == InQueue(f.queue[i])
  }

  ghost predicate HandsTied(f: Flow, r: Refs, at: Places) {
    && |r.hands| == |f.workers|
    && forall w :: 0 <= w < |r.hands| ==>
         && HandTie(r.hands[w], f.workers[w])
         && (HandHolds(r.hands[w]) ==> r.hands[w].m in at && at[r.hands[w].m] == HandPlace(f.workers[w], w))
  }

  ghost predicate PoolTied(r: Refs, at: Places) {
    && NoRepeats(r.pool) && NoRepeats(r.lent)
    && (forall i :: 0 <= i < |r.pool| ==> r.pool[i] in at && at[r.pool[i]] == InPool)
    && (forall i :: 0 <= i < |r.lent| ==> r.lent[i] in at && at[r.lent[i]] == Lent)
  }

  /** The place noted for an object is where a reference to it really is. */
  ghost predicate Really(r: Refs, o: PooledMessage, p: Place) {
    match p
    case InPool => o in r.pool
    case Lent => o in r.lent
    case AtCall(c, _) => c < |r.pcs| && Holds(r.pcs[c]) && r.pcs[c].m == o
    case InQueue(_) => o in r.channel
    case AtWorker(w, _) => w < |r.hands| && HandHolds(r.hands[w]) && r.hands[w].m == o
  }

  ghost predicate NoneLost(r: Refs, at: Places) {
    forall o :: o in at ==> Really(r, o, at[o])
  }

  /** Every object is in exactly one place, and nothing else refers to it. */
  ghost predicate Tied(cfg: Config, f: Flow, r: Refs, at: Places) {
    CallsTied(cfg, f, r, at) && QueueTied(f, r, at) && HandsTied(f, r, at) && PoolTied(r, at) && NoneLost(r, at)
  }

  /** A reference some goroutine, a channel slot or a list of the pool holds. */
  datatype Ref = FromCall(c: nat) | FromSlot(i: nat) | FromWorker(w: nat) | FromPool(i: nat) | FromOther(i: nat)

  ghost predicate Refers(r: Refs, x: Ref, o: PooledMessage) {
    match x
    case FromCall(c) => c < |r.pcs| && Holds(r.pcs[c]) && r.pcs[c].m == o
    case FromSlot(i) => i < |r.channel| && r.channel[i] == o
    case FromWorker(w) => w < |r.hands| && HandHolds(r.hands[w]) && r.hands[w].m == o
    case FromPool(i) => i < |r.pool| && r.pool[i] == o
    case FromOther(i) => i < |r.lent| && r.lent[i] == o
  }

  lemma SomeReference(r: Refs, at: Places, o: PooledMessage)
    requires NoneLost(r, at) && o in at
    ensures exists x :: Refers(r, x, o)
  {
    assert Really(r, o, at[o]);
    match at[o]
    case InPool => var i :| 0 <= i < |r.pool| && r.pool[i] == o; assert Refers(r, FromPool(i), o);
    case Lent => var i :| 0 <= i < |r.lent| && r.lent[i] == o; assert Refers(r, FromOther(i), o);
    case AtCall(c, _) => assert Refers(r, FromCall(c), o);
    case InQueue(_) => var i :| 0 <= i < |r.channel| && r.channel[i] == o; assert Refers(r, FromSlot(i), o);
    case AtWorker(w, _) => assert Refers(r, FromWorker(w), o);
  }

  /** To every live object there is exactly one reference, and to no other object any. */
  lemma ExactlyOneReference(cfg: Config, f: Flow, r: Refs, at: Places, o: PooledMessage)
    requires Tied(cfg, f, r, at) && Carried(cfg, f)
    ensures o in at <==> exists x :: Refers(r, x, o)
    ensures forall x, y :: Refers(r, x, o) && Refers(r, y, o) ==> x == y
  {
    hide NoneLost, WorkersOk, MsgOf, PcTie, HandTie;
    if o in at { SomeReference(r, at, o); }
    // Two slots cannot share it: they would carry the same call.
    assert forall i, j :: 0 <= i < j < |f.queue| ==> f.queue[i] != f.queue[j];
  }

  // ---- The objects themselves ----

  ghost predicate Shows(o: PooledMessage, m: Msg)
    reads o, o.data
  {
    o.Valid() && o.topic == m.topic && o.Contents() == m.payload && o.qos == m.qos
  }

  ghost predicate ObjectsOk(at: Places)
    reads at.Keys, set o | o in at.Keys :: o.data
  {
    && (forall o :: o in at ==> o.Valid() && (Want(at[o]).Some? ==> Shows(o, Want(at[o]).value)))
    && (forall a, b :: a in at && b in at && a != b ==> a.data != b.data)
  }

  /** An untouched object changes its place and keeps what it must show, or shows nothing. */
  lemma ObjectMoved(at: Places, o: PooledMessage, p: Place)
    requires ObjectsOk(at) && o in at && (Want(p).None? || Want(p) == Want(at[o]))
    ensures ObjectsOk(at[o := p])
  {
  }

  lemma ObjectShows(at: Places, o: PooledMessage)
    requires ObjectsOk(at) && o in at
    ensures o.Valid() && (Want(at[o]).Some? ==> Shows(o, Want(at[o]).value))
  {
  }

  lemma ObjectAdded(at: Places, o: PooledMessage, p: Place)
    requires ObjectsOk(at) && o !in at && o.Valid() && Want(p).None?
    requires forall x :: x in at ==> x.data != o.data
    ensures ObjectsOk(at[o := p])
  {
  }

  /** All there is to see of one object. */
  datatype Image = Image(ok: bool, topic: string, content: seq<byte>, qos: byte, data: array<byte>)

  ghost function ImageOf(o: PooledMessage): Image
    reads o, o.data
  {
    Image(o.Valid(), o.topic, if o.Valid() then o.Contents() else [], o.qos, o.data)
  }

  ghost function Images(at: Places): map<PooledMessage, Image>
    reads at.Keys, set o | o in at.Keys :: o.data
  {
    map o | o in at :: ImageOf(o)
  }

  ghost predicate ImagesOk(at: Places, was: map<PooledMessage, Image>) {
    && at.Keys == was.Keys
    && (forall o :: o in at ==> was[o].ok && (Want(at[o]).Some? ==>
          var m := Want(at[o]).value; was[o].topic == m.topic && was[o].content == m.payload && was[o].qos == m.qos))
    && (forall a, b :: a in at && b in at && a != b ==> was[a].data != was[b].data)
  }

  lemma ObjectsSeen(at: Places, o: PooledMessage)
    requires ObjectsOk(at) && o in at
    ensures o.Valid() && ImagesOk(at, Images(at))
    ensures forall x :: x in at && x != o ==> x.data != o.data
  {
  }

  /** One object is written in place, or gets a new array; no other object notices. */
  lemma ObjectRewritten(at: Places, o: PooledMessage, p: Place, was: map<PooledMessage, Image>)
    requires o in at && ImagesOk(at, was)
    requires forall x :: x in at && x != o ==> ImageOf(x) == was[x] && x.data != o.data
    requires o.Valid() && (Want(p).Some? ==> Shows(o, Want(p).value))
    ensures ObjectsOk(at[o := p])
  {
    forall x | x in at && x != o && Want(at[x]).Some? ensures Shows(x, Want(at[x]).value) {
      assert ImageOf(x) == was[x];
    }
    forall a, b | a in at && b in at && a != b && a != o && b != o ensures a.data != b.data {
      assert ImageOf(a) == was[a] && ImageOf(b) == was[b];
    }
  }

  ghost function Footprint(at: Places): set<object>
    reads at.Keys
  {
    at.Keys + set o | o in at.Keys :: o.data
  }

  // ---- Each kind of step keeps the ties ----

  lemma Without(s: seq<PooledMessage>, i: nat)
    requires NoRepeats(s) && i < |s|
    ensures var t := s[..i] + s[i + 1..];
            && NoRepeats(t) && s[i] !in t
            && (forall x :: x in s && x != s[i] ==> x in t)
            && forall k :: 0 <= k < |t| ==> t[k] in s
  {
    var t := s[..i] + s[i + 1..];
    forall k | 0 <= k < |t| ensures t[k] == s[if k < i then k else k + 1] { }
    forall x | x in s && x != s[i] ensures x in t {
      var k :| 0 <= k < |s| && s[k] == x;
      assert t[if k < i then k else k - 1] == x;
    }
  }

  lemma With(s: seq<PooledMessage>, o: PooledMessage)
    requires NoRepeats(s)
    ensures o in s + [o] && (forall x :: x in s ==> x in s + [o])
    ensures o !in s ==> NoRepeats(s + [o])
  {
  }

  lemma ArriveTied(cfg: Config, f: Flow, r: Refs, at: Places, call: Call)
    requires Tied(cfg, f, r, at)
    ensures Tied(cfg, f.(calls := f.calls + [call], phases := f.phases + [Entered]), r.(pcs := r.pcs + [AtCheck]), at)
  {
  }

  /** A call goes on without getting or giving up an object. */
  lemma CallTied(cfg: Config, f: Flow, r: Refs, at: Places, c: nat, pc: Pc, p: Phase)
    requires Tied(cfg, f, r, at) && c < |r.pcs| && PcTie(pc, p)
    requires Holds(pc) == Holds(r.pcs[c]) && (Holds(pc) ==> pc.m == r.pcs[c].m)
    ensures Tied(cfg, Move(f, c, p), r.(pcs := r.pcs[c := pc]),
                 if Holds(pc) then at[pc.m := CallPlace(cfg, f, pc, c)] else at)
  {
  }

  /** A phase changes behind a call that has returned. */
  lemma PhaseTied(cfg: Config, f: Flow, r: Refs, at: Places, c: nat, p: Phase)
    requires Tied(cfg, f, r, at) && c < |r.pcs| && r.pcs[c] == Returned && PcTie(Returned, p)
    ensures Tied(cfg, Move(f, c, p), r, at)
  {
  }

  /** A call takes an object out of the pool, or a new one. */
  lemma AcquireTied(cfg: Config, f: Flow, r: Refs, at: Places, c: nat,
                    o: PooledMessage, slot: nat, pool: seq<PooledMessage>)
    requires Tied(cfg, f, r, at) && c < |r.pcs| && r.pcs[c] == AtGet
    requires if slot < |r.pool| then o == r.pool[slot] && pool == r.pool[..slot] + r.pool[slot + 1..]
             else o !in at && pool == r.pool
    ensures Tied(cfg, Move(f, c, Acquired), r.(pcs := r.pcs[c := AtFill(o)], pool := pool), at[o := AtCall(c, None)])
  {
    hide NoRepeats;
    if slot < |r.pool| { Without(r.pool, slot); }
  }

  lemma AcceptTied(cfg: Config, f: Flow, r: Refs, at: Places, c: nat)
    requires Tied(cfg, f, r, at) && c < |r.pcs| && r.pcs[c].AtSend?
    ensures var o, m := r.pcs[c].m, MsgOf(cfg, f.calls, c);
            Tied(cfg, Move(f, c, Queued).(queue := f.queue + [m]),
                 r.(pcs := r.pcs[c := Returned], channel := r.channel + [o]), at[o := InQueue(m)])
  {
    assert forall x :: x in r.channel ==> x in r.channel + [r.pcs[c].m];
    assert r.pcs[c].m in r.channel + [r.pcs[c].m];
  }

  lemma CallReleaseTied(cfg: Config, f: Flow, r: Refs, at: Places, c: nat)
    requires Tied(cfg, f, r, at) && c < |r.pcs| && r.pcs[c].AtPut?
    ensures Tied(cfg, f, r.(pcs := r.pcs[c := Returned], pool := r.pool + [r.pcs[c].m]), at[r.pcs[c].m := InPool])
  {
    var o := r.pcs[c].m;
    assert forall x :: x in r.pool ==> x in r.pool + [o];
    assert o in r.pool + [o];
  }

  lemma SpawnTied(cfg: Config, f: Flow, r: Refs, at: Places)
    requires Tied(cfg, f, r, at)
    ensures Tied(cfg, f.(workers := f.workers + [Selecting]), r.(hands := r.hands + [AtSelect]), at)
  {
  }

  /** A worker goes on without getting or giving up an object. */
  lemma HandTied(cfg: Config, f: Flow, r: Refs, at: Places, w: nat, h: Hand, x: Worker)
    requires Tied(cfg, f, r, at) && w < |r.hands| && HandTie(h, x)
    requires HandHolds(h) == HandHolds(r.hands[w]) && (HandHolds(h) ==> h.m == r.hands[w].m)
    ensures Tied(cfg, SetWorker(f, w, x), r.(hands := r.hands[w := h]),
                 if HandHolds(h) then at[h.m := HandPlace(x, w)] else at)
  {
  }

  lemma ChannelShift(cfg: Config, f: Flow, r: Refs, at: Places, p: Place)
    requires QueueTied(f, r, at) && QueueOk(cfg, f) && r.channel != []
    ensures var o := r.channel[0];
            && QueueTied(f.(queue := f.queue[1..]), r.(channel := r.channel[1..]), at[o := p])
            && forall x :: x in r.channel && x != o ==> x in r.channel[1..]
  {
    var o, q := r.channel[0], r.channel[1..];
    forall i | 0 <= i < |q| ensures q[i] in at && q[i] != o && at[q[i]] == InQueue(f.queue[1..][i]) {
      assert q[i] == r.channel[i + 1] && f.queue[1..][i] == f.queue[i + 1];
      assert f.queue[0].call != f.queue[i + 1].call;
    }
    assert r.channel == [o] + q;
  }

  lemma ReceiveTied(cfg: Config, f: Flow, r: Refs, at: Places, w: nat)
    requires Tied(cfg, f, r, at) && Carried(cfg, f)
    requires w < |r.hands| && r.hands[w] == AtSelect && r.channel != []
    ensures var o, m := r.channel[0], f.queue[0];
            && m.call < |f.phases|
            && Tied(cfg, SetWorker(Move(f, m.call, Taken), w, Holding(m)).(queue := f.queue[1..]),
                    r.(hands := r.hands[w := Received(o)], channel := r.channel[1..]), at[o := AtWorker(w, Some(m))])
  {
    hide QueueTied, NoRepeats, WorkersOk;
    ChannelHead(f, r, at);
    var o, m := r.channel[0], f.queue[0];
    assert Belongs(cfg, f, m, Queued);
    ChannelShift(cfg, f, r, at, AtWorker(w, Some(m)));
    var g := SetWorker(Move(f, m.call, Taken), w, Holding(m)).(queue := f.queue[1..]);
    var q := r.(hands := r.hands[w := Received(o)], channel := r.channel[1..]);
    QueueOnly(f.(queue := f.queue[1..]), r.(channel := r.channel[1..]), at[o := AtWorker(w, Some(m))], g, q);
  }

  lemma ChannelHead(f: Flow, r: Refs, at: Places)
    requires QueueTied(f, r, at) && r.channel != []
    ensures f.queue != [] && r.channel[0] in at && at[r.channel[0]] == InQueue(f.queue[0])
  {
  }

  lemma QueueOnly(f: Flow, r: Refs, at: Places, g: Flow, q: Refs)
    requires QueueTied(f, r, at) && f.queue == g.queue && r.channel == q.channel
    ensures QueueTied(g, q, at)
  {
  }

  lemma HandReleaseTied(cfg: Config, f: Flow, r: Refs, at: Places, w: nat)
    requires Tied(cfg, f, r, at) && w < |r.hands| && r.hands[w].AtRelease?
    ensures var o := r.hands[w].m;
            Tied(cfg, SetWorker(f, w, Selecting),
                 r.(hands := r.hands[w := AtSelect], pool := r.pool + [o]), at[o := InPool])
  {
    var o := r.hands[w].m;
    assert forall x :: x in r.pool ==> x in r.pool + [o];
    assert o in r.pool + [o];
  }

  /** Another user takes an object out of the pool. */
  lemma LendTied(cfg: Config, f: Flow, r: Refs, at: Places, i: nat)
    requires Tied(cfg, f, r, at) && i < |r.pool|
    ensures Tied(cfg, f, r.(pool := r.pool[..i] + r.pool[i + 1..], lent := r.lent + [r.pool[i]]), at[r.pool[i] := Lent])
  {
    hide NoRepeats;
    Without(r.pool, i);
    With(r.lent, r.pool[i]);
  }

  /** Another user gives an object back. */
  lemma GiveBackTied(cfg: Config, f: Flow, r: Refs, at: Places, i: nat)
    requires Tied(cfg, f, r, at) && i < |r.lent|
    ensures Tied(cfg, f, r.(lent := r.lent[..i] + r.lent[i + 1..], pool := r.pool + [r.lent[i]]),
                 at[r.lent[i] := InPool])
  {
    hide NoRepeats;
    Without(r.lent, i);
    With(r.pool, r.lent[i]);
  }

  /** The call of a message a worker holds has returned. */
  lemma TakenCall(cfg: Config, f: Flow, r: Refs, at: Places, w: nat)
    requires Tied(cfg, f, r, at) && Carried(cfg, f) && w < |f.workers| && Busy(f.workers[w]) == 1
    ensures var c := f.workers[w].m.call;
            c < |r.pcs| && c < |f.phases| && r.pcs[c] == Returned && f.phases[c] == Taken
  {
    assert Belongs(cfg, f, f.workers[w].m, Taken);
  }

  /** A new forwarder holds nothing. */
  lemma StartsTied(cfg: Config)
    ensures Inv(cfg, Init()) && ObjectsOk(map[])
    ensures Tied(cfg, Init().flow, Refs([], [], [], [], []), map[])
  {
    hide Inv;
    Reachable(cfg, []);
  }

  // ---- What the ties say about one goroutine ----

  lemma CallFacts(cfg: Config, f: Flow, r: Refs, at: Places, c: nat)
    requires Tied(cfg, f, r, at)
    ensures |r.pcs| == |f.phases| == |f.calls|
    ensures c < |r.pcs| ==> PcTie(r.pcs[c], f.phases[c])
    ensures c < |r.pcs| && Holds(r.pcs[c]) ==> r.pcs[c].m in at && at[r.pcs[c].m] == CallPlace(cfg, f, r.pcs[c], c)
  {
  }

  lemma HandFacts(cfg: Config, f: Flow, r: Refs, at: Places, w: nat)
    requires Tied(cfg, f, r, at)
    ensures |r.hands| == |f.workers|
    ensures w < |r.hands| ==> HandTie(r.hands[w], f.workers[w])
    ensures w < |r.hands| && HandHolds(r.hands[w]) ==>
              r.hands[w].m in at && at[r.hands[w].m] == HandPlace(f.workers[w], w)
  {
  }

  lemma ChannelFacts(cfg: Config, f: Flow, r: Refs, at: Places)
    requires Tied(cfg, f, r, at)
    ensures |r.channel| == |f.queue|
    ensures r.channel != [] ==> r.channel[0] in at && at[r.channel[0]] == InQueue(f.queue[0])
  {
  }

  lemma PoolFacts(cfg: Config, f: Flow, r: Refs, at: Places, i: nat)
    requires Tied(cfg, f, r, at)
    ensures i < |r.pool| ==> r.pool[i] in at && at[r.pool[i]] == InPool
    ensures i < |r.lent| ==> r.lent[i] in at && at[r.lent[i]] == Lent
  {
  }

  lemma InvFacts(cfg: Config, s: State)
    requires Inv(cfg, s)
    ensures Sized(s.flow) && Carried(cfg, s.flow)
  {
  }

  /** A message on its way carries the configured QoS. */
  lemma HeldQos(cfg: Config, s: State, w: nat)
    requires Inv(cfg, s) && w < |s.flow.workers| && Busy(s.flow.workers[w]) == 1
    ensures s.flow.workers[w].m.qos == cfg.qos
  {
    assert Belongs(cfg, s.flow, s.flow.workers[w].m, Taken);
  }

  /** Which call steps are enabled, in terms of the program counter. */
  lemma AcquireReady(cfg: Config, s: State, r: Refs, at: Places, c: nat, slot: nat)
    requires Inv(cfg, s) && Tied(cfg, s.flow, r, at)
    ensures |r.pcs| == |s.flow.phases|
    ensures var t := Step(cfg, s, Acquire(c, slot));
            && Inv(cfg, t)
            && t == if c < |r.pcs| && r.pcs[c].AtGet? then s.(flow := Move(s.flow, c, Acquired)) else s
    ensures slot < |r.pool| ==> r.pool[slot] in at
  {
    hide Inv, Tied, Step;
    PoolFacts(cfg, s.flow, r, at, slot);
    InvFacts(cfg, s);
    InvStep(cfg, s, Acquire(c, slot));
    AcquireIs(cfg, s, c, slot);
    CallFacts(cfg, s.flow, r, at, c);
  }

  lemma FillReady(cfg: Config, s: State, r: Refs, at: Places, c: nat, now: int)
    requires Inv(cfg, s) && Tied(cfg, s.flow, r, at)
    ensures |r.pcs| == |s.flow.phases| == |s.flow.calls|
    ensures var t := Step(cfg, s, ForwarderSpec.Fill(c, now));
            && Inv(cfg, t)
            && t == if c < |r.pcs| && r.pcs[c].AtFill? then s.(flow := Move(s.flow, c, Filled)) else s
    ensures c < |r.pcs| && r.pcs[c].AtFill? ==> r.pcs[c].m in at
  {
    hide Inv, Tied, Step;
    InvFacts(cfg, s);
    InvStep(cfg, s, ForwarderSpec.Fill(c, now));
    FillIs(cfg, s, c, now);
    CallFacts(cfg, s.flow, r, at, c);
  }

  lemma OfferReady(cfg: Config, s: State, r: Refs, at: Places, c: nat)
    requires Inv(cfg, s) && Tied(cfg, s.flow, r, at)
    ensures |r.pcs| == |s.flow.phases| == |s.flow.calls| && |r.channel| == |s.flow.queue|
    ensures var t := Step(cfg, s, Offer(c));
            && Inv(cfg, t)
            && t == if !(c < |r.pcs| && r.pcs[c].AtSend?) then s
                    else if |r.channel| < cfg.capacity then
                      var m := MsgOf(cfg, s.flow.calls, c);
                      s.(flow := Move(s.flow, c, Queued).(queue := s.flow.queue + [m]),
                         logs := s.logs.(enqueued := s.logs.enqueued + [m]))
                    else s.(flow := Move(s.flow, c, Refused))
    ensures c < |r.pcs| && r.pcs[c].AtSend? ==>
              r.pcs[c].m in at && at[r.pcs[c].m] == AtCall(c, Some(MsgOf(cfg, s.flow.calls, c)))
  {
    hide Inv, Tied, Step;
    InvFacts(cfg, s);
    InvStep(cfg, s, Offer(c));
    OfferIs(cfg, s, c);
    CallFacts(cfg, s.flow, r, at, c);
    ChannelFacts(cfg, s.flow, r, at);
  }

  lemma ObjectArrays(at: Places)
    requires ObjectsOk(at)
    ensures forall o :: o in at ==> allocated(o) && allocated(o.data)
  {
  }

  // ---- The two ways a goroutine writes an object it holds ----

  /** Fill the object in place. */
  method FillMessage(m: PooledMessage, topic: string, payload: seq<byte>, qos: byte, now: int,
                     ghost at: Places, ghost p: Place)
    requires ObjectsOk(at) && m in at
    requires Want(p).Some? ==>
               var want := Want(p).value;
               want.topic == topic && want.payload == payload && want.qos == qos
    modifies m, m.data
    ensures ObjectsOk(at[m := p]) && (m.data == old(m.data) || fresh(m.data))
    ensures m.Valid() && m.Contents() == payload && m.topic == topic && m.qos == qos && m.timestamp == now
  {
    hide ObjectsOk, ImagesOk, NextCap;
    ObjectsSeen(at, m);
    ghost var was := Images(at);
    m.topic := topic;
    m.SetPayload(payload);
    m.qos := qos;
    m.timestamp := now;
    ObjectRewritten(at, m, p, was);
  }

  /** `msg.Reset()` in `GetMessage` and `PutMessage`. */
  method ResetMessage(m: PooledMessage, ghost at: Places, ghost p: Place)
    requires ObjectsOk(at) && m in at && Want(p).None?
    modifies m
    ensures ObjectsOk(at[m := p]) && m.data == old(m.data)
    ensures m.Blank()
  {
    hide ObjectsOk, ImagesOk;
    ObjectsSeen(at, m);
    ghost var was := Images(at);
    m.Reset();
    ObjectRewritten(at, m, p, was);
  }

  /** A worker settles its message: the call ends as sent or failed, the object is only
      still to be given back. */
  lemma SettleTied(cfg: Config, f: Flow, r: Refs, at: Places, w: nat, p: Phase)
    requires Tied(cfg, f, r, at) && Carried(cfg, f) && w < |f.workers| && Busy(f.workers[w]) == 1
    requires PcTie(Returned, p)
    ensures |r.hands| == |f.workers| && HandHolds(r.hands[w])
    ensures var o, c := r.hands[w].m, f.workers[w].m.call;
            && c < |f.phases|
            && Tied(cfg, SetWorker(Move(f, c, p), w, Releasing), r.(hands := r.hands[w := AtRelease(o)]),
                    at[o := AtWorker(w, None)])
  {
    hide Tied, Carried;
    HandFacts(cfg, f, r, at, w);
    TakenCall(cfg, f, r, at, w);
    PhaseTied(cfg, f, r, at, f.workers[w].m.call, p);
    HandTied(cfg, Move(f, f.workers[w].m.call, p), r, at, w, AtRelease(r.hands[w].m), Releasing);
  }
}
