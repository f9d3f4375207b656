/** A session's subscriptions and what its store holds of them, as values. */
module SessionSpec {
  import opened Wrappers

  datatype Status = Disconnected | Connecting | Connected | Reconnecting | Closed

  /** A handler the user gave, or the logging one `restoreState` puts in its place. */
  datatype Handler = UserHandler(id: int) | RestoredHandler(topic: string)

  /** Where the session was configured to store its state; a Redis time to live counts
      even when the session fell back to memory. */
  datatype Storage = MemoryStorage | FileStorage | RedisStorage(ttlSeconds: nat)

  const SECOND: int := 1_000_000_000
  const DAY: int := 86400 * SECOND

  function Lifetime(storage: Storage): int {
    match storage
    case RedisStorage(ttl) => ttl * SECOND
    case _ => DAY
  }

  datatype Config = Config(name: string, clientId: string, persistent: bool, resumeSubs: bool, storage: Storage)

  /** The stored state without the order of its topics. */
  datatype Saved = Saved(topics: set<string>, sequence: nat, clientId: string,
                         expiry: Option<int>, lastDisconnected: Option<int>)

  datatype View = View(handlers: map<string, Handler>, sequence: nat, saved: Option<Saved>)

  /** One of the three tries of `Subscribe`: the status it reads and the broker's answer. */
  datatype Try = Try(status: Status, accepted: bool)

  /** The world during one `Subscribe`, and the time at which it would save. */
  datatype Trial = Trial(first: Try, second: Try, third: Try, now: int)

  predicate Works(t: Try) { t.status == Connected && t.accepted }

  predicate Succeeds(t: Trial) { Works(t.first) || Works(t.second) || Works(t.third) }

  function Save(cfg: Config, v: View, now: int): View {
    v.(saved := Some(Saved(v.handlers.Keys, v.sequence, cfg.clientId,
                           if cfg.persistent then Some(now + Lifetime(cfg.storage)) else None, None)))
  }

  function SaveIfPersistent(cfg: Config, v: View, now: int): View {
    if cfg.persistent then Save(cfg, v, now) else v
  }

  function Subscribed(cfg: Config, v: View, topic: string, h: Handler, t: Trial): View {
    if Succeeds(t) then SaveIfPersistent(cfg, v.(handlers := v.handlers[topic := h]), t.now) else v
  }

  function Unsubscribed(cfg: Config, v: View, topics: seq<string>, now: int): View {
    SaveIfPersistent(cfg, v.(handlers := v.handlers - set t | t in topics), now)
  }

  function ConnectionLost(cfg: Config, v: View, now: int): View {
    if cfg.persistent && v.saved.Some? then v.(saved := Some(v.saved.value.(lastDisconnected := Some(now)))) else v
  }

  /** The resubscribing loop of `restoreState`, one `Subscribe` for each loaded topic. */
  function Resubscribed(cfg: Config, v: View, topics: seq<string>, trials: nat -> Trial): View {
    if topics == [] then v
    else
      var n := |topics| - 1;
      Subscribed(cfg, Resubscribed(cfg, v, topics[..n], trials), topics[n], RestoredHandler(topics[n]), trials(n))
  }

  predicate Expired(s: Saved, now: int) { s.expiry.Some? && now > s.expiry.value }

  /** `restoreState`; `topics` is the stored list in its order. */
  function Restored(cfg: Config, v: View, connected: bool, now: int, topics: seq<string>, trials: nat -> Trial): View {
    if v.saved == None then v
    else if Expired(v.saved.value, now) then v.(saved := None)
    else
      var w := v.(sequence := v.saved.value.sequence);
      if connected then Resubscribed(cfg, w, topics, trials) else w
  }

  // ---- What the restore loop leaves ----

  ghost function Regained(topics: seq<string>, trials: nat -> Trial): set<string> {
    set i | 0 <= i < |topics| && Succeeds(trials(i)) :: topics[i]
  }

  lemma RegainedNone(trials: nat -> Trial)
    ensures Regained([], trials) == {}
  {
  }

  lemma RegainedStep(topics: seq<string>, trials: nat -> Trial)
    requires topics != []
    ensures var n := |topics| - 1;
            Regained(topics, trials) ==
              Regained(topics[..n], trials) + (if Succeeds(trials(n)) then {topics[n]} else {})
  {
    var n := |topics| - 1;
    var a := Regained(topics, trials);
    var b := Regained(topics[..n], trials) + (if Succeeds(trials(n)) then {topics[n]} else {});
    forall x | x in a ensures x in b {
      var i :| 0 <= i < |topics| && Succeeds(trials(i)) && topics[i] == x;
      if i < n { assert topics[..n][i] == x; }
    }
    forall x | x in b ensures x in a {
      if x in Regained(topics[..n], trials) {
        var i :| 0 <= i < n && Succeeds(trials(i)) && topics[..n][i] == x;
        assert topics[i] == x;
      } else {
        assert topics[n] == x;
      }
    }
  }

  /** The loop ends with the old topics and those that were regained; regained topics
      get the logging handler, others keep theirs. If any was regained, the store, which
      every turn overwrote, lists exactly the registry; otherwise it is untouched. */
  lemma {:induction false} ResubscribedEffect(cfg: Config, v: View, topics: seq<string>, trials: nat -> Trial)
    ensures var w, regained := Resubscribed(cfg, v, topics, trials), Regained(topics, trials);
            && w.handlers == v.handlers + (map t | t in regained :: RestoredHandler(t))
            && w.sequence == v.sequence
            && (regained == {} || !cfg.persistent ==> w.saved == v.saved)
            && (regained != {} && cfg.persistent ==>
                  w.saved.Some? && w.saved.value.topics == w.handlers.Keys && w.saved.value.sequence == v.sequence)
  {
    hide Regained;
    RegainedNone(trials);
    if topics != [] {
      var n := |topics| - 1;
      ResubscribedEffect(cfg, v, topics[..n], trials);
      RegainedStep(topics, trials);
      var before, r := Resubscribed(cfg, v, topics[..n], trials), Regained(topics[..n], trials);
      if Succeeds(trials(n)) {
        assert (v.handlers + (map t | t in r :: RestoredHandler(t)))[topics[n] := RestoredHandler(topics[n])]
            == v.handlers + (map t | t in r + {topics[n]} :: RestoredHandler(t));
      }
    }
  }

  /** A stored topic is lost from the store exactly when the session did not have it, it
      could not be regained, and some other one was. */
  lemma FailedTopicForgotten(cfg: Config, v: View, topics: seq<string>, trials: nat -> Trial, i: nat)
    requires cfg.persistent && i < |topics| && v.saved.Some? && topics[i] in v.saved.value.topics
    ensures var w, regained := Resubscribed(cfg, v, topics, trials), Regained(topics, trials);
            && w.saved.Some?
            && (topics[i] !in w.saved.value.topics
                <==> topics[i] !in v.handlers && topics[i] !in regained && regained != {})
  {
    hide Regained;
    ResubscribedEffect(cfg, v, topics, trials);
  }

  // ---- The mirror ----

  /** Whatever is stored lists exactly the subscribed topics. */
  ghost predicate Mirror(v: View) {
    v.saved.Some? ==> v.saved.value.topics == v.handlers.Keys
  }

  /** A restore of a mirrored, connected session keeps its topics and takes every
      regained one from the user's handler to the logging one. */
  lemma RestoreReplaces(cfg: Config, v: View, now: int, topics: seq<string>, trials: nat -> Trial)
    requires Mirror(v) && v.saved.Some? && !Expired(v.saved.value, now)
    requires (set t | t in topics) == v.saved.value.topics
    ensures var w, regained := Restored(cfg, v, true, now, topics, trials), Regained(topics, trials);
            && w.handlers.Keys == v.handlers.Keys
            && forall t :: t in v.handlers ==>
                 w.handlers[t] == if t in regained then RestoredHandler(t) else v.handlers[t]
  {
    ResubscribedEffect(cfg, v.(sequence := v.saved.value.sequence), topics, trials);
  }

  datatype Op =
    | Subscribe(topic: string, h: Handler, t: Trial)
    | Unsubscribe(topics: seq<string>, accepted: bool, now: int)
    | Lose(now: int)
    | Restore(connected: bool, now: int, topics: seq<string>, trials: nat -> Trial)
    | SaveFinal(now: int)

  function Do(cfg: Config, v: View, op: Op): View {
    match op
    case Subscribe(topic, h, t) => Subscribed(cfg, v, topic, h, t)
    case Unsubscribe(topics, accepted, now) => if accepted then Unsubscribed(cfg, v, topics, now) else v
    case Lose(now) => ConnectionLost(cfg, v, now)
    case Restore(connected, now, topics, trials) => Restored(cfg, v, connected, now, topics, trials)
    case SaveFinal(now) => SaveIfPersistent(cfg, v, now)
  }

  function DoAll(cfg: Config, v: View, ops: seq<Op>): View {
    if ops == [] then v else Do(cfg, DoAll(cfg, v, ops[..|ops| - 1]), ops[|ops| - 1])
  }

  /** A restore reads the list that is stored at that moment. */
  ghost predicate Consistent(cfg: Config, v: View, ops: seq<Op>) {
    ops == [] ||
    (var before := DoAll(cfg, v, ops[..|ops| - 1]);
     var op := ops[|ops| - 1];
     && Consistent(cfg, v, ops[..|ops| - 1])
     && (op.Restore? && before.saved.Some? ==> (set t | t in op.topics) == before.saved.value.topics))
  }

  lemma MirrorKept(cfg: Config, v: View, op: Op)
    requires cfg.persistent && Mirror(v)
    requires op.Restore? && v.saved.Some? ==> (set t | t in op.topics) == v.saved.value.topics
    ensures Mirror(Do(cfg, v, op))
    ensures op.Subscribe? && Succeeds(op.t) ==> Do(cfg, v, op).saved.Some?
    ensures op.Unsubscribe? && op.accepted ==> Do(cfg, v, op).saved.Some?
  {
    if op.Restore? && v.saved.Some? && !Expired(v.saved.value, op.now) && op.connected {
      var w := v.(sequence := v.saved.value.sequence);
      ResubscribedEffect(cfg, w, op.topics, op.trials);
    }
  }

  /** For a persistent session whose store mirrors its registry, every run of operations
      one at a time keeps it so. */
  lemma {:induction false} MirrorRun(cfg: Config, v: View, ops: seq<Op>)
    requires cfg.persistent && Mirror(v) && Consistent(cfg, v, ops)
    ensures Mirror(DoAll(cfg, v, ops))
  {
    if ops != [] {
      var n := |ops| - 1;
      MirrorRun(cfg, v, ops[..n]);
      MirrorKept(cfg, DoAll(cfg, v, ops[..n]), ops[n]);
    }
  }

  /** The first successful `Subscribe` or `Unsubscribe` makes the mirror, whatever the
      store held from an earlier life of the session. */
  lemma MirrorMade(cfg: Config, v: View, op: Op)
    requires cfg.persistent
    requires (op.Subscribe? && Succeeds(op.t)) || (op.Unsubscribe? && op.accepted)
    ensures Mirror(Do(cfg, v, op)) && Do(cfg, v, op).saved.Some?
  {
  }

  /** Saving, then restoring into a fresh connected session of the same name before
      expiry with every resubscription succeeding, gives back the topics and the
      sequence number, and leaves a store that lists them again. */
  lemma RoundTrip(cfg: Config, v: View, saveTime: int, restoreTime: int, topics: seq<string>, trials: nat -> Trial)
    requires cfg.persistent && restoreTime <= saveTime + Lifetime(cfg.storage)
    requires (set t | t in topics) == v.handlers.Keys
    requires forall i :: 0 <= i < |topics| ==> Succeeds(trials(i))
    ensures var newborn := View(map[], 0, Save(cfg, v, saveTime).saved);
            var w := Restored(cfg, newborn, true, restoreTime, topics, trials);
            w.handlers.Keys == v.handlers.Keys && w.sequence == v.sequence && Mirror(w)
  {
    var w := View(map[], v.sequence, Save(cfg, v, saveTime).saved);
    ResubscribedEffect(cfg, w, topics, trials);
    assert Regained(topics, trials) == (set t | t in topics);
  }
}
