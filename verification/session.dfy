/** `Session`: the handler registry, its state in a `MemoryStore`, and the reconnect
    clock, with the callbacks and retry loops that change them. */
module Session {
  import opened Wrappers
  import opened SessionSpec
  import opened Store
  import Backoff

  const MAX_RETRIES: nat := 3

  datatype SubscribeResult = SubscribeOk | NotConnected | BrokerError

  ghost function SavedOf(s: SessionState): Saved
    reads s
  {
    Saved(set x | x in s.topics :: x.topic, s.lastSequence, s.clientId, s.sessionExpiry, s.lastDisconnected)
  }

  /** The topics a stored state lists. */
  ghost function StoredTopics(s: SessionState): set<string> {
    set x | x in s.topics :: x.topic
  }

  function TopicNames(topics: seq<TopicSubscription>): seq<string> {
    seq(|topics|, i requires 0 <= i < |topics| => topics[i].topic)
  }

  /** The list `RestoreState` walks is the stored topic set in some order. */
  lemma NamesAreTopics(s: SessionState)
    ensures (set t | t in TopicNames(s.topics)) == SavedOf(s).topics
  {
    var names := TopicNames(s.topics);
    forall x | x in s.topics ensures x.topic in names {
      var i :| 0 <= i < |s.topics| && s.topics[i] == x;
      assert names[i] == x.topic;
    }
    forall t | t in names ensures t in SavedOf(s).topics {
      var i :| 0 <= i < |names| && names[i] == t;
      assert s.topics[i] in s.topics;
    }
  }

  ghost function SubscribedAll(cfg: Config, v: View, own: seq<(string, Handler)>, trials: nat -> Trial): View {
    if own == [] then v
    else
      var n := |own| - 1;
      Subscribed(cfg, SubscribedAll(cfg, v, own[..n], trials), own[n].0, own[n].1, trials(n))
  }

  /** Subscribing other topics leaves a handler alone. */
  lemma {:induction false} OthersUntouched(cfg: Config, v: View, own: seq<(string, Handler)>, trials: nat -> Trial,
                                           t: string)
    requires t in v.handlers && forall k :: 0 <= k < |own| ==> own[k].0 != t
    ensures var w := SubscribedAll(cfg, v, own, trials);
            t in w.handlers && w.handlers[t] == v.handlers[t]
  {
    if own != [] {
      OthersUntouched(cfg, v, own[..|own| - 1], trials, t);
    }
  }

  /** A topic of the options has the handler of its last accepted subscription there. */
  lemma {:induction false} OwnHandler(cfg: Config, v: View, own: seq<(string, Handler)>, trials: nat -> Trial, k: nat)
    requires k < |own| && Succeeds(trials(k))
    requires forall j :: k < j < |own| && own[j].0 == own[k].0 ==> !Succeeds(trials(j))
    ensures var w := SubscribedAll(cfg, v, own, trials);
            own[k].0 in w.handlers && w.handlers[own[k].0] == own[k].1
  {
    var n := |own| - 1;
    if k < n {
      OwnHandler(cfg, v, own[..n], trials, k);
    }
  }

  ghost function OwnTopics(own: seq<(string, Handler)>, trials: nat -> Trial): set<string> {
    set k | 0 <= k < |own| && Succeeds(trials(k)) :: own[k].0
  }

  /** Subscribing the topics of the options adds those that are accepted. */
  lemma {:induction false} SubscribedTopics(cfg: Config, v: View, own: seq<(string, Handler)>, trials: nat -> Trial)
    requires cfg.persistent && Mirror(v)
    ensures var w := SubscribedAll(cfg, v, own, trials);
            w.handlers.Keys == v.handlers.Keys + OwnTopics(own, trials) && w.sequence == v.sequence && Mirror(w)
  {
    if own != [] {
      var n := |own| - 1;
      SubscribedTopics(cfg, v, own[..n], trials);
      OwnTopicsMore(own, trials);
    } else {
      assert v.handlers.Keys + {} == v.handlers.Keys;
    }
  }

  lemma OwnTopicsMore(own: seq<(string, Handler)>, trials: nat -> Trial)
    requires own != []
    ensures var n := |own| - 1;
            OwnTopics(own, trials) == OwnTopics(own[..n], trials) + (if Succeeds(trials(n)) then {own[n].0} else {})
  {
    var n := |own| - 1;
    var rest := OwnTopics(own[..n], trials);
    forall x | x in OwnTopics(own, trials) ensures x in rest || (Succeeds(trials(n)) && x == own[n].0) {
      var k :| 0 <= k < |own| && Succeeds(trials(k)) && own[k].0 == x;
      if k < n { assert own[..n][k] == own[k]; }
    }
    forall x | x in rest ensures x in OwnTopics(own, trials) {
      var k :| 0 <= k < n && Succeeds(trials(k)) && own[..n][k].0 == x;
      assert own[k].0 == x;
    }
  }

  class Session {
    const cfg: Config
    const backoff: Backoff.Config
    const store: MemoryStore
    var status: Status
    var sequence: nat
    var messageHandlers: map<string, Handler>
    var reconnectCount: nat   // a uint32
    var nextReconnect: int

    ghost function View(): View
      reads this, store, store.states.Values
    {
      SessionSpec.View(messageHandlers, sequence,
                       if cfg.name in store.states then Some(SavedOf(store.states[cfg.name])) else None)
    }

    ghost function Clock(): Backoff.Clock
      reads this
    {
      Backoff.Clock(reconnectCount, nextReconnect)
    }

    /** `newSession` up to its first `restoreState`. */
    constructor (cfg: Config, backoff: Backoff.Config, store: MemoryStore)
      ensures this.cfg == cfg && this.backoff == backoff && this.store == store
      ensures messageHandlers == map[] && sequence == 0 && status == Disconnected
      ensures Clock() == Backoff.Fresh(backoff) && reconnectCount == 0 && nextReconnect == backoff.initial
    {
      this.cfg, this.backoff, this.store := cfg, backoff, store;
      status, sequence, messageHandlers := Disconnected, 0, map[];
      reconnectCount, nextReconnect := 0, backoff.initial;
    }

    /** Stores a new state object; the one stored before is not changed. */
    method SaveState(now: int)
      modifies store
      ensures View() == Save(cfg, old(View()), now)
      ensures store.states == old(store.states)[cfg.name := store.states[cfg.name]]
      ensures fresh(store.states[cfg.name])
      ensures var s := store.states[cfg.name];
              && StoredTopics(s) == messageHandlers.Keys
              && s.lastSequence == sequence && s.clientId == cfg.clientId && s.lastDisconnected == None
              && s.sessionExpiry == if !cfg.persistent then None
                                    else if cfg.storage.RedisStorage?
                                    then Some(now + cfg.storage.ttlSeconds * 1_000_000_000)
                                    else Some(now + 86_400_000_000_000)
    {
      var topics: seq<TopicSubscription> := [];
      var todo := messageHandlers.Keys;
      while todo != {}
        invariant todo <= messageHandlers.Keys
        invariant (set x | x in topics :: x.topic) == messageHandlers.Keys - todo
      {
        var topic :| topic in todo;
        ghost var was := topics;
        topics := topics + [TopicSubscription(topic, 0)];
        todo := todo - {topic};
        assert (set x | x in topics :: x.topic) == (set x | x in was :: x.topic) + {topic};
      }
      assert (set x | x in topics :: x.topic) == messageHandlers.Keys;
      var expiry: Option<int> := None;
      if cfg.persistent {
        expiry := Some(now + Lifetime(cfg.storage));
      }
      var state := new SessionState(topics, sequence, cfg.clientId, expiry);
      store.SaveState(cfg.name, state);
    }

    /** Three tries; other callbacks may change the status between them. */
    method Subscribe(topic: string, handler: Handler, t: Trial) returns (r: SubscribeResult)
      modifies this`status, this`messageHandlers, store
      ensures View() == Subscribed(cfg, old(View()), topic, handler, t)
      ensures r == if Succeeds(t) then SubscribeOk
                   else if t.third.status != Connected then NotConnected
                   else BrokerError
      ensures r == SubscribeOk <==>
                || (t.first.status == Connected && t.first.accepted)
                || (t.second.status == Connected && t.second.accepted)
                || (t.third.status == Connected && t.third.accepted)
      ensures messageHandlers == if r == SubscribeOk then old(messageHandlers)[topic := handler]
                                 else old(messageHandlers)
      ensures r != SubscribeOk || !cfg.persistent ==> store.states == old(store.states)
      ensures r == SubscribeOk && cfg.persistent ==>
                cfg.name in store.states && StoredTopics(store.states[cfg.name]) == messageHandlers.Keys
      ensures status == (if Works(t.first) then t.first else if Works(t.second) then t.second else t.third).status
      ensures forall n :: n in old(store.states) && n != cfg.name ==>
                n in store.states && store.states[n] == old(store.states)[n]
    {
      r := NotConnected;
      for i := 0 to MAX_RETRIES
        invariant unchanged(store) && messageHandlers == old(messageHandlers)
        invariant i >= 1 ==> !Works(t.first)
        invariant i >= 2 ==> !Works(t.second)
        invariant i == MAX_RETRIES ==> false
      {
        var attempt := if i == 0 then t.first else if i == 1 then t.second else t.third;
        status := attempt.status;
        if status != Connected {
          r := NotConnected;
          if i < MAX_RETRIES - 1 { continue; }
          return;
        }
        if !attempt.accepted {
          r := BrokerError;
          if i < MAX_RETRIES - 1 { continue; }
          return;
        }
        messageHandlers := messageHandlers[topic := handler];
        if cfg.persistent {
          SaveState(t.now);
        }
        return SubscribeOk;
      }
    }

    method Unsubscribe(topics: seq<string>, accepted: bool, now: int) returns (ok: bool)
      modifies this`messageHandlers, store
      ensures ok <==> status == Connected && accepted
      ensures View() == if ok then Unsubscribed(cfg, old(View()), topics, now) else old(View())
      ensures ok ==> forall t :: t in messageHandlers <==> t in old(messageHandlers) && t !in topics
      ensures ok ==> forall t :: t in messageHandlers ==> messageHandlers[t] == old(messageHandlers)[t]
      ensures ok && cfg.persistent ==>
                cfg.name in store.states && StoredTopics(store.states[cfg.name]) == messageHandlers.Keys
      ensures !ok ==> messageHandlers == old(messageHandlers)
      ensures !ok || !cfg.persistent ==> store.states == old(store.states)
    {
      if status != Connected || !accepted {
        return false;
      }
      ghost var was := messageHandlers;
      for i := 0 to |topics|
        invariant messageHandlers == was - set t | t in topics[..i]
        invariant unchanged(store)
      {
        messageHandlers := messageHandlers - {topics[i]};
        assert topics[..i + 1] == topics[..i] + [topics[i]];
      }
      assert topics[..|topics|] == topics;
      if cfg.persistent {
        SaveState(now);
      }
      return true;
    }

    /** The loop reads the loaded list while every successful turn stores a new state. */
    method RestoreState(now: int, trials: nat -> Trial)
      modifies this`status, this`messageHandlers, this`sequence, store
      ensures cfg.name !in old(store.states) ==> View() == old(View()) && status == old(status)
      ensures cfg.name in old(store.states) ==>
                View() == Restored(cfg, old(View()), old(status) == Connected, now,
                                   TopicNames(old(store.states)[cfg.name].topics), trials)
      ensures cfg.name !in old(store.states) ==>
                && messageHandlers == old(messageHandlers) && sequence == old(sequence)
                && store.states == old(store.states)
      ensures cfg.name in old(store.states) ==>
                var s := old(store.states)[cfg.name];
                if s.sessionExpiry.Some? && now > s.sessionExpiry.value then
                  && messageHandlers == old(messageHandlers) && sequence == old(sequence)
                  && store.states == old(store.states) - {cfg.name}
                else
                  && sequence == s.lastSequence
                  && (old(status) != Connected ==>
                        messageHandlers == old(messageHandlers) && store.states == old(store.states))
    {
      var state := store.LoadState(cfg.name);
      if state == null {
        return;
      }
      if state.sessionExpiry.Some? && now > state.sessionExpiry.value {
        store.DeleteState(cfg.name);
        return;
      }
      sequence := state.lastSequence;
      if status == Connected {
        ghost var v := View();
        ghost var names := TopicNames(state.topics);
        for i := 0 to |state.topics|
          invariant View() == Resubscribed(cfg, v, names[..i], trials) && sequence == state.lastSequence
        {
          var topic := state.topics[i].topic;
          assert names[..i + 1][..i] == names[..i];
          var _ := Subscribe(topic, RestoredHandler(topic), trials(i));
        }
        assert names[..|names|] == names;
      }
    }

    /** The stored object itself gets the time of the disconnect, then is stored again. */
    method HandleConnectionLost(now: int)
      modifies this`status, store, store.states.Values
      ensures status == Disconnected && View() == ConnectionLost(cfg, old(View()), now)
      ensures store.states == old(store.states)
      ensures cfg.persistent && cfg.name in store.states ==> store.states[cfg.name].lastDisconnected == Some(now)
    {
      status := Disconnected;
      if cfg.persistent {
        var state := store.LoadState(cfg.name);
        if state != null {
          state.lastDisconnected := Some(now);
          store.SaveState(cfg.name, state);
        }
      }
    }

    /** The state part of `Disconnect`. */
    method Disconnect(clientConnected: bool, now: int)
      modifies this`status, store
      ensures status == Closed
      ensures View() == if clientConnected then SaveIfPersistent(cfg, old(View()), now) else old(View())
      ensures clientConnected && cfg.persistent ==>
                cfg.name in store.states && StoredTopics(store.states[cfg.name]) == messageHandlers.Keys
      ensures !clientConnected || !cfg.persistent ==> store.states == old(store.states)
    {
      if clientConnected && cfg.persistent {
        SaveState(now);
      }
      status := Closed;
    }

    /** What a connect leaves of the view: the restored state when so configured, then
        the topics of the options. */
    ghost function ConnectedView(now: int, trials: nat -> Trial,
                                 own: seq<(string, Handler)>, ownTrials: nat -> Trial): View
      reads this, store, store.states.Values
    {
      var v := if cfg.persistent && cfg.resumeSubs && cfg.name in store.states
               then Restored(cfg, View(), true, now, TopicNames(store.states[cfg.name].topics), trials)
               else View();
      SubscribedAll(cfg, v, own, ownTrials)
    }

    /** Resets the clock, restores when so configured, then subscribes the topics of the
        options, each with its own handler. */
    method HandleConnect(now: int, trials: nat -> Trial, own: seq<(string, Handler)>, ownTrials: nat -> Trial)
      modifies this, store
      ensures Clock() == Backoff.Connected()
      ensures View() == old(ConnectedView(now, trials, own, ownTrials))
      ensures reconnectCount == 0 && nextReconnect == 0
      ensures !(cfg.persistent && cfg.resumeSubs) && own == [] ==>
                && messageHandlers == old(messageHandlers) && sequence == old(sequence)
                && store.states == old(store.states) && status == Connected
    {
      status := Connected;
      reconnectCount := 0;
      nextReconnect := 0;
      if cfg.persistent && cfg.resumeSubs {
        RestoreState(now, trials);
      }
      ghost var v, before := View(), (messageHandlers, sequence, store.states, status);
      for i := 0 to |own|
        invariant View() == SubscribedAll(cfg, v, own[..i], ownTrials)
        invariant Clock() == Backoff.Connected()
        invariant i == 0 ==> (messageHandlers, sequence, store.states, status) == before
      {
        assert own[..i + 1][..i] == own[..i];
        var _ := Subscribe(own[i].0, own[i].1, ownTrials(i));
      }
      assert own[..|own|] == own;
    }

    /** A reconnect that resumes subscriptions replaces the handler of every regained
        topic by the logging one, the user's subscriptions of before the outage included;
        only topics of the options get their own handler back. */
    lemma ReconnectReplaces(now: int, trials: nat -> Trial, own: seq<(string, Handler)>, ownTrials: nat -> Trial,
                            t: string)
      requires cfg.persistent && cfg.resumeSubs && cfg.name in store.states
      requires Mirror(View()) && !Expired(SavedOf(store.states[cfg.name]), now)
      requires t in messageHandlers && forall k :: 0 <= k < |own| ==> own[k].0 != t
      ensures var w := ConnectedView(now, trials, own, ownTrials);
              && t in w.handlers
              && w.handlers[t] == if t in Regained(TopicNames(store.states[cfg.name].topics), trials)
                                  then RestoredHandler(t) else messageHandlers[t]
    {
      hide Restored, Regained;
      var state := store.states[cfg.name];
      NamesAreTopics(state);
      RestoreReplaces(cfg, View(), now, TopicNames(state.topics), trials);
      OthersUntouched(cfg, Restored(cfg, View(), true, now, TopicNames(state.topics), trials), own, ownTrials, t);
    }

    /** `wild` is what a float conversion outside the int64 range would give. */
    method HandleReconnecting(wild: int)
      modifies this`status, this`reconnectCount, this`nextReconnect
      ensures status == Reconnecting && Clock() == Backoff.Attempt(old(Clock()), backoff, wild)
      ensures reconnectCount == (old(reconnectCount) + 1) % 0x1_0000_0000
      ensures nextReconnect == if reconnectCount == 1 || old(nextReconnect) == 0 then backoff.initial
                               else
                                 var product := Backoff.Scale(old(nextReconnect), backoff.factor);
                                 var next := Backoff.ToDuration(product, wild);
                                 if next > backoff.max then backoff.max else next
    {
      hide Backoff.Scale, Backoff.ToDuration;
      status := Reconnecting;
      reconnectCount := (reconnectCount + 1) % TWO_32;
      if reconnectCount == 1 || nextReconnect == 0 {
        nextReconnect := backoff.initial;
      } else {
        var newInterval := Backoff.ToDuration(Backoff.Scale(nextReconnect, backoff.factor), wild);
        if newInterval > backoff.max {
          nextReconnect := backoff.max;
        } else {
          nextReconnect := newInterval;
        }
      }
    }
  }

  /** A restart: the state is saved, a new session of the same name is made over the same
      store (which restores once while disconnected) and then connects, with topics of its
      own in the options. Before expiry, with every stored subscription accepted, it has
      the old sequence number, and the old topics and those of its own that were accepted. */
  method Restart(s: Session, saveTime: int, made: int, connected: int, trials: nat -> Trial,
                 own: seq<(string, Handler)>, ownTrials: nat -> Trial)
    returns (t: Session)
    requires s.cfg.persistent && s.cfg.resumeSubs && forall i: nat :: Succeeds(trials(i))
    requires made <= saveTime + Lifetime(s.cfg.storage) && connected <= saveTime + Lifetime(s.cfg.storage)
    modifies s.store
    ensures fresh(t) && t.cfg == s.cfg && t.store == s.store
    ensures t.messageHandlers.Keys == s.messageHandlers.Keys + OwnTopics(own, ownTrials) && t.sequence == s.sequence
    ensures Mirror(t.View())
  {
    hide Resubscribed, SubscribedAll, OwnTopics;
    ghost var v := s.View();
    s.SaveState(saveTime);
    t := new Session(s.cfg, s.backoff, s.store);
    t.RestoreState(made, trials);
    ghost var names := TopicNames(t.store.states[t.cfg.name].topics);
    NamesAreTopics(t.store.states[t.cfg.name]);
    RoundTrip(t.cfg, v, saveTime, connected, names, trials);
    SubscribedTopics(t.cfg, Restored(t.cfg, t.View(), true, connected, names, trials), own, ownTrials);
    t.HandleConnect(connected, trials, own, ownTrials);
  }
}
