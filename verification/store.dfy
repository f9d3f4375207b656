/** `MemoryStore`: a map of shared `*SessionState` pointers. */
module Store {
  import opened Wrappers

  datatype TopicSubscription = TopicSubscription(topic: string, qos: byte)

  /** The stored fields the session reads back; the message fields are always empty. */
  class SessionState {
    const topics: seq<TopicSubscription>
    const lastSequence: nat
    const clientId: string
    const sessionExpiry: Option<int>  // `None` is the zero time
    var lastDisconnected: Option<int>

    constructor (topics: seq<TopicSubscription>, lastSequence: nat, clientId: string, sessionExpiry: Option<int>)
      ensures this.topics == topics && this.lastSequence == lastSequence
      ensures this.clientId == clientId && this.sessionExpiry == sessionExpiry && lastDisconnected == None
    {
      this.topics, this.lastSequence := topics, lastSequence;
      this.clientId, this.sessionExpiry, this.lastDisconnected := clientId, sessionExpiry, None;
    }
  }

  class MemoryStore {
    var states: map<string, SessionState>

    constructor ()
      ensures states == map[]
    {
      states := map[];
    }

    method SaveState(name: string, state: SessionState)
      modifies this
      ensures states == old(states)[name := state]
    {
      states := states[name := state];
    }

    /** The very object that was saved, or nil. */
    method LoadState(name: string) returns (state: SessionState?)
      ensures if name in states then state == states[name] else state == null
    {
      if name !in states {
        return null;
      }
      return states[name];
    }

    method DeleteState(name: string)
      modifies this
      ensures states == old(states) - {name}
    {
      states := states - {name};
    }
  }
}
