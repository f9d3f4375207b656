/** Which errors share an entry of the table. The key joins session, category and text with
    colons; it tells errors apart as long as no session and no category has one. */
module ErrorIdentity {
  import opened ErrorTable

  /** The text before the first colon; what follows it is free. */
  lemma CutAtColon(a: string, b: string, x: string, y: string)
    requires ':' !in a && ':' !in b && a + ":" + x == b + ":" + y
    ensures a == b && x == y
  {
    var s := a + ":" + x;
    assert s[|a|] == ':' && s[|b|] == ':';
    assert forall i :: 0 <= i < |a| ==> s[i] == a[i];
    assert forall i :: 0 <= i < |b| ==> s[i] == b[i];
    assert |a| == |b|;
    assert a == s[..|a|] && b == s[..|b|];
    assert x == s[|a| + 1..] && y == s[|b| + 1..];
  }

  ghost predicate Plain(session: string, category: string) {
    ':' !in session && ':' !in category
  }

  /** Different errors have different keys, whatever their texts. */
  lemma KeysTellApart(session: string, category: string, text: string,
                      session': string, category': string, text': string)
    requires Plain(session, category) && Plain(session', category')
    ensures ErrorId(session, category, text) == ErrorId(session', category', text')
            <==> session == session' && category == category' && text == text'
  {
    if ErrorId(session, category, text) == ErrorId(session', category', text') {
      var x, y := category + ":" + text, category' + ":" + text';
      assert session + ":" + x == ErrorId(session, category, text);
      assert session' + ":" + y == ErrorId(session', category', text');
      CutAtColon(session, session', x, y);
      CutAtColon(category, category', text, text');
    }
  }

  /** A session name with a colon can share an entry with another error. */
  lemma ColonsCollide()
    ensures ErrorId("a:b", "c", "d") == ErrorId("a", "b:c", "d")
  {
    assert "a:b" + ":" + "c" + ":" + "d" == "a" + ":" + "b:c" + ":" + "d";
  }

  /** Each entry is under the key of its own error, and no session or category has a colon. */
  ghost predicate Keyed(t: Table) {
    forall k :: k in t ==> Plain(t[k].session, t[k].category) && k == ErrorId(t[k].session, t[k].category, t[k].text)
  }

  ghost predicate Holds(t: Table, session: string, category: string, text: string) {
    exists k :: k in t && t[k].session == session && t[k].category == category && t[k].text == text
  }

  /** An error is in the table exactly when its key is. */
  lemma HeldByKey(t: Table, session: string, category: string, text: string)
    requires Keyed(t) && Plain(session, category)
    ensures Holds(t, session, category, text) <==> ErrorId(session, category, text) in t
  {
    hide ErrorId;
    if ErrorId(session, category, text) in t {
      var e := t[ErrorId(session, category, text)];
      KeysTellApart(session, category, text, e.session, e.category, e.text);
    }
  }

  lemma EntryOf(t: Table, limit: nat, id: string, info: Info, after: Table)
    requires Registered(t, limit, id, info, after)
    ensures id in after
    ensures after[id] == info || (id in t && after[id] == t[id].(retries := t[id].retries + 1))
  {
  }

  lemma KeyedKept(t: Table, limit: nat, session: string, category: string, text: string, now: int, after: Table)
    requires limit >= 1 && Keyed(t) && Plain(session, category)
    requires Registered(t, limit, ErrorId(session, category, text), NewInfo(session, category, text, now), after)
    ensures Keyed(after)
  {
    hide ErrorId, Plain, DetermineSeverity, DetermineStrategy, Registered;
    var id, info := ErrorId(session, category, text), NewInfo(session, category, text, now);
    RegistrationEffect(t, limit, id, info, after);
    EntryOf(t, limit, id, info, after);
  }

  /** The error has an entry of its own now, with no retries and not recovered, and no other
      entry that stays changed, its retry count included. */
  ghost predicate AddedAlone(t: Table, session: string, category: string, text: string, now: int, after: Table) {
    var id := ErrorId(session, category, text);
    && id !in t && id in after
    && after[id].session == session && after[id].category == category && after[id].text == text
    && after[id].time == now && after[id].retries == 0 && !after[id].recovered
    && after[id].severity == DetermineSeverity(category)
    && after[id].strategy == DetermineStrategy(category, DetermineSeverity(category))
    && forall k :: k in after && k != id ==> k in t && after[k] == t[k]
  }

  /** A new session, category and text make a new entry. */
  lemma NewErrorAdded(t: Table, limit: nat, session: string, category: string, text: string, now: int, after: Table)
    requires limit >= 1 && Keyed(t) && Plain(session, category) && !Holds(t, session, category, text)
    requires Registered(t, limit, ErrorId(session, category, text), NewInfo(session, category, text, now), after)
    ensures AddedAlone(t, session, category, text, now, after)
  {
    hide ErrorId, DetermineSeverity, DetermineStrategy, Registered;
    var id, info := ErrorId(session, category, text), NewInfo(session, category, text, now);
    HeldByKey(t, session, category, text);
    RegistrationEffect(t, limit, id, info, after);
    EntryOf(t, limit, id, info, after);
  }

  /** Below the limit, a known error counts one retry more, and nothing else changes. */
  lemma KnownErrorCounted(t: Table, limit: nat, session: string, category: string, text: string, now: int, after: Table)
    requires Keyed(t) && Plain(session, category) && Holds(t, session, category, text) && |t| < limit
    requires Registered(t, limit, ErrorId(session, category, text), NewInfo(session, category, text, now), after)
    ensures var id := ErrorId(session, category, text);
            id in t && after == t[id := t[id].(retries := t[id].retries + 1)]
  {
    hide ErrorId;
    HeldByKey(t, session, category, text);
  }

  /** Severity and strategy of each category of errors. */
  lemma Classified(category: string)
    ensures DetermineSeverity(category) == Critical <==> category == "authentication" || category == "internal"
    ensures var strategy := DetermineStrategy(category, DetermineSeverity(category));
            && (strategy == Reconnect <==> category == "connection")
            && (strategy == Retry <==> category == "subscription" || category == "publish")
  {
    assert "connection"[0] != "authentication"[0] && "connection"[0] != "internal"[0];
    assert "connection"[0] != "subscription"[0] && "connection"[0] != "publish"[0];
  }
}
