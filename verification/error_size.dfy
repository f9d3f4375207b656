/** What registrations do to the size of the table, above its limit too, where overlapping
    registrations can leave it. */
module ErrorSize {
  import opened ErrorTable
  import opened Tally

  ghost predicate DistinctTimes(t: Table) {
    forall j, k :: j in t && k in t && j != k ==> t[j].time != t[k].time
  }

  /** The size after one registration, whatever the table held. What is left after clearing
      decides once the limit is reached: a new error then takes the place of an oldest one;
      a known one needs no place, but an oldest one goes all the same, unless that is the
      known one itself. */
  lemma RegisteredSize(t: Table, limit: nat, id: string, info: Info, after: Table)
    requires limit >= 1 && Registered(t, limit, id, info, after)
    ensures |t| < limit ==> |after| == |t| + One(id !in t)
    ensures var c := Cleared(t);
            && (|t| >= limit && |c| < limit ==> |after| == |c| + One(id !in c))
            && (|t| >= limit && |c| >= limit ==>
                  && (|after| == |c| || |after| == |c| - 1)
                  && (id !in c ==> |after| == |c|)
                  && (id in c && !Oldest(c, id) ==> |after| == |c| - 1)
                  && (DistinctTimes(c) ==> (|after| < |c| <==> id in c && !Oldest(c, id))))
  {
    hide Inserted, Cleared;
    var mid :| MadeRoom(t, limit, mid) && after == Inserted(mid, id, info);
    InsertSize(mid, id, info);
    var c := Cleared(t);
    if |t| >= limit && |c| >= limit {
      var oldest :| Oldest(c, oldest) && mid == c - {oldest};
      RemoveSize(c, oldest);
    }
  }

  /** Among equal times the map order chooses. A full table can get smaller exactly when the
      error is known and some other one may be chosen. */
  lemma MayShrink(t: Table, limit: nat, id: string, info: Info)
    requires limit >= 1 && |t| >= limit && |Cleared(t)| >= limit
    ensures (exists after :: Registered(t, limit, id, info, after) && |after| < |Cleared(t)|)
            <==> id in Cleared(t) && exists other :: other != id && Oldest(Cleared(t), other)
  {
    hide Inserted, Cleared;
    var c := Cleared(t);
    if after :| Registered(t, limit, id, info, after) && |after| < |c| {
      var mid :| MadeRoom(t, limit, mid) && after == Inserted(mid, id, info);
      InsertSize(mid, id, info);
      var oldest :| Oldest(c, oldest) && mid == c - {oldest};
      RemoveSize(c, oldest);
      RegisteredSize(t, limit, id, info, after);
      assert oldest != id;
    }
    if id in c {
      if other :| other != id && Oldest(c, other) {
        var mid := c - {other};
        assert MadeRoom(t, limit, mid);
        InsertSize(mid, id, info);
        RemoveSize(c, other);
        assert Registered(t, limit, id, info, Inserted(mid, id, info));
      }
    }
  }

  /** A known error that is not the oldest needs no room, and an oldest one is lost for it. */
  lemma RepeatLosesOldest(t: Table, limit: nat, id: string, info: Info, after: Table) returns (lost: string)
    requires limit >= 1 && |t| >= limit && |Cleared(t)| >= limit && Registered(t, limit, id, info, after)
    requires id in Cleared(t) && !Oldest(Cleared(t), id)
    ensures Oldest(Cleared(t), lost) && lost != id && after.Keys == Cleared(t).Keys - {lost}
    ensures after[id] == t[id].(retries := t[id].retries + 1)
  {
    var mid :| MadeRoom(t, limit, mid) && after == Inserted(mid, id, info);
    lost :| Oldest(Cleared(t), lost) && mid == Cleared(t) - {lost};
  }

  lemma TwoEntries(a: Info, b: Info)
    requires a.time < b.time && !a.recovered && !b.recovered
    ensures var t: Table := map["a" := a, "b" := b];
            Cleared(t) == t && |t| == 2 && "b" in t && !Oldest(t, "b") && t.Keys - {"a"} == {"b"}
  {
    AddSize(map["a" := a], "b", b);
    AddSize<Info>(map[], "a", a);
    var t: Table := map["a" := a, "b" := b];
    assert "a"[0] != "b"[0];
    assert map["a" := a]["b" := b] == t && map[]["a" := a] == map["a" := a];
    assert t["a"] == a && t["b"] == b;
  }

  /** The smallest table above its limit that comes back to it with no recovery. */
  lemma SmallestReturn(a: Info, b: Info, info: Info, after: Table)
    requires a.time < b.time && !a.recovered && !b.recovered
    requires Registered(map["a" := a, "b" := b], 1, "b", info, after)
    ensures |map["a" := a, "b" := b]| == 2 && |after| == 1
    ensures after.Keys == {"b"} && after["b"] == b.(retries := b.retries + 1)
  {
    hide Cleared, Registered, Oldest;
    var t: Table := map["a" := a, "b" := b];
    TwoEntries(a, b);
    var lost := RepeatLosesOldest(t, 1, "b", info, after);
    assert lost == "a" by { OldestIsThere(t, lost); }
    RegisteredSize(t, 1, "b", info, after);
  }

  // ---- Whole runs ----

  /** As long as errors are new and none recovers, a table at or above its limit keeps its
      size. */
  lemma {:induction false} NewErrorsKeepSize(rs: seq<Registration>, limit: nat, ts: seq<Table>)
    requires limit >= 1 && IsRun(rs, limit, ts) && |ts[0]| >= limit
    requires forall i :: 0 <= i < |rs| ==> Cleared(ts[i]) == ts[i] && rs[i].id !in ts[i]
    ensures |ts[|rs|]| == |ts[0]|
  {
    hide Registered, Cleared;
    if rs != [] {
      var n := |rs| - 1;
      NewErrorsKeepSize(rs[..n], limit, ts[..n + 1]);
      RegisteredSize(ts[n], limit, rs[n].id, rs[n].info, ts[n + 1]);
    }
  }

  /** Nothing recovered, no two errors of one time. */
  ghost predicate Calm(t: Table) {
    Cleared(t) == t && DistinctTimes(t)
  }

  ghost predicate Later(t: Table, info: Info) {
    !info.recovered && forall k :: k in t ==> t[k].time < info.time
  }

  /** A run with no recoveries and a clock that goes on; errors may repeat. */
  ghost predicate CalmRun(rs: seq<Registration>, limit: nat, ts: seq<Table>) {
    && IsRun(rs, limit, ts) && Calm(ts[0])
    && forall i :: 0 <= i < |rs| ==> Later(ts[i], rs[i].info)
  }

  lemma CalmStep(t: Table, limit: nat, id: string, info: Info, after: Table)
    requires Calm(t) && Later(t, info) && Registered(t, limit, id, info, after)
    ensures Calm(after)
  {
    var mid :| MadeRoom(t, limit, mid) && after == Inserted(mid, id, info);
    assert forall k :: k in mid ==> k in t && mid[k] == t[k];
  }

  lemma {:induction false} CalmAt(rs: seq<Registration>, limit: nat, ts: seq<Table>, i: nat)
    requires CalmRun(rs, limit, ts) && i <= |rs|
    ensures Calm(ts[i])
  {
    hide Calm, Registered, Later;
    if i > 0 {
      CalmAt(rs, limit, ts, i - 1);
      CalmStep(ts[i - 1], limit, rs[i - 1].id, rs[i - 1].info, ts[i]);
    }
  }

  /** A known error that is not the oldest. */
  ghost predicate Repeated(t: Table, id: string) {
    id in t && !Oldest(t, id)
  }

  /** How often such an error is registered. */
  ghost function Repeats(rs: seq<Registration>, ts: seq<Table>): nat
    requires |rs| <= |ts|
  {
    if rs == [] then 0
    else
      var n := |rs| - 1;
      Repeats(rs[..n], ts[..n]) + One(Repeated(ts[n], rs[n].id))
  }

  lemma CalmPrefix(rs: seq<Registration>, limit: nat, ts: seq<Table>, i: nat)
    requires CalmRun(rs, limit, ts) && i <= |rs|
    ensures CalmRun(rs[..i], limit, ts[..i + 1])
  {
    hide Calm, Registered, Later;
  }

  lemma RepeatsMore(rs: seq<Registration>, ts: seq<Table>)
    requires rs != [] && |ts| == |rs| + 1
    ensures var n := |rs| - 1;
            Repeats(rs, ts) == Repeats(rs[..n], ts[..n + 1]) + One(Repeated(ts[n], rs[n].id))
  {
    RepeatsOf(rs[..|rs| - 1], ts[..|rs| - 1], ts[..|rs|]);
  }

  /** Only the tables before the registrations matter. */
  lemma {:induction false} RepeatsOf(rs: seq<Registration>, ts: seq<Table>, us: seq<Table>)
    requires |rs| <= |ts| <= |us| && us[..|ts|] == ts
    ensures Repeats(rs, ts) == Repeats(rs, us)
  {
    if rs != [] {
      var n := |rs| - 1;
      assert us[..n] == ts[..n] && us[n] == ts[n];
    }
  }

  lemma OneStep(rs: seq<Registration>, limit: nat, ts: seq<Table>, i: nat)
    requires limit >= 1 && CalmRun(rs, limit, ts) && i < |rs|
    ensures |ts[i]| >= limit ==> |ts[i + 1]| == |ts[i]| - One(Repeated(ts[i], rs[i].id))
    ensures |ts[i + 1]| <= limit || |ts[i + 1]| <= |ts[i]|
  {
    hide Registered;
    CalmAt(rs, limit, ts, i);
    RegisteredSize(ts[i], limit, rs[i].id, rs[i].info, ts[i + 1]);
  }

  /** Above the limit each repeat takes one entry, and nothing else changes the size. */
  lemma {:induction false} SizeAbove(rs: seq<Registration>, limit: nat, ts: seq<Table>)
    requires limit >= 1 && CalmRun(rs, limit, ts) && forall i :: 0 <= i < |rs| ==> |ts[i]| >= limit
    ensures |ts[|rs|]| == |ts[0]| - Repeats(rs, ts)
  {
    hide CalmRun, Repeated;
    if rs != [] {
      var n := |rs| - 1;
      CalmRunLength(rs, limit, ts);
      CalmPrefix(rs, limit, ts, n);
      SizeAbove(rs[..n], limit, ts[..n + 1]);
      OneStep(rs, limit, ts, n);
      RepeatsMore(rs, ts);
    }
  }

  lemma CalmRunLength(rs: seq<Registration>, limit: nat, ts: seq<Table>)
    requires CalmRun(rs, limit, ts)
    ensures |ts| == |rs| + 1
  {
  }

  lemma {:induction false} RepeatsGrow(rs: seq<Registration>, ts: seq<Table>, i: nat)
    requires i <= |rs| && |ts| == |rs| + 1
    ensures Repeats(rs[..i], ts[..i + 1]) <= Repeats(rs, ts)
    decreases |rs|
  {
    if i == |rs| {
      assert rs[..i] == rs && ts[..i + 1] == ts;
    } else {
      var n := |rs| - 1;
      assert rs[..n][..i] == rs[..i] && ts[..n + 1][..i + 1] == ts[..i + 1];
      RepeatsGrow(rs[..n], ts[..n + 1], i);
      RepeatsMore(rs, ts);
    }
  }

  /** If the table is down to its limit at `i`, enough errors were repeated. */
  lemma {:induction false} DownAt(rs: seq<Registration>, limit: nat, ts: seq<Table>, i: nat)
    requires limit >= 1 && CalmRun(rs, limit, ts) && i <= |rs| && |ts[i]| <= limit
    ensures Repeats(rs, ts) >= |ts[0]| - limit
    decreases i
  {
    hide CalmRun;
    CalmRunLength(rs, limit, ts);
    if j :| 0 <= j < i && |ts[j]| <= limit {
      DownAt(rs, limit, ts, j);
    } else {
      CalmPrefix(rs, limit, ts, i);
      SizeAbove(rs[..i], limit, ts[..i + 1]);
      RepeatsGrow(rs, ts, i);
    }
  }

  /** A table above its limit comes back to it, with nothing recovering, exactly when known
      errors that are not the oldest are registered as often as it has entries too many. */
  lemma {:induction false} ComesBackExactly(rs: seq<Registration>, limit: nat, ts: seq<Table>)
    requires limit >= 1 && CalmRun(rs, limit, ts)
    ensures (exists i :: 0 <= i <= |rs| && |ts[i]| <= limit) <==> Repeats(rs, ts) >= |ts[0]| - limit
  {
    hide CalmRun;
    CalmRunLength(rs, limit, ts);
    if i :| 0 <= i <= |rs| && |ts[i]| <= limit {
      DownAt(rs, limit, ts, i);
    } else {
      SizeAbove(rs, limit, ts);
      assert |ts[|rs|]| > limit;
    }
  }

  /** A table above its limit keeps its size exactly when no such error is registered. */
  lemma {:induction false} StaysAboveLimit(rs: seq<Registration>, limit: nat, ts: seq<Table>)
    requires limit >= 1 && CalmRun(rs, limit, ts) && |ts[0]| > limit
    ensures |ts[|rs|]| == |ts[0]| <==> Repeats(rs, ts) == 0
  {
    SizeBound(rs, limit, ts);
  }

  lemma {:induction false} SizeBound(rs: seq<Registration>, limit: nat, ts: seq<Table>)
    requires limit >= 1 && CalmRun(rs, limit, ts) && |ts[0]| > limit
    ensures |ts[|rs|]| <= |ts[0]|
    ensures |ts[|rs|]| == |ts[0]| <==> Repeats(rs, ts) == 0
  {
    hide CalmRun, Repeated;
    CalmRunLength(rs, limit, ts);
    if rs != [] {
      var n := |rs| - 1;
      CalmPrefix(rs, limit, ts, n);
      SizeBound(rs[..n], limit, ts[..n + 1]);
      OneStep(rs, limit, ts, n);
      RepeatsMore(rs, ts);
    }
  }

  // ---- Coming back by one error alone ----

  ghost predicate Newest(t: Table, id: string) {
    id in t && forall k :: k in t ==> t[k].time <= t[id].time
  }

  lemma {:induction false} SomeOldest(t: Table) returns (id: string)
    requires t != map[]
    ensures Oldest(t, id)
    decreases |t|
  {
    var k :| k in t;
    var rest := t - {k};
    RemoveSize(t, k);
    if rest == map[] {
      assert t.Keys == {k} + rest.Keys;
      id := k;
    } else {
      var j := SomeOldest(rest);
      id := if t[k].time < t[j].time then k else j;
      assert forall x :: x in t ==> x == k || x in rest;
    }
  }

  lemma AnotherKey(t: Table, id: string) returns (other: string)
    requires id in t && |t| >= 2
    ensures other in t && other != id
  {
    RemoveSize(t, id);
    assert t - {id} != map[];
    other :| other in t - {id};
  }

  /** With two entries the newest is not the oldest. */
  lemma NewestIsRepeated(t: Table, id: string)
    requires DistinctTimes(t) && Newest(t, id) && |t| >= 2
    ensures Repeated(t, id)
  {
    var other := AnotherKey(t, id);
    assert t[other].time < t[id].time;
  }

  /** A repeat of the newest error, above the limit. */
  lemma NewestAgain(t: Table, limit: nat, id: string, info: Info, after: Table)
    requires limit >= 1 && Calm(t) && Newest(t, id) && |t| > limit && Registered(t, limit, id, info, after)
    ensures |after| == |t| - 1 && Calm(after) && Newest(after, id)
  {
    NewestIsRepeated(t, id);
    var lost := RepeatLosesOldest(t, limit, id, info, after);
    RegisteredSize(t, limit, id, info, after);
    KnownStaysCalm(t, limit, id, info, after);
  }

  lemma KnownStaysCalm(t: Table, limit: nat, id: string, info: Info, after: Table)
    requires limit >= 1 && Calm(t) && Newest(t, id) && id in after && Registered(t, limit, id, info, after)
    requires after[id] == t[id].(retries := t[id].retries + 1)
    ensures Calm(after) && Newest(after, id)
  {
    hide Registered;
    RegistrationEffect(t, limit, id, info, after);
    assert t[id] == Cleared(t)[id];
    SameTimes(t, id, after);
  }

  lemma SameTimes(t: Table, id: string, after: Table)
    requires Calm(t) && Newest(t, id) && id in after
    requires forall k :: k in after ==> k in t && after[k].time == t[k].time && after[k].recovered == t[k].recovered
    ensures Calm(after) && Newest(after, id)
  {
    assert forall k :: k in t ==> k in Cleared(t) && !t[k].recovered;
  }

  /** From every such table a run that repeats nothing but its newest error leads back to
      the limit. */
  lemma {:induction false} ComesBack(t: Table, limit: nat, id: string, info: Info)
    returns (rs: seq<Registration>, ts: seq<Table>)
    requires limit >= 1 && Calm(t) && Newest(t, id) && |t| >= limit
    ensures IsRun(rs, limit, ts) && ts[0] == t && |rs| == |t| - limit && |ts[|rs|]| == limit
    ensures forall i :: 0 <= i < |rs| ==> rs[i].id == id
    decreases |t|
  {
    hide Registered, Calm, Newest;
    if |t| == limit {
      rs, ts := [], [t];
    } else {
      var after := RegisterAgain(t, limit, id, info);
      NewestAgain(t, limit, id, info, after);
      rs, ts := ComesBack(after, limit, id, info);
      rs, ts := [Registration(id, info)] + rs, [t] + ts;
    }
  }

  /** The registration always has some outcome. */
  lemma RegisterAgain(t: Table, limit: nat, id: string, info: Info) returns (after: Table)
    requires limit >= 1
    ensures Registered(t, limit, id, info, after)
  {
    var mid: Table := t;
    if |t| >= limit {
      mid := Cleared(t);
      if |mid| >= limit {
        assert mid != map[];
        var oldest := SomeOldest(mid);
        mid := mid - {oldest};
      }
    }
    assert MadeRoom(t, limit, mid);
    after := Inserted(mid, id, info);
  }
}
