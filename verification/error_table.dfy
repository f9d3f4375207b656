/** The size-limited table of errors as a value, and what one registration does to it. */
module ErrorTable {

  datatype Severity = Warning | Critical
  datatype Strategy = Retry | Reconnect | Notify

  const CATEGORY_CONNECTION := "connection"
  const CATEGORY_SUBSCRIPTION := "subscription"
  const CATEGORY_PUBLISH := "publish"
  const CATEGORY_AUTHENTICATION := "authentication"
  const CATEGORY_INTERNAL := "internal"

  function DetermineSeverity(category: string): Severity {
    if category == CATEGORY_AUTHENTICATION || category == CATEGORY_INTERNAL then Critical else Warning
  }

  function DetermineStrategy(category: string, severity: Severity): Strategy {
    if category == CATEGORY_CONNECTION && severity == Warning then Reconnect
    else if category == CATEGORY_SUBSCRIPTION || category == CATEGORY_PUBLISH then Retry
    else Notify
  }

  /** The key of an error in the table: never the empty string. */
  function ErrorId(session: string, category: string, text: string): (id: string)
    ensures id != ""
  {
    session + ":" + category + ":" + text
  }

  datatype Info = Info(session: string, category: string, text: string, time: int,
                       severity: Severity, strategy: Strategy, retries: nat, recovered: bool)

  function NewInfo(session: string, category: string, text: string, now: int): Info {
    var severity := DetermineSeverity(category);
    Info(session, category, text, now, severity, DetermineStrategy(category, severity), 0, false)
  }

  type Table = map<string, Info>

  function Cleared(t: Table): Table {
    map k | k in t && !t[k].recovered :: t[k]
  }

  ghost predicate Oldest(t: Table, id: string) {
    id in t && forall k :: k in t ==> t[id].time <= t[k].time
  }

  /** The eviction: below the limit nothing, else one oldest entry goes.
      Among equal times any may be chosen. */
  ghost predicate Evicted(t: Table, limit: nat, after: Table) {
    if |t| < limit then after == t else exists id :: Oldest(t, id) && after == t - {id}
  }

  lemma OldestIsThere(t: Table, id: string)
    requires Oldest(t, id)
    ensures id in t
  {
  }

  lemma EvictOne(t: Table, limit: nat, id: string)
    requires |t| >= limit && Oldest(t, id)
    ensures id in t && Evicted(t, limit, t - {id})
  {
  }

  lemma EvictNone(t: Table, limit: nat)
    ensures |t| < limit ==> Evicted(t, limit, t)
  {
  }

  /** The insertion: a known error counts one retry more, a new one is added. */
  function Inserted(t: Table, id: string, info: Info): Table {
    if id in t then t[id := t[id].(retries := t[id].retries + 1)] else t[id := info]
  }

  /** What is left of the table when the new error is put in. */
  ghost predicate MadeRoom(t: Table, limit: nat, mid: Table) {
    if |t| >= limit then Evicted(Cleared(t), limit, mid) else mid == t
  }

  ghost predicate Registered(t: Table, limit: nat, id: string, info: Info, after: Table) {
    exists mid :: MadeRoom(t, limit, mid) && after == Inserted(mid, id, info)
  }

  lemma ClearedSize(t: Table)
    ensures |Cleared(t)| <= |t|
  {
    SubsetSize(Cleared(t).Keys, t.Keys);
  }

  lemma {:induction false} SubsetSize(a: set<string>, b: set<string>)
    requires a <= b
    ensures |a| <= |b|
    decreases |b|
  {
    if a != {} {
      var x :| x in a;
      SubsetSize(a - {x}, b - {x});
    }
  }

  lemma RemoveSize<A>(m: map<string, A>, k: string)
    requires k in m
    ensures |m - {k}| == |m| - 1
  {
    assert (m - {k}).Keys == m.Keys - {k};
  }

  lemma SameSize<A, B>(m: map<string, A>, n: map<string, B>)
    requires m.Keys == n.Keys
    ensures |m| == |n|
  {
    assert |m| == |m.Keys| && |n| == |n.Keys|;
  }

  lemma AddSize<A>(m: map<string, A>, k: string, a: A)
    requires k !in m
    ensures |m[k := a]| == |m| + 1
  {
    assert m[k := a].Keys == m.Keys + {k};
  }

  lemma InsertSize(t: Table, id: string, info: Info)
    ensures |Inserted(t, id, info)| == |t| + (if id in t then 0 else 1)
  {
    assert Inserted(t, id, info).Keys == t.Keys + {id};
  }

  lemma MadeRoomSize(t: Table, limit: nat, mid: Table)
    requires limit >= 1 && MadeRoom(t, limit, mid)
    ensures |mid| < |t| || |mid| < limit
    ensures |t| <= limit ==> |mid| < limit
  {
    var c := Cleared(t);
    ClearedSize(t);
    if |t| >= limit && |c| >= limit {
      var id :| Oldest(c, id) && mid == c - {id};
      RemoveSize(c, id);
    }
  }

  /** One registration: the error is in the table on return; the limit is kept; an entry
      is removed only if it was recovered or the oldest of those left after clearing; at
      most one unrecovered entry is lost; every other entry is untouched. */
  lemma RegistrationEffect(t: Table, limit: nat, id: string, info: Info, after: Table)
    requires limit >= 1 && Registered(t, limit, id, info, after)
    ensures id in after
    ensures |t| <= limit ==> |after| <= limit
    ensures forall k :: k in after && k != id ==> k in t && after[k] == t[k]
    ensures forall k :: k in t && k !in after ==> t[k].recovered || Oldest(Cleared(t), k)
    ensures forall j, k :: j in t && j !in after && !t[j].recovered && k in t && k !in after && !t[k].recovered
              ==> j == k
    ensures forall k :: k in t && k !in after ==> |t| >= limit
  {
    var mid :| MadeRoom(t, limit, mid) && after == Inserted(mid, id, info);
    MadeRoomSize(t, limit, mid);
    InsertSize(mid, id, info);
  }

  /** The error just registered is an active one unless the table, still below its limit,
      already held it as recovered: then only its retry count grows. */
  lemma RegisteredActive(t: Table, limit: nat, id: string, info: Info, after: Table)
    requires Registered(t, limit, id, info, after) && !info.recovered
    ensures id in after
    ensures after[id].recovered <==> |t| < limit && id in t && t[id].recovered
  {
    var mid :| MadeRoom(t, limit, mid) && after == Inserted(mid, id, info);
  }

  // ---- A run of registrations, one at a time ----

  datatype Registration = Registration(id: string, info: Info)

  /** `ts` are the tables before, between and after the registrations. */
  ghost predicate IsRun(rs: seq<Registration>, limit: nat, ts: seq<Table>) {
    && |ts| == |rs| + 1
    && forall i :: 0 <= i < |rs| ==> Registered(ts[i], limit, rs[i].id, rs[i].info, ts[i + 1])
  }

  ghost predicate FreshInOrder(rs: seq<Registration>) {
    && (forall i, j :: 0 <= i < j < |rs| ==> rs[i].id != rs[j].id && rs[i].info.time < rs[j].info.time)
    && forall i :: 0 <= i < |rs| ==> !rs[i].info.recovered
  }

  function TableOf(rs: seq<Registration>): Table {
    if rs == [] then map[] else TableOf(rs[..|rs| - 1])[rs[|rs| - 1].id := rs[|rs| - 1].info]
  }

  function LastN(rs: seq<Registration>, n: nat): seq<Registration> {
    if |rs| <= n then rs else rs[|rs| - n..]
  }

  /** The table of a longer window, with `TableOf` out of sight elsewhere. */
  lemma TableOfMore(rs: seq<Registration>, r: Registration)
    ensures TableOf(rs + [r]) == TableOf(rs)[r.id := r.info]
  {
    assert (rs + [r])[..|rs|] == rs;
  }

  lemma {:induction false} TableOfOnly(rs: seq<Registration>, k: string) returns (i: nat)
    requires k in TableOf(rs)
    ensures i < |rs| && k == rs[i].id
  {
    var n := |rs| - 1;
    if k == rs[n].id {
      i := n;
    } else {
      i := TableOfOnly(rs[..n], k);
    }
  }

  lemma {:induction false} TableOfHas(rs: seq<Registration>, i: nat)
    requires FreshInOrder(rs) && i < |rs|
    ensures rs[i].id in TableOf(rs) && TableOf(rs)[rs[i].id] == rs[i].info
  {
    var n := |rs| - 1;
    if i < n {
      FreshSlice(rs, 0, n);
      assert rs[..n][i] == rs[i];
      TableOfHas(rs[..n], i);
    }
  }

  lemma {:induction false} TableOfSize(rs: seq<Registration>)
    requires FreshInOrder(rs)
    ensures |TableOf(rs)| == |rs|
  {
    if rs != [] {
      var n := |rs| - 1;
      FreshSlice(rs, 0, n);
      TableOfSize(rs[..n]);
      if rs[n].id in TableOf(rs[..n]) {
        var i := TableOfOnly(rs[..n], rs[n].id);
        assert false;
      }
      AddSize(TableOf(rs[..n]), rs[n].id, rs[n].info);
    }
  }

  lemma FreshSlice(rs: seq<Registration>, lo: nat, hi: nat)
    requires FreshInOrder(rs) && lo <= hi <= |rs|
    ensures FreshInOrder(rs[lo..hi])
  {
  }

  /** Without its first error a window is the table of the rest. */
  lemma {:induction false} WithoutFirst(rs: seq<Registration>)
    requires FreshInOrder(rs) && rs != []
    ensures TableOf(rs) - {rs[0].id} == TableOf(rs[1..])
  {
    var n := |rs| - 1;
    if n > 0 {
      var init := rs[..n];
      FreshSlice(rs, 0, n);
      WithoutFirst(init);
      assert rs[1..][..n - 1] == init[1..];
      assert rs[0].id != rs[n].id;
      assert TableOf(init)[rs[n].id := rs[n].info] - {rs[0].id} == (TableOf(init) - {rs[0].id})[rs[n].id := rs[n].info];
    } else {
      assert rs[..0] == [] && rs[1..] == [];
    }
  }

  /** In a window of fresh errors the oldest is the first. */
  lemma OldestIsFirst(rs: seq<Registration>, id: string)
    requires FreshInOrder(rs) && rs != [] && Oldest(TableOf(rs), id)
    ensures id == rs[0].id
  {
    hide TableOf;
    var i := TableOfOnly(rs, id);
    TableOfHas(rs, i);
    TableOfHas(rs, 0);
  }

  lemma NothingToClear(window: seq<Registration>)
    requires FreshInOrder(window)
    ensures Cleared(TableOf(window)) == TableOf(window)
  {
    hide TableOf;
    forall k | k in TableOf(window) ensures !TableOf(window)[k].recovered {
      var i := TableOfOnly(window, k);
      TableOfHas(window, i);
    }
  }

  lemma OneMore(limit: nat, window: seq<Registration>, r: Registration, after: Table)
    requires limit >= 1 && |window| <= limit && FreshInOrder(window)
    requires forall i :: 0 <= i < |window| ==> window[i].id != r.id
    requires Registered(TableOf(window), limit, r.id, r.info, after)
    ensures after == TableOf((if |window| < limit then window else window[1..]) + [r])
  {
    hide TableOf, Cleared, FreshInOrder;
    var t := TableOf(window);
    if r.id in t {
      var i := TableOfOnly(window, r.id);
      assert false;
    }
    TableOfSize(window);
    NothingToClear(window);
    var mid :| MadeRoom(t, limit, mid) && after == Inserted(mid, r.id, r.info);
    if |window| < limit {
      TableOfMore(window, r);
    } else {
      var id :| Oldest(t, id) && mid == t - {id};
      OldestIsFirst(window, id);
      WithoutFirst(window);
      TableOfMore(window[1..], r);
    }
  }

  /** The sliding window: after any run of registrations with distinct IDs, increasing
      times and no recoveries, the table is exactly the last `limit` errors. */
  lemma {:induction false} SlidingWindow(rs: seq<Registration>, limit: nat, ts: seq<Table>)
    requires limit >= 1 && FreshInOrder(rs) && IsRun(rs, limit, ts) && ts[0] == map[]
    ensures ts[|rs|] == TableOf(LastN(rs, limit))
  {
    hide TableOf, Registered;
    if rs == [] {
      assert TableOf([]) == map[] by { NoErrors(); }
    } else {
      var n := |rs| - 1;
      FreshSlice(rs, 0, n);
      SlidingWindow(rs[..n], limit, ts[..n + 1]);
      var k := if n <= limit then 0 else n - limit;
      assert LastN(rs[..n], limit) == rs[k..n];
      FreshSlice(rs, k, n);
      OneMore(limit, rs[k..n], rs[n], ts[n + 1]);
      assert (if n - k < limit then rs[k..n] else rs[k..n][1..]) + [rs[n]] == LastN(rs, limit);
    }
  }

  lemma NoErrors()
    ensures TableOf([]) == map[]
  {
  }
}
