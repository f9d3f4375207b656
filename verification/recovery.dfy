/** `RecoveryManager`, one operation at a time: the map of shared `*ErrorInfo` objects
    and its counter, against the table as a value. */
module Recovery {
  import opened Wrappers
  import opened ErrorTable
  import opened ErrorIdentity

  class ErrorInfo {
    const session: string
    const category: string
    const text: string
    const time: int
    const severity: Severity
    const strategy: Strategy
    var retryCount: nat
    var recovered: bool

    constructor (session: string, category: string, text: string, now: int, severity: Severity, strategy: Strategy)
      ensures View() == Info(session, category, text, now, severity, strategy, 0, false)
    {
      this.session, this.category, this.text, this.time := session, category, text, now;
      this.severity, this.strategy := severity, strategy;
      retryCount, recovered := 0, false;
    }

    function View(): Info
      reads this
    {
      Info(session, category, text, time, severity, strategy, retryCount, recovered)
    }
  }

  /** The errors `GetActiveErrors` returns, as a set. */
  ghost function ActiveIds(t: Table): set<string> {
    set k | k in t && !t[k].recovered
  }

  /** No object is stored under two keys. */
  ghost predicate Distinct(errors: map<string, ErrorInfo>) {
    forall a, b :: a in errors && b in errors && a != b ==> errors[a] != errors[b]
  }

  /** `m` is what is left of `n`. */
  ghost predicate PartOf(m: map<string, ErrorInfo>, n: map<string, ErrorInfo>) {
    m.Keys <= n.Keys && forall k :: k in m ==> m[k] == n[k]
  }

  lemma PartDistinct(m: map<string, ErrorInfo>, n: map<string, ErrorInfo>)
    requires Distinct(n) && PartOf(m, n)
    ensures Distinct(m) && |m| <= |n|
  {
    SubsetSize(m.Keys, n.Keys);
  }

  lemma AllLeft(m: map<string, ErrorInfo>)
    ensures PartOf(m, m)
  {
  }

  lemma EntryGone(m: map<string, ErrorInfo>, id: string)
    requires id in m && Distinct(m)
    ensures Distinct(m - {id}) && PartOf(m - {id}, m)
    ensures |m - {id}| == |m| - 1
  {
    RemoveSize(m, id);
  }

  /** The table these objects hold now. */
  ghost function TableFrom(errors: map<string, ErrorInfo>): Table
    reads errors.Values
  {
    map k | k in errors :: errors[k].View()
  }

  lemma TableCleared(was: map<string, ErrorInfo>, m: map<string, ErrorInfo>)
    requires PartOf(m, was) && forall k :: k in was ==> (k in m <==> !was[k].recovered)
    ensures TableFrom(m) == Cleared(TableFrom(was))
  {
  }

  lemma TableAdded(m: map<string, ErrorInfo>, id: string, info: ErrorInfo)
    requires id !in m
    ensures TableFrom(m[id := info]) == Inserted(TableFrom(m), id, info.View())
  {
  }

  lemma OnlyHere(m: map<string, ErrorInfo>, id: string)
    requires Distinct(m) && id in m
    ensures forall k :: k in m && k != id ==> m[k] != m[id]
  {
  }

  lemma Added(m: map<string, ErrorInfo>, id: string, info: ErrorInfo)
    requires Distinct(m) && info !in m.Values && id !in m
    ensures Distinct(m[id := info]) && |m[id := info]| == |m| + 1
  {
    AddSize(m, id, info);
  }

  class RecoveryManager {
    var errors: map<string, ErrorInfo>
    var errorCount: int   // an int32
    const errorLimit: nat

    /** The counter counts the keys. The table may be above its limit: overlapping calls can
        leave it so. */
    ghost predicate Valid()
      reads this
    {
      && 1 <= errorLimit < TWO_31
      && errorCount == |errors| < TWO_31 && "" !in errors
      && Distinct(errors)
    }

    ghost function Table(): Table
      reads this, errors.Values
    {
      TableFrom(errors)
    }

    /** The unrecovered error objects. */
    ghost function ActiveErrors(): set<ErrorInfo>
      reads this, errors.Values
    {
      set k | k in ActiveIds(Table()) :: errors[k]
    }

    constructor (limit: nat)
      requires 1 <= limit < TWO_31
      ensures Valid() && Table() == map[] && errorLimit == limit
    {
      errors, errorCount, errorLimit := map[], 0, limit;
    }

    method ClearRecoveredErrors() returns (count: nat)
      requires Valid()
      modifies this
      ensures Valid() && Table() == Cleared(old(Table()))
      ensures count == |old(errors)| - |errors|
      ensures PartOf(errors, old(errors))
      ensures forall k :: k in old(errors) ==> (k in errors <==> !old(errors)[k].recovered)
    {
      hide Distinct, Wrap32, Cleared, TableFrom;
      ghost var was, table := errors, Table();
      count := 0;
      var todo := errors.Keys;
      while todo != {}
        invariant todo <= errors.Keys && PartOf(errors, was) && TableFrom(was) == table
        invariant forall k :: k in old(errors) && k !in todo ==> (k in errors <==> !old(errors)[k].recovered)
        invariant count == |old(errors)| - |errors| && errorCount == |old(errors)|
      {
        var id :| id in todo;
        todo := todo - {id};
        if errors[id].recovered {
          RemoveSize(errors, id);
          errors := errors - {id};
          count := count + 1;
        }
      }
      PartDistinct(errors, was);
      TableCleared(was, errors);
      Wrap32Same(errorCount - count);
      if count > 0 {
        errorCount := Wrap32(errorCount - count);
      }
    }

    /** The loop that finds the first key with the least time. */
    method FindOldest() returns (oldestId: string)
      requires Valid() && errors != map[]
      ensures Oldest(Table(), oldestId)
    {
      hide Distinct;
      oldestId := "";
      var oldestTime, first := 0, true;
      var todo := errors.Keys;
      while todo != {}
        invariant todo <= errors.Keys
        invariant first <==> todo == errors.Keys
        invariant !first ==> oldestId in errors && oldestTime == errors[oldestId].time
        invariant !first ==> forall k :: k in errors && k !in todo ==> oldestTime <= errors[k].time
      {
        var id :| id in todo;
        if first || errors[id].time < oldestTime {
          oldestId := id;
          oldestTime := errors[id].time;
          first := false;
        }
        todo := todo - {id};
      }
    }

    /** One entry goes, and the counter with it. */
    method Remove(id: string)
      requires Valid() && id in errors
      modifies this
      ensures Valid() && Table() == old(Table()) - {id}
      ensures PartOf(errors, old(errors)) && |errors| == |old(errors)| - 1
    {
      hide Distinct, PartOf, Wrap32;
      EntryGone(errors, id);
      errors := errors - {id};
      Wrap32Same(errorCount - 1);
      errorCount := Wrap32(errorCount - 1);
    }

    /** If the table is still full, its oldest entry goes. */
    method EvictOldest()
      requires Valid()
      modifies this
      ensures Valid() && Evicted(old(Table()), errorLimit, Table())
      ensures PartOf(errors, old(errors)) && (|errors| < errorLimit || |errors| < |old(errors)|)
    {
      hide Distinct, PartOf, Oldest, Evicted;
      SameSize(errors, Table());
      AllLeft(errors);
      EvictNone(Table(), errorLimit);
      if |errors| >= errorLimit {
        assert errors != map[];
        var oldestId := FindOldest();
        EvictOne(Table(), errorLimit, oldestId);
        if oldestId != "" {
          Remove(oldestId);
        }
      }
    }

    /** A known error counts one retry more, a new one is added. */
    method Insert(session: string, category: string, text: string, now: int) returns (info: ErrorInfo)
      requires Valid() && |errors| < TWO_31 - 1
      modifies this, errors.Values
      ensures Valid() && ErrorId(session, category, text) in errors && errors[ErrorId(session, category, text)] == info
      ensures Table() == Inserted(old(Table()), ErrorId(session, category, text), NewInfo(session, category, text, now))
    {
      hide DetermineSeverity, DetermineStrategy, ErrorId, Wrap32, Distinct;
      var id := ErrorId(session, category, text);
      if id in errors {
        info := errors[id];
        OnlyHere(errors, id);
        info.retryCount := info.retryCount + 1;
        return;
      }
      var severity := DetermineSeverity(category);
      var strategy := DetermineStrategy(category, severity);
      info := new ErrorInfo(session, category, text, now, severity, strategy);
      Added(errors, id, info);
      TableAdded(errors, id, info);
      errors := errors[id := info];
      Wrap32Same(errorCount + 1);
      errorCount := Wrap32(errorCount + 1);
    }

    /** A nil error registers nothing; any other one ends up in the table. */
    method RegisterError(session: string, err: Option<string>, category: string, now: int) returns (info: ErrorInfo?)
      requires Valid()
      modifies this, errors.Values
      ensures Valid()
      ensures err == None ==> info == null && Table() == old(Table())
      ensures err.Some? ==>
                var id := ErrorId(session, category, err.value);
                && id in errors && errors[id] == info
                && Registered(old(Table()), errorLimit, id, NewInfo(session, category, err.value, now), Table())
      ensures err.Some? && Keyed(old(Table())) && Plain(session, category) ==>
                && Keyed(Table())
                && (!Holds(old(Table()), session, category, err.value) ==>
                      AddedAlone(old(Table()), session, category, err.value, now, Table()))
    {
      hide Distinct, Cleared, Evicted, Inserted, ErrorId, Wrap32, Keyed, Plain, Holds, AddedAlone;
      if err == None {
        return null;
      }
      ghost var t := Table();
      SameSize(errors, t);
      Wrap32Same(errorLimit);
      if errorCount >= Wrap32(errorLimit) {
        var _ := ClearRecoveredErrors();
        EvictOldest();
      }
      assert MadeRoom(t, errorLimit, Table());
      info := Insert(session, category, err.value, now);
      if Keyed(t) && Plain(session, category) {
        KeyedKept(t, errorLimit, session, category, err.value, now, Table());
        if !Holds(t, session, category, err.value) {
          NewErrorAdded(t, errorLimit, session, category, err.value, now, Table());
        }
      }
    }

    /** True exactly when the error is in the table, which then holds it as recovered. */
    method MarkErrorRecovered(session: string, category: string, err: Option<string>) returns (found: bool)
      requires Valid()
      modifies errors.Values
      ensures Valid() && errors == old(errors)
      ensures found <==> err.Some? && ErrorId(session, category, err.value) in errors
      ensures Table() == if found then
                           var id := ErrorId(session, category, err.value);
                           old(Table())[id := old(Table())[id].(recovered := true)]
                         else old(Table())
    {
      if err == None {
        return false;
      }
      var id := ErrorId(session, category, err.value);
      if id in errors {
        var info := errors[id];
        info.recovered := true;
        return true;
      }
      return false;
    }

    /** What the loop has collected when it ends. */
    lemma Collected(active: seq<ErrorInfo>, ids: seq<string>)
      requires |ids| == |active|
      requires forall i :: 0 <= i < |ids| ==>
                 ids[i] in errors && !errors[ids[i]].recovered && active[i] == errors[ids[i]]
      requires forall k :: k in errors && !errors[k].recovered ==> k in ids
      ensures (set x | x in active) == ActiveErrors()
    {
      forall x | x in active ensures x in ActiveErrors() {
        var i :| 0 <= i < |active| && active[i] == x;
        assert ids[i] in ActiveIds(Table());
      }
      forall k | k in ActiveIds(Table()) ensures errors[k] in active {
        var i :| 0 <= i < |ids| && ids[i] == k;
        assert active[i] == errors[k];
      }
    }

    lemma Sifted(active: seq<ErrorInfo>)
      requires Valid() && (set x | x in active) == ActiveErrors()
      ensures forall k :: k in errors ==> (errors[k] in active <==> !errors[k].recovered)
    {
      forall k | k in errors ensures errors[k] in active <==> !errors[k].recovered {
        assert errors[k] in active <==> errors[k] in ActiveErrors();
        if !errors[k].recovered { assert k in ActiveIds(Table()); }
      }
    }

    /** Each unrecovered error once, nothing else. */
    method GetActiveErrors() returns (active: seq<ErrorInfo>)
      requires Valid()
      ensures forall i, j :: 0 <= i < j < |active| ==> active[i] != active[j]
      ensures (set x | x in active) == ActiveErrors()
      ensures forall k :: k in errors ==> (errors[k] in active <==> !errors[k].recovered)
    {
      active := [];
      ghost var ids: seq<string> := [];
      var todo := errors.Keys;
      while todo != {}
        invariant todo <= errors.Keys && |ids| == |active|
        invariant forall i :: 0 <= i < |ids| ==>
                    && ids[i] in errors && ids[i] !in todo
                    && !errors[ids[i]].recovered && active[i] == errors[ids[i]]
        invariant forall i, j :: 0 <= i < j < |ids| ==> ids[i] != ids[j]
        invariant forall k :: k in errors && k !in todo && !errors[k].recovered ==> k in ids
      {
        var id :| id in todo;
        todo := todo - {id};
        if !errors[id].recovered {
          ghost var was := ids;
          active := active + [errors[id]];
          ids := ids + [id];
          assert forall x :: x in was ==> x in ids;
        }
      }
      Collected(active, ids);
      Sifted(active);
    }
  }
}
