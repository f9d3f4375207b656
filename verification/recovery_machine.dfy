/** Overlapping `RegisterError` calls: the check of the counter outside the lock, the
    critical sections in between, and the two halves (map, then counter) of each. */
module RecoveryMachine {
  import opened Wrappers
  import opened Tally
  import opened ErrorTable
  import opened ErrorSize

  datatype Pc =
    | Checking            // before the check of the counter, without the lock
    | WantClear           // found the table full
    | ClearCount(n: nat)  // `n` entries deleted, counter not yet lowered; holds the lock
    | WantEvict           // recovered errors are cleared
    | EvictCount          // oldest deleted, counter not yet lowered; holds the lock
    | WantInsert          // room was made, or there was some
    | InsertCount         // entry added, counter not yet raised; holds the lock
    | Done
    | OnlyClear           // a `ClearRecoveredErrors` call on its own
    | OnlyClearCount(n: nat)

  datatype Call = Call(session: string, category: string, text: string)

  /** At most `overlap` registrations are in progress at any time. */
  datatype Config = Config(limit: nat, overlap: nat)

  datatype State = State(table: Table, count: int, lock: Option<nat>, calls: seq<Call>, pcs: seq<Pc>)

  datatype Event =
    | Begin(call: Call) | BeginClear
    | Check(c: nat)
    | Clear(c: nat) | ClearDone(c: nat)
    | Evict(c: nat, victim: string) | EvictDone(c: nat)
    | Insert(c: nat, now: int) | InsertDone(c: nat)
    | Mark(id: string)

  function Init(): State { State(map[], 0, None, [], []) }

  function Active(pc: Pc): nat {
    if pc.Done? || pc.OnlyClear? || pc.OnlyClearCount? then 0 else 1
  }

  predicate In(s: State, c: nat, pc: Pc) {
    c < |s.pcs| && s.pcs[c] == pc
  }

  function To(s: State, c: nat, pc: Pc): State
    requires c < |s.pcs|
  {
    s.(pcs := s.pcs[c := pc])
  }

  function IdOf(call: Call): string {
    ErrorId(call.session, call.category, call.text)
  }

  /** A step that is not enabled changes nothing. */
  ghost function Step(cfg: Config, s: State, e: Event): (t: State)
    requires |s.calls| == |s.pcs|
    ensures |t.calls| == |t.pcs|
  {
    match e
    case Begin(call) =>
      if Sum(s.pcs, Active) < cfg.overlap then s.(calls := s.calls + [call], pcs := s.pcs + [Checking]) else s
    case BeginClear => s.(calls := s.calls + [Call("", "", "")], pcs := s.pcs + [OnlyClear])
    case Check(c) =>
      if In(s, c, Checking) then To(s, c, if s.count >= Wrap32(cfg.limit) then WantClear else WantInsert) else s
    case Clear(c) =>
      var n := |s.table| - |Cleared(s.table)|;
      if s.lock == None && n >= 0 && In(s, c, WantClear) then
        To(s, c, ClearCount(n)).(table := Cleared(s.table), lock := Some(c))
      else if s.lock == None && n >= 0 && In(s, c, OnlyClear) then
        To(s, c, OnlyClearCount(n)).(table := Cleared(s.table), lock := Some(c))
      else s
    case ClearDone(c) =>
      if c < |s.pcs| && s.pcs[c].ClearCount? then
        To(s, c, WantEvict).(count := Wrap32(s.count - s.pcs[c].n), lock := None)
      else if c < |s.pcs| && s.pcs[c].OnlyClearCount? then
        To(s, c, Done).(count := Wrap32(s.count - s.pcs[c].n), lock := None)
      else s
    case Evict(c, victim) =>
      if !(s.lock == None && In(s, c, WantEvict)) then s
      else if |s.table| < cfg.limit then To(s, c, WantInsert)
      else if Oldest(s.table, victim) then To(s, c, EvictCount).(table := s.table - {victim}, lock := Some(c))
      else s
    case EvictDone(c) =>
      if In(s, c, EvictCount) then To(s, c, WantInsert).(count := Wrap32(s.count - 1), lock := None) else s
    case Insert(c, now) =>
      if !(s.lock == None && In(s, c, WantInsert)) then s
      else
        var k := s.calls[c];
        var after := Inserted(s.table, IdOf(k), NewInfo(k.session, k.category, k.text, now));
        if IdOf(k) in s.table then To(s, c, Done).(table := after)
        else To(s, c, InsertCount).(table := after, lock := Some(c))
    case InsertDone(c) =>
      if In(s, c, InsertCount) then To(s, c, Done).(count := Wrap32(s.count + 1), lock := None) else s
    case Mark(id) =>
      if s.lock == None && id in s.table then s.(table := s.table[id := s.table[id].(recovered := true)]) else s
  }

  ghost function Run(cfg: Config, s: State, es: seq<Event>): (t: State)
    requires |s.calls| == |s.pcs|
    ensures |t.calls| == |t.pcs|
    decreases |es|
  {
    if es == [] then s else Run(cfg, Step(cfg, s, es[0]), es[1..])
  }

  // ---- The bound ----

  /** A call that is past the point where room was made for it, and has not inserted. */
  function Claim(pc: Pc): nat {
    if pc.WantInsert? || pc.EvictCount? then 1 else 0
  }

  function NoClaim(pc: Pc): nat {
    if Active(pc) == 1 && Claim(pc) == 0 then 1 else 0
  }

  predicate HoldsLock(pc: Pc) {
    pc.ClearCount? || pc.EvictCount? || pc.InsertCount? || pc.OnlyClearCount?
  }

  /** How far the counter is ahead of the map while this call holds the lock. */
  function Ahead(pc: Pc): int {
    match pc
    case ClearCount(n) => n
    case OnlyClearCount(n) => n
    case EvictCount => 1
    case InsertCount => -1
    case _ => 0
  }

  ghost predicate Locking(s: State) {
    && (s.lock.Some? ==> s.lock.value < |s.pcs|)
    && forall c :: 0 <= c < |s.pcs| ==> (HoldsLock(s.pcs[c]) <==> s.lock == Some(c))
  }

  ghost predicate Counting(cfg: Config, s: State) {
    && s.count == |s.table| + (if s.lock.Some? && s.lock.value < |s.pcs| then Ahead(s.pcs[s.lock.value]) else 0)
    && 0 <= s.count <= cfg.limit - 1 + cfg.overlap
  }

  ghost predicate Claims(cfg: Config, s: State) {
    && |s.table| + Sum(s.pcs, Claim) <= cfg.limit - 1 + cfg.overlap
    && Sum(s.pcs, Active) <= cfg.overlap
  }

  /** No int32 conversion or addition leaves its range. */
  ghost predicate ValidConfig(cfg: Config) {
    1 <= cfg.limit < TWO_31 && cfg.limit - 1 + cfg.overlap < TWO_31
  }

  ghost predicate Inv(cfg: Config, s: State) {
    && ValidConfig(cfg)
    && |s.calls| == |s.pcs|
    && Locking(s) && Counting(cfg, s) && Claims(cfg, s)
  }

  lemma Moved(pcs: seq<Pc>, c: nat, pc: Pc)
    requires c < |pcs|
    ensures Sum(pcs[c := pc], Claim) == Sum(pcs, Claim) - Claim(pcs[c]) + Claim(pc)
    ensures Sum(pcs[c := pc], Active) == Sum(pcs, Active) - Active(pcs[c]) + Active(pc)
    ensures Sum(pcs, Active) == Sum(pcs, Claim) + Sum(pcs, NoClaim)
    ensures NoClaim(pcs[c]) <= Sum(pcs, NoClaim)
  {
    SumSet(pcs, c, pc, Claim);
    SumSet(pcs, c, pc, Active);
    SumAdds(pcs, Claim, NoClaim, Active);
    SumAtLeast(pcs, c, NoClaim);
  }

  lemma BeginKeeps(cfg: Config, s: State, e: Event)
    requires Inv(cfg, s) && (e.Begin? || e.BeginClear? || e.Mark?)
    ensures Inv(cfg, Step(cfg, s, e))
  {
    hide Sum;
    SumPush(s.pcs, Checking, Claim);
    SumPush(s.pcs, Checking, Active);
    SumPush(s.pcs, OnlyClear, Claim);
    SumPush(s.pcs, OnlyClear, Active);
    if e.Mark? && e.id in s.table {
      assert s.table[e.id := s.table[e.id].(recovered := true)].Keys == s.table.Keys;
    }
  }

  /** The check outside the lock may miss one entry that is in the map but not yet
      counted; the call that added it has given up its claim by then. */
  lemma CheckKeeps(cfg: Config, s: State, c: nat)
    requires Inv(cfg, s)
    ensures Inv(cfg, Step(cfg, s, Check(c)))
  {
    hide Sum;
    if In(s, c, Checking) {
      assert Wrap32(cfg.limit) == cfg.limit;
      var next := if s.count >= cfg.limit then WantClear else WantInsert;
      Moved(s.pcs, c, next);
      if s.lock.Some? && s.pcs[s.lock.value] == InsertCount {
        SumAtLeastTwo(s.pcs, c, s.lock.value, NoClaim);
      }
    }
  }

  lemma ClearKeeps(cfg: Config, s: State, c: nat)
    requires Inv(cfg, s)
    ensures Inv(cfg, Step(cfg, s, Clear(c))) && Inv(cfg, Step(cfg, s, ClearDone(c)))
  {
    hide Sum, Cleared;
    ClearedSize(s.table);
    var n := |s.table| - |Cleared(s.table)|;
    if c < |s.pcs| {
      Moved(s.pcs, c, ClearCount(n));
      Moved(s.pcs, c, OnlyClearCount(n));
      Moved(s.pcs, c, WantEvict);
      Moved(s.pcs, c, Done);
    }
  }

  lemma EvictKeeps(cfg: Config, s: State, c: nat, victim: string)
    requires Inv(cfg, s)
    ensures Inv(cfg, Step(cfg, s, Evict(c, victim))) && Inv(cfg, Step(cfg, s, EvictDone(c)))
  {
    hide Sum, Wrap32, Oldest, Cleared;
    Wrap32Same(s.count - 1);
    if c < |s.pcs| {
      Moved(s.pcs, c, WantInsert);
      Moved(s.pcs, c, EvictCount);
      if Oldest(s.table, victim) {
        OldestIsThere(s.table, victim);
        RemoveSize(s.table, victim);
      }
    }
  }

  lemma InsertKeeps(cfg: Config, s: State, c: nat, now: int)
    requires Inv(cfg, s)
    ensures Inv(cfg, Step(cfg, s, Insert(c, now))) && Inv(cfg, Step(cfg, s, InsertDone(c)))
  {
    hide Sum, Inserted, NewInfo, IdOf;
    if c < |s.pcs| {
      Moved(s.pcs, c, InsertCount);
      Moved(s.pcs, c, Done);
      var k := s.calls[c];
      InsertSize(s.table, IdOf(k), NewInfo(k.session, k.category, k.text, now));
    }
  }

  lemma InvStep(cfg: Config, s: State, e: Event)
    requires Inv(cfg, s)
    ensures Inv(cfg, Step(cfg, s, e))
  {
    hide Step;
    match e
    case Begin(_) => BeginKeeps(cfg, s, e);
    case BeginClear => BeginKeeps(cfg, s, e);
    case Mark(_) => BeginKeeps(cfg, s, e);
    case Check(c) => CheckKeeps(cfg, s, c);
    case Clear(c) => ClearKeeps(cfg, s, c);
    case ClearDone(c) => ClearKeeps(cfg, s, c);
    case Evict(c, victim) => EvictKeeps(cfg, s, c, victim);
    case EvictDone(c) => EvictKeeps(cfg, s, c, "");
    case Insert(c, now) => InsertKeeps(cfg, s, c, now);
    case InsertDone(c) => InsertKeeps(cfg, s, c, 0);
  }

  lemma {:induction false} InvRun(cfg: Config, s: State, es: seq<Event>)
    requires Inv(cfg, s)
    ensures Inv(cfg, Run(cfg, s, es))
    decreases |es|
  {
    if es != [] {
      InvStep(cfg, s, es[0]);
      InvRun(cfg, Step(cfg, s, es[0]), es[1..]);
    }
  }

  /** With at most `overlap` registrations in progress, the table never holds more than
      limit - 1 + overlap entries, and the counter is exact whenever the lock is free. */
  lemma TableBound(cfg: Config, es: seq<Event>)
    requires ValidConfig(cfg)
    ensures var s := Run(cfg, Init(), es);
            && |s.table| <= cfg.limit - 1 + cfg.overlap
            && (s.lock == None ==> s.count == |s.table|)
  {
    InvRun(cfg, Init(), es);
  }

  // ---- The bound is attained ----

  /** Calls of their own, with pairwise different error IDs. */
  function Name(i: nat): Call {
    Call("", "", seq(i, _ => 'x'))
  }

  lemma NamesDiffer(i: nat, j: nat)
    requires i != j
    ensures IdOf(Name(i)) != IdOf(Name(j))
  {
    assert |IdOf(Name(i))| == i + 2 && |IdOf(Name(j))| == j + 2;
  }

  /** `done` registrations have ended, `open` more are about to insert. */
  ghost predicate Stage(s: State, done: nat, open: nat) {
    && |s.calls| == |s.pcs| == done + open
    && s.lock == None && s.count == |s.table| == done
    && Sum(s.pcs, Active) == open
    && (forall i :: 0 <= i < done + open ==> s.calls[i] == Name(i) && (i >= done ==> s.pcs[i] == WantInsert))
    && (forall i: nat :: i >= done ==> IdOf(Name(i)) !in s.table)
    && InTurn(s.table, done)
  }

  /** Nothing recovered; the error of call `i` has time `i`, and the last one is there. */
  ghost predicate InTurn(t: Table, done: nat) {
    && Calm(t)
    && (forall k :: k in t ==> t[k].time < done)
    && (done >= 1 ==> IdOf(Name(done - 1)) in t && t[IdOf(Name(done - 1))].time == done - 1)
  }

  lemma NextInTurn(t: Table, done: nat)
    requires InTurn(t, done) && IdOf(Name(done)) !in t
    ensures var k := Name(done);
            InTurn(Inserted(t, IdOf(k), NewInfo(k.session, k.category, k.text, done)), done + 1)
  {
    hide Name, IdOf, DetermineSeverity, DetermineStrategy;
  }

  lemma NoErrorsYet()
    ensures InTurn(map[], 0)
  {
  }

  lemma Run2(cfg: Config, s: State, a: Event, b: Event)
    requires |s.calls| == |s.pcs|
    ensures Run(cfg, s, [a, b]) == Step(cfg, Step(cfg, s, a), b)
  {
    assert [a, b][1..] == [b] && [b][1..] == [];
    assert Run(cfg, Step(cfg, s, a), [b]) == Step(cfg, Step(cfg, s, a), b);
  }

  lemma {:induction false} RunAppend(cfg: Config, s: State, a: seq<Event>, b: seq<Event>)
    requires |s.calls| == |s.pcs|
    ensures Run(cfg, s, a + b) == Run(cfg, Run(cfg, s, a), b)
    decreases |a|
  {
    if a == [] {
      assert a + b == b;
    } else {
      assert (a + b)[1..] == a[1..] + b;
      RunAppend(cfg, Step(cfg, s, a[0]), a[1..], b);
    }
  }

  lemma OpenOne(cfg: Config, s: State, done: nat, open: nat)
    requires ValidConfig(cfg) && Stage(s, done, open) && done < cfg.limit && open < cfg.overlap
    ensures Stage(Run(cfg, s, [Begin(Name(done + open)), Check(done + open)]), done, open + 1)
  {
    hide Name, Sum, Run, NewInfo, Cleared, InTurn;
    var c := done + open;
    Run2(cfg, s, Begin(Name(c)), Check(c));
    var t := Step(cfg, s, Begin(Name(c)));
    SumPush(s.pcs, Checking, Active);
    SumSet(t.pcs, c, WantInsert, Active);
    assert Step(cfg, t, Check(c)) == To(t, c, WantInsert);
  }

  lemma CloseOne(cfg: Config, s: State, done: nat, open: nat)
    requires ValidConfig(cfg) && Stage(s, done, open) && open >= 1 && done + 1 < TWO_31
    ensures Stage(Run(cfg, s, [Insert(done, done), InsertDone(done)]), done + 1, open - 1)
  {
    hide Name, Sum, Run, NewInfo, Cleared, InTurn;
    var k := Name(done);
    var info := NewInfo(k.session, k.category, k.text, done);
    Run2(cfg, s, Insert(done, done), InsertDone(done));
    assert s.calls[done] == k && s.pcs[done] == WantInsert && IdOf(k) !in s.table;
    NextInTurn(s.table, done);
    InsertSize(s.table, IdOf(k), info);
    SumSet(s.pcs, done, InsertCount, Active);
    var t := Step(cfg, s, Insert(done, done));
    SumSet(t.pcs, done, Done, Active);
    forall i: nat | i >= done + 1 ensures IdOf(Name(i)) !in t.table {
      NamesDiffer(i, done);
    }
  }

  lemma {:induction false} OpenAll(cfg: Config, s: State, done: nat, open: nat, n: nat) returns (es: seq<Event>)
    requires ValidConfig(cfg) && Stage(s, done, open) && done < cfg.limit && open + n <= cfg.overlap
    ensures Stage(Run(cfg, s, es), done, open + n)
    decreases n
  {
    if n == 0 {
      es := [];
    } else {
      var one := [Begin(Name(done + open)), Check(done + open)];
      OpenOne(cfg, s, done, open);
      var rest := OpenAll(cfg, Run(cfg, s, one), done, open + 1, n - 1);
      es := one + rest;
      RunAppend(cfg, s, one, rest);
    }
  }

  lemma {:induction false} CloseAll(cfg: Config, s: State, done: nat, open: nat) returns (es: seq<Event>)
    requires ValidConfig(cfg) && Stage(s, done, open) && done + open < TWO_31
    ensures Stage(Run(cfg, s, es), done + open, 0)
    decreases open
  {
    hide Step, Sum, InTurn, Name;
    if open == 0 {
      es := [];
    } else {
      var one := [Insert(done, done), InsertDone(done)];
      CloseOne(cfg, s, done, open);
      var rest := CloseAll(cfg, Run(cfg, s, one), done + 1, open - 1);
      es := one + rest;
      RunAppend(cfg, s, one, rest);
    }
  }

  lemma {:induction false} FillUp(cfg: Config, done: nat) returns (es: seq<Event>)
    requires ValidConfig(cfg) && cfg.overlap >= 1 && done < cfg.limit
    ensures Stage(Run(cfg, Init(), es), done, 0)
  {
    if done == 0 {
      NoErrorsYet();
      es := [];
    } else {
      var first := FillUp(cfg, done - 1);
      var s := Run(cfg, Init(), first);
      var open := OpenAll(cfg, s, done - 1, 0, 1);
      var close := CloseAll(cfg, Run(cfg, s, open), done - 1, 1);
      es := first + (open + close);
      RunAppend(cfg, s, open, close);
      RunAppend(cfg, Init(), first, open + close);
    }
  }

  lemma Crowded(cfg: Config) returns (es: seq<Event>)
    requires ValidConfig(cfg) && cfg.overlap >= 1
    ensures Stage(Run(cfg, Init(), es), cfg.limit - 1 + cfg.overlap, 0)
  {
    hide Run, Step, Stage, Sum;
    var fill := FillUp(cfg, cfg.limit - 1);
    var s := Run(cfg, Init(), fill);
    var open := OpenAll(cfg, s, cfg.limit - 1, 0, cfg.overlap);
    var close := CloseAll(cfg, Run(cfg, s, open), cfg.limit - 1, cfg.overlap);
    RunAppend(cfg, s, open, close);
    RunAppend(cfg, Init(), fill, open + close);
    es := fill + (open + close);
  }

  /** For every limit and every positive overlap some run reaches the bound, so two
      overlapping calls can already exceed the configured limit. */
  lemma BoundAttained(cfg: Config) returns (es: seq<Event>)
    requires ValidConfig(cfg) && cfg.overlap >= 1
    ensures |Run(cfg, Init(), es).table| == cfg.limit - 1 + cfg.overlap
  {
    es := Crowded(cfg);
  }

  // ---- A call that meets no other ----

  function Alone(c: nat, k: Call, victim: string, now: int): seq<Event> {
    [Begin(k), Check(c)]
    + ([Clear(c), ClearDone(c)] + ([Evict(c, victim), EvictDone(c)] + [Insert(c, now), InsertDone(c)]))
  }

  lemma RunAlone(cfg: Config, s: State, c: nat, k: Call, victim: string, now: int)
    requires |s.calls| == |s.pcs|
    ensures Run(cfg, s, Alone(c, k, victim, now)) ==
              var s1 := Step(cfg, Step(cfg, s, Begin(k)), Check(c));
              var s2 := Step(cfg, Step(cfg, s1, Clear(c)), ClearDone(c));
              var s3 := Step(cfg, Step(cfg, s2, Evict(c, victim)), EvictDone(c));
              Step(cfg, Step(cfg, s3, Insert(c, now)), InsertDone(c))
  {
    hide Step;
    var e, f, g := [Evict(c, victim), EvictDone(c)], [Insert(c, now), InsertDone(c)], [Clear(c), ClearDone(c)];
    RunAppend(cfg, s, [Begin(k), Check(c)], g + (e + f));
    Run2(cfg, s, Begin(k), Check(c));
    var s1 := Run(cfg, s, [Begin(k), Check(c)]);
    RunAppend(cfg, s1, g, e + f);
    Run2(cfg, s1, Clear(c), ClearDone(c));
    var s2 := Run(cfg, s1, g);
    RunAppend(cfg, s2, e, f);
    Run2(cfg, s2, Evict(c, victim), EvictDone(c));
    Run2(cfg, Run(cfg, s2, e), Insert(c, now), InsertDone(c));
  }

  /** The newest call is at `pc`, the others are where they were, nobody holds the lock. */
  ghost predicate Free(s: State, before: seq<Pc>, k: Call, pc: Pc) {
    |s.calls| == |s.pcs| && s.pcs == before + [pc] && s.calls[|before|] == k && s.lock == None
  }

  lemma AloneBegin(cfg: Config, s: State, k: Call)
    requires Inv(cfg, s) && s.lock == None && Sum(s.pcs, Active) < cfg.overlap
    ensures var t := Step(cfg, Step(cfg, s, Begin(k)), Check(|s.pcs|));
            Free(t, s.pcs, k, if |s.table| >= cfg.limit then WantClear else WantInsert) && t.table == s.table
  {
    assert Wrap32(cfg.limit) == cfg.limit;
    Replaced(s.pcs, Checking);
  }

  lemma Replaced(before: seq<Pc>, pc: Pc)
    ensures forall next :: (before + [pc])[|before| := next] == before + [next]
  {
  }

  lemma AloneClear(cfg: Config, s: State, before: seq<Pc>, k: Call, pc: Pc)
    requires Free(s, before, k, pc) && (pc == WantClear || pc == WantInsert)
    ensures var t := Step(cfg, Step(cfg, s, Clear(|before|)), ClearDone(|before|));
            if pc == WantClear then Free(t, before, k, WantEvict) && t.table == Cleared(s.table) else t == s
  {
    hide Cleared;
    ClearedSize(s.table);
    Replaced(before, pc);
    Replaced(before, ClearCount(|s.table| - |Cleared(s.table)|));
  }

  lemma AloneEvict(cfg: Config, s: State, before: seq<Pc>, k: Call, pc: Pc, victim: string)
    requires Free(s, before, k, pc) && (pc == WantEvict || pc == WantInsert)
    requires pc == WantEvict && |s.table| >= cfg.limit ==> Oldest(s.table, victim)
    ensures var t := Step(cfg, Step(cfg, s, Evict(|before|, victim)), EvictDone(|before|));
            if pc == WantEvict then Free(t, before, k, WantInsert) && Evicted(s.table, cfg.limit, t.table) else t == s
  {
    hide Oldest;
    Replaced(before, pc);
    Replaced(before, EvictCount);
  }

  lemma AloneInsert(cfg: Config, s: State, before: seq<Pc>, k: Call, now: int)
    requires Free(s, before, k, WantInsert)
    ensures var t := Step(cfg, Step(cfg, s, Insert(|before|, now)), InsertDone(|before|));
            && Free(t, before, k, Done)
            && t.table == Inserted(s.table, IdOf(k), NewInfo(k.session, k.category, k.text, now))
  {
    hide Inserted, IdOf, NewInfo;
    Replaced(before, WantInsert);
    Replaced(before, InsertCount);
  }

  /** A registration no other call overlaps does to the table what the sequential
      `RegisterError` does, and leaves the lock free and the counter exact. */
  lemma LoneRegistration(cfg: Config, s: State, k: Call, victim: string, now: int)
    requires Inv(cfg, s) && s.lock == None && Sum(s.pcs, Active) < cfg.overlap
    requires |s.table| >= cfg.limit && |Cleared(s.table)| >= cfg.limit ==> Oldest(Cleared(s.table), victim)
    ensures var info := NewInfo(k.session, k.category, k.text, now);
            var t := Run(cfg, s, Alone(|s.pcs|, k, victim, now));
            && Registered(s.table, cfg.limit, IdOf(k), info, t.table)
            && t.pcs == s.pcs + [Done] && t.lock == None && t.count == |t.table|
            && Inv(cfg, t)
  {
    hide Sum, Inserted, Cleared, Oldest, Run, IdOf, Step, NewInfo;
    var c := |s.pcs|;
    RunAlone(cfg, s, c, k, victim, now);
    var s1 := Step(cfg, Step(cfg, s, Begin(k)), Check(c));
    var s2 := Step(cfg, Step(cfg, s1, Clear(c)), ClearDone(c));
    var s3 := Step(cfg, Step(cfg, s2, Evict(c, victim)), EvictDone(c));
    AloneBegin(cfg, s, k);
    AloneClear(cfg, s1, s.pcs, k, s1.pcs[c]);
    AloneEvict(cfg, s2, s.pcs, k, s2.pcs[c], victim);
    AloneInsert(cfg, s3, s.pcs, k, now);
    assert MadeRoom(s.table, cfg.limit, s3.table);
    InvRun(cfg, s, Alone(c, k, victim, now));
  }

  // ---- Back to the limit ----

  /** Registrations of one error, nothing else: no recovery, no other clearing. */
  ghost predicate Only(k: Call, es: seq<Event>) {
    forall i :: 0 <= i < |es| ==> (es[i].Begin? ==> es[i].call == k) && !es[i].BeginClear? && !es[i].Mark?
  }

  /** `n` lone registrations of the newest error take `n` entries from a table that has
      so many too many. */
  lemma {:induction false} NewestAlone(cfg: Config, s: State, k: Call, n: nat) returns (es: seq<Event>)
    requires Inv(cfg, s) && s.lock == None && Sum(s.pcs, Active) == 0 && cfg.overlap >= 1
    requires Calm(s.table) && Newest(s.table, IdOf(k)) && |s.table| >= cfg.limit + n
    ensures |Run(cfg, s, es).table| == |s.table| - n && Only(k, es)
    decreases n
  {
    hide Sum, Run, IdOf, Newest, Calm, Registered, NewInfo, Inv, Oldest, Alone;
    InvLimit(cfg, s);
    if n == 0 {
      es := [];
      RunNothing(cfg, s);
    } else {
      var victim := CalmOldest(s.table, IdOf(k));
      LoneRegistration(cfg, s, k, victim, 0);
      var first := Alone(|s.pcs|, k, victim, 0);
      var t := Run(cfg, s, first);
      NewestAgain(s.table, cfg.limit, IdOf(k), NewInfo(k.session, k.category, k.text, 0), t.table);
      SumPush(s.pcs, Done, Active);
      var rest := NewestAlone(cfg, t, k, n - 1);
      es := first + rest;
      RunAppend(cfg, s, first, rest);
      AloneIsOnly(|s.pcs|, k, victim, 0);
    }
  }

  lemma RunNothing(cfg: Config, s: State)
    requires |s.calls| == |s.pcs|
    ensures Run(cfg, s, []) == s
  {
  }

  lemma InvLimit(cfg: Config, s: State)
    requires Inv(cfg, s)
    ensures cfg.limit >= 1 && |s.calls| == |s.pcs|
  {
  }

  lemma AloneIsOnly(c: nat, k: Call, victim: string, now: int)
    ensures Only(k, Alone(c, k, victim, now))
  {
  }

  lemma CalmOldest(t: Table, id: string) returns (victim: string)
    requires Calm(t) && Newest(t, id)
    ensures Oldest(Cleared(t), victim)
  {
    assert t != map[];
    victim := SomeOldest(t);
  }

  /** Overlapping calls can crowd the table up to the bound, and from there registrations of
      one known error alone, with no recovery, bring it back to its limit. */
  lemma {:induction false} BackToLimit(cfg: Config) returns (up: seq<Event>, back: seq<Event>, k: Call)
    requires ValidConfig(cfg) && cfg.overlap >= 1
    ensures |Run(cfg, Init(), up).table| == cfg.limit - 1 + cfg.overlap
    ensures IdOf(k) in Run(cfg, Init(), up).table && Only(k, back)
    ensures |Run(cfg, Init(), up + back).table| == cfg.limit
  {
    hide Run, Step, Sum, Name, IdOf, Calm, Inv;
    up := Crowded(cfg);
    var s, n := Run(cfg, Init(), up), cfg.limit - 1 + cfg.overlap;
    k := Name(n - 1);
    StartsInv(cfg);
    InvRun(cfg, Init(), up);
    back := NewestAlone(cfg, s, k, cfg.overlap - 1);
    RunAppend(cfg, Init(), up, back);
  }

  lemma StartsInv(cfg: Config)
    requires ValidConfig(cfg)
    ensures Inv(cfg, Init())
  {
  }
}
