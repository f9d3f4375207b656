/** What overlapping registrations can lose. */
module RecoveryLosses {
  import opened Wrappers
  import opened Tally
  import opened ErrorTable
  import opened RecoveryMachine

  /** An error that had not recovered is in the table before and not after. */
  ghost predicate Loses(s: State, t: State, id: string) {
    id in s.table && !s.table[id].recovered && id !in t.table
  }

  /** The only step that loses an error is the eviction of a registration that has not
      evicted yet, from a full table, and it takes an oldest error of that moment. */
  lemma LossIsEviction(cfg: Config, s: State, e: Event, id: string)
    requires |s.calls| == |s.pcs| && Loses(s, Step(cfg, s, e), id)
    ensures e.Evict? && e.victim == id && Oldest(s.table, id) && |s.table| >= cfg.limit
    ensures In(s, e.c, WantEvict) && In(Step(cfg, s, e), e.c, EvictCount)
    ensures Step(cfg, s, e).table == s.table - {id}
  {
  }

  /** Marking an error as recovered changes just that, when the lock is free and the error
      is there. */
  lemma MarkRecovers(cfg: Config, s: State, id: string)
    requires |s.calls| == |s.pcs| && s.lock == None
    ensures var t := Step(cfg, s, Mark(id));
            && t.(table := s.table) == s && t.table.Keys == s.table.Keys
            && (id in s.table ==> t.table[id] == s.table[id].(recovered := true))
            && forall k :: k in s.table && k != id ==> t.table[k] == s.table[k]
  {
  }

  /** A registration that may still evict. */
  function MayEvict(pc: Pc): nat {
    if pc.Checking? || pc.WantClear? || pc.ClearCount? || pc.WantEvict? then 1 else 0
  }

  /** How many errors a run loses, one at most with each step. */
  ghost function Losses(cfg: Config, s: State, es: seq<Event>): nat
    requires |s.calls| == |s.pcs|
    decreases |es|
  {
    if es == [] then 0
    else
      var t := Step(cfg, s, es[0]);
      One(exists id :: Loses(s, t, id)) + Losses(cfg, t, es[1..])
  }

  function Begins(es: seq<Event>): nat {
    if es == [] then 0 else One(es[0].Begin?) + Begins(es[1..])
  }

  /** One step loses one error at most. */
  lemma LosesOne(cfg: Config, s: State, e: Event, j: string, k: string)
    requires |s.calls| == |s.pcs| && Loses(s, Step(cfg, s, e), j) && Loses(s, Step(cfg, s, e), k)
    ensures j == k
  {
    hide Step;
    LossIsEviction(cfg, s, e, j);
    LossIsEviction(cfg, s, e, k);
  }

  /** Each loss uses up the one eviction of a registration. */
  lemma LossStep(cfg: Config, s: State, e: Event)
    requires |s.calls| == |s.pcs|
    ensures var t := Step(cfg, s, e);
            One(exists id :: Loses(s, t, id)) + Sum(t.pcs, MayEvict) <= Sum(s.pcs, MayEvict) + One(e.Begin?)
  {
    hide Sum, Loses, Cleared, Inserted, NewInfo, Oldest;
    var t := Step(cfg, s, e);
    if id :| Loses(s, t, id) {
      LossIsEviction(cfg, s, e, id);
      SumSet(s.pcs, e.c, EvictCount, MayEvict);
    } else {
      NoNewEviction(cfg, s, e);
    }
  }

  /** Only a new registration adds one that may evict. */
  lemma NoNewEviction(cfg: Config, s: State, e: Event)
    requires |s.calls| == |s.pcs|
    ensures Sum(Step(cfg, s, e).pcs, MayEvict) <= Sum(s.pcs, MayEvict) + One(e.Begin?)
  {
    hide Sum, Cleared, Inserted, NewInfo, Oldest;
    var t := Step(cfg, s, e);
    if e.Begin? {
      SumPush(s.pcs, Checking, MayEvict);
    } else if e.BeginClear? {
      SumPush(s.pcs, OnlyClear, MayEvict);
    } else if !e.Mark? && e.c < |s.pcs| {
      SumSet(s.pcs, e.c, t.pcs[e.c], MayEvict);
    }
  }

  lemma {:induction false} LossesFrom(cfg: Config, s: State, es: seq<Event>)
    requires |s.calls| == |s.pcs|
    ensures Losses(cfg, s, es) + Sum(Run(cfg, s, es).pcs, MayEvict) <= Sum(s.pcs, MayEvict) + Begins(es)
    decreases |es|
  {
    hide Step, Loses, Sum;
    if es != [] {
      LossStep(cfg, s, es[0]);
      LossesFrom(cfg, Step(cfg, s, es[0]), es[1..]);
    }
  }

  /** In every interleaving no more errors are lost than registrations are begun, less those
      that may still evict. */
  lemma LossesBounded(cfg: Config, es: seq<Event>)
    ensures Losses(cfg, Init(), es) + Sum(Run(cfg, Init(), es).pcs, MayEvict) <= Begins(es)
  {
    hide Run, Losses;
    LossesFrom(cfg, Init(), es);
  }
}
