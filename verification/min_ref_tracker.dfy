/** Reference counters of masterchain states: lock-free fast paths interleaved with exclusive slow paths. */
module MinRefTracker {
  import opened Wrappers

  type Seqno = nat

  const COUNTER_LIMIT := 0x1_0000_0000

  /** What the lock protects: a 32-bit counter per tracked seqno and the smallest tracked seqno. */
  datatype Counters = Counters(refs: map<Seqno, nat>, min: Option<Seqno>)

  /** `m` is the smallest key, or nothing when there is no key. */
  ghost predicate IsMin(refs: map<Seqno, nat>, m: Option<Seqno>) {
    match m
    case None => refs == map[]
    case Some(q) => q in refs && forall k :: k in refs ==> q <= k
  }

  function Added(c: Counters, q: Seqno): Counters
    requires q in c.refs
  {
    c.(refs := c.refs[q := (c.refs[q] + 1) % COUNTER_LIMIT])
  }

  function Subtracted(c: Counters, q: Seqno): Counters
    requires q in c.refs
  {
    c.(refs := c.refs[q := (c.refs[q] - 1) % COUNTER_LIMIT])
  }

  /** The exclusive part of an insertion. */
  function Entered(c: Counters, q: Seqno): Counters {
    if q in c.refs then Added(c, q)
    else Counters(c.refs[q := 1],
                  if c.min.None? || q < c.min.value then Some(q) else c.min)
  }

  method MinKey(refs: map<Seqno, nat>) returns (m: Option<Seqno>)
    ensures IsMin(refs, m)
  {
    m := None;
    var rest := refs.Keys;
    while rest != {}
      invariant rest <= refs.Keys
      invariant m.None? ==> rest == refs.Keys
      invariant m.Some? ==> m.value in refs && forall k :: k in refs && k !in rest ==> m.value <= k
      decreases rest
    {
      var k :| k in rest;
      if m.None? || k < m.value {
        m := Some(k);
      }
      rest := rest - {k};
    }
  }

  // --- the interleaving ---

  /**
   * A state of the whole system. Each multiset holds the seqnos of the operations at one point:
   * `live` handles; insertions inside the read lock that found (`hits`) or missed (`misses`) their entry
   * and those waiting to write; drops that have begun, drops inside the read lock, drops waiting to write.
   */
  datatype Sys = Sys(
    c: Counters,
    live: multiset<Seqno>,
    hits: multiset<Seqno>,
    misses: multiset<Seqno>,
    entering: multiset<Seqno>,
    begun: multiset<Seqno>,
    dropping: multiset<Seqno>,
    leaving: multiset<Seqno>)

  ghost predicate NoReaders(s: Sys) {
    s.hits == multiset{} && s.misses == multiset{} && s.dropping == multiset{}
  }

  datatype Step =
    | InsertRead | InsertFast | InsertMiss | InsertWrite
    | DropBegin | DropRead | DropFast | DropWrite

  ghost predicate Next(s: Sys, step: Step, q: Seqno, s': Sys) {
    var one := multiset{q};
    match step
    case InsertRead =>
      s' == if q in s.c.refs then s.(hits := s.hits + one) else s.(misses := s.misses + one)
    case InsertFast =>
      && q in s.hits && q in s.c.refs
      && s' == s.(c := Added(s.c, q), hits := s.hits - one, live := s.live + one)
    case InsertMiss =>
      && q in s.misses
      && s' == s.(misses := s.misses - one, entering := s.entering + one)
    case InsertWrite =>
      && q in s.entering && NoReaders(s)
      && s' == s.(c := Entered(s.c, q), entering := s.entering - one, live := s.live + one)
    case DropBegin =>
      && q in s.live
      && s' == s.(live := s.live - one, begun := s.begun + one)
    case DropRead =>
      && q in s.begun
      && s' == if q in s.c.refs then s.(begun := s.begun - one, dropping := s.dropping + one)
               else s.(begun := s.begun - one)
    case DropFast =>
      && q in s.dropping && q in s.c.refs
      && s' == (if s.c.refs[q] > 1 then s.(c := Subtracted(s.c, q), dropping := s.dropping - one)
                else s.(c := Subtracted(s.c, q), dropping := s.dropping - one, leaving := s.leaving + one))
    case DropWrite =>
      && q in s.leaving && NoReaders(s)
      && s'.leaving == s.leaving - one
      && s' == s.(c := s'.c, leaving := s'.leaving)
      && (if q in s.c.refs && s.c.refs[q] == 0
          then s'.c.refs == s.c.refs - {q} && (if s.c.min == Some(q) then IsMin(s'.c.refs, s'.c.min) else s'.c.min == s.c.min)
          else s'.c == s.c)
  }

  ghost predicate Init(s: Sys) {
    s == Sys(Counters(map[], None), multiset{}, multiset{}, multiset{}, multiset{}, multiset{}, multiset{}, multiset{})
  }

  /** References that were added and not yet subtracted. */
  function Held(s: Sys, q: Seqno): nat {
    s.live[q] + s.begun[q] + s.dropping[q]
  }

  /** Fewer references than a 32-bit counter can count. */
  ghost predicate Countable(s: Sys) {
    forall q :: Held(s, q) < COUNTER_LIMIT
  }

  ghost predicate Counted(s: Sys) {
    && (forall q :: q in s.c.refs ==> s.c.refs[q] == Held(s, q))
    && (forall q :: Held(s, q) > 0 ==> q in s.c.refs)
  }

  /** An entry without references has a remover on its way. */
  ghost predicate ZeroLeaves(s: Sys) {
    forall q :: q in s.c.refs && s.c.refs[q] == 0 ==> q in s.leaving
  }

  ghost predicate HitsStay(s: Sys) {
    forall q :: q in s.hits ==> q in s.c.refs
  }

  ghost predicate Inv(s: Sys) {
    Counted(s) && ZeroLeaves(s) && HitsStay(s) && IsMin(s.c.refs, s.c.min)
  }

  lemma InitInv(s: Sys)
    requires Init(s)
    ensures Inv(s)
  {
  }

  lemma ModSmall(n: nat)
    requires n < COUNTER_LIMIT
    ensures n % COUNTER_LIMIT == n
  {
  }

  /** The counters changed only at `q`, to exactly the references held now. */
  lemma CountersAt(s: Sys, q: Seqno, s': Sys)
    requires Counted(s) && s'.c.refs.Keys == s.c.refs.Keys + {q}
    requires forall k :: k != q ==> Held(s', k) == Held(s, k)
    requires forall k :: k in s.c.refs && k != q ==> s'.c.refs[k] == s.c.refs[k]
    requires s'.c.refs[q] == Held(s', q)
    ensures Counted(s')
  {
  }

  lemma SameKeysSameMin(refs: map<Seqno, nat>, refs': map<Seqno, nat>, m: Option<Seqno>)
    requires IsMin(refs, m) && refs'.Keys == refs.Keys
    ensures IsMin(refs', m)
  {
  }

  lemma AddedCounted(s: Sys, q: Seqno, s': Sys)
    requires Counted(s) && q in s.c.refs && s'.c == Added(s.c, q) && Held(s', q) < COUNTER_LIMIT
    requires s'.live == s.live + multiset{q} && s'.begun == s.begun && s'.dropping == s.dropping
    ensures Counted(s') && Held(s', q) == Held(s, q) + 1
  {
    ModSmall(Held(s', q));
    CountersAt(s, q, s');
  }

  lemma AddInv(s: Sys, q: Seqno, s': Sys)
    requires Inv(s) && Next(s, InsertFast, q, s') && Countable(s')
    ensures Inv(s')
  {
    AddedCounted(s, q, s');
    AddedRest(s, q, s');
    SameKeysSameMin(s.c.refs, s'.c.refs, s.c.min);
  }

  lemma AddedRest(s: Sys, q: Seqno, s': Sys)
    requires ZeroLeaves(s) && HitsStay(s) && Counted(s') && q in s.c.refs && s'.c == Added(s.c, q) && 0 < Held(s', q)
    requires s'.leaving == s.leaving && s'.hits <= s.hits
    ensures ZeroLeaves(s') && HitsStay(s')
  {
    forall k | k in s'.c.refs && s'.c.refs[k] == 0
      ensures k in s'.leaving
    {
      assert k != q;
    }
    forall k | k in s'.hits
      ensures k in s'.c.refs
    {
      assert k in s.hits;
    }
  }

  lemma NewCounted(s: Sys, q: Seqno, s': Sys)
    requires Counted(s) && q !in s.c.refs && s'.c.refs == s.c.refs[q := 1]
    requires s'.live == s.live + multiset{q} && s'.begun == s.begun && s'.dropping == s.dropping
    ensures Counted(s')
  {
    assert Held(s, q) == 0;
    CountersAt(s, q, s');
  }

  lemma NewMin(c: Counters, q: Seqno)
    requires IsMin(c.refs, c.min) && q !in c.refs
    ensures IsMin(Entered(c, q).refs, Entered(c, q).min)
  {
  }

  lemma EnterInv(s: Sys, q: Seqno, s': Sys)
    requires Inv(s) && Next(s, InsertWrite, q, s') && Countable(s')
    ensures Inv(s')
  {
    if q in s.c.refs {
      AddedCounted(s, q, s');
      AddedRest(s, q, s');
      SameKeysSameMin(s.c.refs, s'.c.refs, s.c.min);
    } else {
      NewCounted(s, q, s');
      NewMin(s.c, q);
      NewRest(s, q, s');
    }
  }

  lemma NewRest(s: Sys, q: Seqno, s': Sys)
    requires ZeroLeaves(s) && HitsStay(s) && s'.c.refs == s.c.refs[q := 1] && s'.leaving == s.leaving && s'.hits == s.hits
    ensures ZeroLeaves(s') && HitsStay(s')
  {
  }

  lemma HeldOneMore(s: Sys, step: Step, q: Seqno, s': Sys)
    requires Next(s, step, q, s') && (step.InsertFast? || step.InsertWrite?)
    ensures Held(s', q) == Held(s, q) + 1 && forall k :: k != q ==> Held(s', k) == Held(s, k)
  {
  }

  /** The insertion that reaches the limit finds its entry and wraps it. */
  lemma AddWraps(s: Sys, step: Step, q: Seqno, s': Sys)
    requires Counted(s) && Next(s, step, q, s') && (step.InsertFast? || step.InsertWrite?)
    requires Held(s, q) == 0xFFFF_FFFF
    ensures q in s'.c.refs && s'.c.refs[q] == 0
  {
    assert q in s.c.refs && s'.c == Added(s.c, q);
  }

  /** The bound is exact on both paths: the insertion that reaches it wraps the counter to zero. */
  lemma AddKeepsIff(s: Sys, step: Step, q: Seqno, s': Sys)
    requires Inv(s) && Countable(s) && Next(s, step, q, s') && (step.InsertFast? || step.InsertWrite?)
    ensures Inv(s') <==> Countable(s')
  {
    HeldOneMore(s, step, q, s');
    if Countable(s') {
      NextInv(s, step, q, s');
    } else {
      assert Held(s, q) < COUNTER_LIMIT;
      AddWraps(s, step, q, s');
      assert s'.c.refs[q] != Held(s', q);
    }
  }

  /** The steps of one section, taken together. */
  lemma TwoSteps(s: Sys, first: Step, r: Sys, second: Step, q: Seqno, s': Sys)
    requires Next(s, first, q, r) && Next(r, second, q, s') && (first.InsertRead? || first.DropRead?)
    ensures Inv(s) && Countable(s') ==> Inv(s')
  {
    if Inv(s) && Countable(s') {
      QuietInv(s, first, q, r);
      NextInv(r, second, q, s');
    }
  }

  lemma SubCounted(s: Sys, q: Seqno, s': Sys)
    requires Counted(s) && q in s.c.refs && s'.c == Subtracted(s.c, q) && q in s.dropping && Held(s', q) < COUNTER_LIMIT
    requires s'.live == s.live && s'.begun == s.begun && s'.dropping == s.dropping - multiset{q}
    ensures Counted(s') && Held(s', q) == Held(s, q) - 1
  {
    ModSmall(Held(s', q));
    CountersAt(s, q, s');
  }

  lemma SubRest(s: Sys, q: Seqno, s': Sys)
    requires Counted(s) && ZeroLeaves(s) && HitsStay(s) && q in s.c.refs && s'.c == Subtracted(s.c, q)
    requires Counted(s') && Held(s', q) == Held(s, q) - 1 && s'.hits == s.hits
    requires s'.leaving == if s.c.refs[q] > 1 then s.leaving else s.leaving + multiset{q}
    ensures ZeroLeaves(s') && HitsStay(s')
  {
    forall k | k in s'.c.refs && s'.c.refs[k] == 0
      ensures k in s'.leaving
    {
      if k == q {
        assert s.c.refs[q] == 1;
      } else {
        assert k in s.leaving;
      }
    }
  }

  lemma SubInv(s: Sys, q: Seqno, s': Sys)
    requires Inv(s) && Next(s, DropFast, q, s') && Countable(s')
    ensures Inv(s')
  {
    SubCounted(s, q, s');
    SubRest(s, q, s');
    SameKeysSameMin(s.c.refs, s'.c.refs, s.c.min);
  }

  lemma LeaveInv(s: Sys, q: Seqno, s': Sys)
    requires Inv(s) && Next(s, DropWrite, q, s')
    ensures Inv(s')
  {
    assert forall k :: Held(s', k) == Held(s, k);
  }

  lemma SameCounted(s: Sys, s': Sys)
    requires Counted(s) && s'.c == s.c && forall k :: Held(s', k) == Held(s, k)
    ensures Counted(s')
  {
  }

  lemma QuietHeld(s: Sys, step: Step, q: Seqno, s': Sys)
    requires Counted(s) && Next(s, step, q, s')
    requires step.InsertRead? || step.InsertMiss? || step.DropBegin? || step.DropRead?
    ensures forall k :: Held(s', k) == Held(s, k)
  {
    assert step.DropRead? ==> 0 < Held(s, q);
  }

  /** Steps that touch no counter. */
  lemma QuietInv(s: Sys, step: Step, q: Seqno, s': Sys)
    requires Inv(s) && Next(s, step, q, s')
    requires step.InsertRead? || step.InsertMiss? || step.DropBegin? || step.DropRead?
    ensures Inv(s')
  {
    QuietHeld(s, step, q, s');
    SameCounted(s, s');
  }

  /** Every step of every operation keeps the invariant. */
  lemma NextInv(s: Sys, step: Step, q: Seqno, s': Sys)
    requires Inv(s) && Next(s, step, q, s') && Countable(s')
    ensures Inv(s')
  {
    match step
    case InsertFast => AddInv(s, q, s');
    case InsertWrite => EnterInv(s, q, s');
    case DropFast => SubInv(s, q, s');
    case DropWrite => LeaveInv(s, q, s');
    case _ => QuietInv(s, step, q, s');
  }

  lemma DropMissed(s: Sys, q: Seqno, r: Sys)
    requires q in s.begun && q !in s.c.refs && r == s.(begun := s.begun - multiset{q})
    ensures Next(s, DropRead, q, r) && Held(r, q) == Held(s, q) - 1
    ensures !Inv(s)
  {
    assert Held(s, q) > 0;
  }

  lemma DropTaken(s: Sys, q: Seqno, r: Sys, s': Sys)
    requires q in s.begun && q in s.c.refs
    requires r == s.(begun := s.begun - multiset{q}, dropping := s.dropping + multiset{q})
    requires s' == s.(c := Subtracted(s.c, q), begun := s.begun - multiset{q},
                      leaving := if s.c.refs[q] <= 1 then s.leaving + multiset{q} else s.leaving)
    ensures Next(s, DropRead, q, r) && Next(r, DropFast, q, s') && Held(s', q) == Held(s, q) - 1
    ensures Inv(s) && Countable(s) ==> Inv(s') && (s.c.refs[q] <= 1 <==> Held(s', q) == 0)
  {
    assert s.dropping + multiset{q} - multiset{q} == s.dropping;
    if Inv(s) && Countable(s) {
      assert s.c.refs[q] == Held(s, q);
      assert forall k :: Held(s', k) <= Held(s, k);
      TwoSteps(s, DropRead, r, DropFast, q, s');
    }
  }

  // --- the sections under the lock ---

  /** The shared state; `s` is the system it is part of when a section begins. */
  class StateIds {
    var counters: Counters

    constructor ()
      ensures counters == Counters(map[], None)
    {
      counters := Counters(map[], None);
    }

    /** Fast path of an insertion, under the read lock: adds a live handle if the entry is there, else asks for the slow path. */
    method FetchAdd(q: Seqno, ghost s: Sys) returns (found: bool, ghost r: Sys, ghost s': Sys)
      requires s.c == counters
      modifies this
      ensures counters == s'.c && Next(s, InsertRead, q, r)
      ensures Next(r, if found then InsertFast else InsertMiss, q, s')
      ensures if found then Held(s', q) == Held(s, q) + 1 else counters == old(counters) && q in s'.entering
      ensures Inv(s) && Countable(s') ==> Inv(s')
    {
      found := q in counters.refs;
      if found {
        counters := counters.(refs := counters.refs[q := (counters.refs[q] + 1) % COUNTER_LIMIT]);
      }
      r := if found then s.(hits := s.hits + multiset{q}) else s.(misses := s.misses + multiset{q});
      s' := if found then r.(c := counters, hits := s.hits, live := s.live + multiset{q})
            else r.(misses := s.misses, entering := s.entering + multiset{q});
      assert s.hits + multiset{q} - multiset{q} == s.hits;
      assert s.misses + multiset{q} - multiset{q} == s.misses;
      TwoSteps(s, InsertRead, r, if found then InsertFast else InsertMiss, q, s');
    }

    /** Slow path of an insertion, under the write lock: always adds a live handle. */
    method Enter(q: Seqno, ghost s: Sys) returns (ghost s': Sys)
      requires s.c == counters && q in s.entering && NoReaders(s)
      modifies this
      ensures counters == s'.c && Next(s, InsertWrite, q, s')
      ensures Held(s', q) == Held(s, q) + 1 && q in counters.refs
      ensures IsMin(old(counters.refs), old(counters.min)) ==> IsMin(counters.refs, counters.min)
      ensures Inv(s) && Countable(s') ==> Inv(s')
    {
      if q in counters.refs {
        var n := (counters.refs[q] + 1) % COUNTER_LIMIT;
        counters := counters.(refs := counters.refs[q := n]);
      } else {
        var min := counters.min;
        if min.Some? && q < min.value {
          min := Some(q);
        } else if min.None? {
          min := Some(q);
        }
        counters := Counters(counters.refs[q := 1], min);
      }
      s' := s.(c := counters, entering := s.entering - multiset{q}, live := s.live + multiset{q});
      if Inv(s) && Countable(s') {
        NextInv(s, InsertWrite, q, s');
      }
    }

    /** Fast path of a drop, under the read lock: takes one handle off; the last one asks for the slow path. */
    method FetchSub(q: Seqno, ghost s: Sys) returns (slow: bool, ghost r: Sys, ghost s': Sys)
      requires s.c == counters && q in s.begun
      modifies this
      ensures counters == s'.c && Next(s, DropRead, q, r)
      ensures if q in old(counters.refs) then Next(r, DropFast, q, s') else s' == r
      ensures Held(s', q) == Held(s, q) - 1
      ensures Inv(s) && Countable(s) ==> Inv(s') && (slow <==> Held(s', q) == 0)
      ensures slow ==> q in s'.leaving
    {
      r := s.(begun := s.begun - multiset{q});
      s' := r;
      if q !in counters.refs {
        DropMissed(s, q, r);
        return false, r, s';
      }
      r := r.(dropping := s.dropping + multiset{q});
      slow := counters.refs[q] <= 1;
      counters := counters.(refs := counters.refs[q := (counters.refs[q] - 1) % COUNTER_LIMIT]);
      s' := s'.(c := counters, leaving := if slow then s.leaving + multiset{q} else s.leaving);
      DropTaken(s, q, r, s');
    }

    /** Slow path of a drop, under the write lock: a dead entry goes, and the minimum is found again if it was it. */
    method Leave(q: Seqno, ghost s: Sys) returns (ghost s': Sys)
      requires s.c == counters && q in s.leaving && NoReaders(s)
      modifies this
      ensures counters == s'.c && Next(s, DropWrite, q, s')
      ensures forall k :: Held(s', k) == Held(s, k)
      ensures IsMin(old(counters.refs), old(counters.min)) ==> IsMin(counters.refs, counters.min)
      ensures Inv(s) ==> Inv(s') && (q in counters.refs <==> Held(s, q) > 0)
    {
      if q in counters.refs && counters.refs[q] == 0 {
        var refs := counters.refs - {q};
        var min := counters.min;
        if min == Some(q) {
          min := MinKey(refs);
        }
        counters := Counters(refs, min);
      }
      s' := s.(c := counters, leaving := s.leaving - multiset{q});
      if Inv(s) {
        LeaveInv(s, q, s');
      }
    }
  }

  /** A run: any interleaving of insertions and drops, split where locks are taken and released. */
  ghost predicate Run(run: seq<Sys>, steps: seq<Step>, args: seq<Seqno>) {
    && |run| == |steps| + 1 == |args| + 1
    && Init(run[0])
    && (forall i :: 0 <= i < |run| ==> Countable(run[i]))
    && (forall i :: 0 <= i < |steps| ==> Next(run[i], steps[i], args[i], run[i + 1]))
  }

  lemma {:induction false} RunInv(run: seq<Sys>, steps: seq<Step>, args: seq<Seqno>, n: nat)
    requires Run(run, steps, args) && n < |run|
    ensures Inv(run[n])
  {
    if n == 0 {
      InitInv(run[0]);
    } else {
      RunInv(run, steps, args, n - 1);
      NextInv(run[n - 1], steps[n - 1], args[n - 1], run[n]);
    }
  }

  /** At every point of every run `seqno()` is at most the seqno of any handle not yet subtracted. */
  lemma SeqnoIsSafe(run: seq<Sys>, steps: seq<Step>, args: seq<Seqno>, n: nat, q: Seqno)
    requires Run(run, steps, args) && n < |run| && Held(run[n], q) > 0
    ensures run[n].c.min.Some? && run[n].c.min.value <= q
    // the entry of a handle is there, so a drop never misses it
    ensures q in run[n].c.refs && run[n].c.refs[q] == Held(run[n], q)
  {
    RunInv(run, steps, args, n);
  }

  ghost predicate Quiescent(s: Sys) {
    && NoReaders(s)
    && s.entering == multiset{} && s.begun == multiset{} && s.leaving == multiset{}
  }

  /** With no operation under way, `seqno()` is exactly the smallest live seqno and nothing else is tracked. */
  lemma SeqnoIsExact(run: seq<Sys>, steps: seq<Step>, args: seq<Seqno>, n: nat)
    requires Run(run, steps, args) && n < |run| && Quiescent(run[n])
    ensures forall q :: q in run[n].c.refs <==> q in run[n].live
    ensures run[n].c.min.None? <==> run[n].live == multiset{}
    ensures run[n].c.min.Some? ==>
              run[n].c.min.value in run[n].live && forall q :: q in run[n].live ==> run[n].c.min.value <= q
  {
    RunInv(run, steps, args, n);
    var s := run[n];
    forall q ensures q in s.c.refs <==> q in s.live {
      assert Held(s, q) == s.live[q];
    }
  }

  /** An entry whose counter is zero always has a drop on its way to remove it. */
  lemma DeadEntriesLeave(run: seq<Sys>, steps: seq<Step>, args: seq<Seqno>, n: nat, q: Seqno)
    requires Run(run, steps, args) && n < |run| && q in run[n].c.refs && Held(run[n], q) == 0
    ensures q in run[n].leaving
  {
    RunInv(run, steps, args, n);
  }
}
