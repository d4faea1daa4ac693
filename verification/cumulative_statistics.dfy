/** Per-account message counts kept per diff, and their running total per partition. */
module CumulativeStats {
  import Worklists

  type Shard = nat
  type Partition = nat
  type Address = nat

  // Queue keys by their rank.
  type Key = nat

  /** One diff's part in one partition. */
  datatype DiffId = DiffId(shard: Shard, partition: Partition, key: Key)

  /** Messages per destination account. */
  type Stats = map<Address, nat>

  /** For a destination shard: partition, then source shard, to the last processed key. */
  type Borders = map<Partition, map<Shard, Key>>

  type Diffs = map<DiffId, Stats>

  type Contains = (Shard, Address) -> bool

  // --- counts and sums ---

  function Count(s: Stats, a: Address): nat {
    if a in s then s[a] else 0
  }

  function CountAt(d: Diffs, id: DiffId, a: Address): nat {
    if id in d then Count(d[id], a) else 0
  }

  function ResultAt(r: map<Partition, Stats>, p: Partition, a: Address): nat {
    if p in r then Count(r[p], a) else 0
  }

  /** Statistics hold no zero counts. */
  ghost predicate Positive(s: Stats) {
    forall a :: a in s ==> s[a] > 0
  }

  ghost predicate AllPositive(d: Diffs) {
    forall id :: id in d ==> Positive(d[id])
  }

  ghost predicate Tidy(r: map<Partition, Stats>) {
    forall p :: p in r ==> Positive(r[p])
  }

  ghost function Sum(f: DiffId -> nat, ids: set<DiffId>): nat {
    if ids == {} then 0 else
      var id :| id in ids;
      f(id) + Sum(f, ids - {id})
  }

  lemma {:induction false} SumRemove(f: DiffId -> nat, ids: set<DiffId>, id: DiffId)
    requires id in ids
    ensures Sum(f, ids) == f(id) + Sum(f, ids - {id})
    decreases |ids|
  {
    var x :| x in ids && Sum(f, ids) == f(x) + Sum(f, ids - {x});
    if x != id {
      SumRemove(f, ids - {x}, id);
      SumRemove(f, ids - {id}, x);
      assert ids - {x} - {id} == ids - {id} - {x};
    }
  }

  lemma {:induction false} SumSame(f: DiffId -> nat, g: DiffId -> nat, ids: set<DiffId>)
    requires forall id :: id in ids ==> f(id) == g(id)
    ensures Sum(f, ids) == Sum(g, ids)
    decreases |ids|
  {
    if ids != {} {
      var id :| id in ids;
      SumRemove(f, ids, id);
      SumRemove(g, ids, id);
      SumSame(f, g, ids - {id});
    }
  }

  lemma {:induction false} SumUnion(f: DiffId -> nat, ids: set<DiffId>, extra: set<DiffId>)
    requires ids !! extra
    ensures Sum(f, ids + extra) == Sum(f, ids) + Sum(f, extra)
    decreases |extra|
  {
    if extra == {} {
      assert ids + extra == ids;
    } else {
      var id :| id in extra;
      SumRemove(f, extra, id);
      SumRemove(f, ids + extra, id);
      assert ids + extra - {id} == ids + (extra - {id});
      SumUnion(f, ids, extra - {id});
    }
  }

  lemma {:induction false} SumZero(f: DiffId -> nat, ids: set<DiffId>)
    requires forall id :: id in ids ==> f(id) == 0
    ensures Sum(f, ids) == 0
    decreases |ids|
  {
    if ids != {} {
      var id :| id in ids;
      SumRemove(f, ids, id);
      SumZero(f, ids - {id});
    }
  }

  lemma {:induction false} SumAdd(f: DiffId -> nat, g: DiffId -> nat, h: DiffId -> nat, ids: set<DiffId>)
    requires forall id :: id in ids ==> h(id) == f(id) + g(id)
    ensures Sum(h, ids) == Sum(f, ids) + Sum(g, ids)
    decreases |ids|
  {
    if ids != {} {
      var id :| id in ids;
      SumRemove(f, ids, id);
      SumRemove(g, ids, id);
      SumRemove(h, ids, id);
      SumAdd(f, g, h, ids - {id});
    }
  }

  ghost function Counts(d: Diffs, p: Partition, a: Address): DiffId -> nat {
    (id: DiffId) => if id.partition == p then CountAt(d, id, a) else 0
  }

  /** What a partition holds for an account, summed over the diffs. */
  ghost function Total(d: Diffs, p: Partition, a: Address): nat {
    Sum(Counts(d, p, a), d.Keys)
  }

  /** The running total is the sum over the diffs. */
  ghost predicate Summed(r: map<Partition, Stats>, d: Diffs) {
    Tidy(r) && forall p, a :: ResultAt(r, p, a) == Total(d, p, a)
  }

  lemma SumOverMore(d: Diffs, p: Partition, a: Address, ids: set<DiffId>)
    requires d.Keys <= ids
    ensures Sum(Counts(d, p, a), ids) == Total(d, p, a)
  {
    var extra := ids - d.Keys;
    assert ids == d.Keys + extra;
    SumUnion(Counts(d, p, a), d.Keys, extra);
    SumZero(Counts(d, p, a), extra);
  }

  // --- borders ---

  predicate Below(b: Borders, id: DiffId) {
    id.partition in b && id.shard in b[id.partition] && id.key <= b[id.partition][id.shard]
  }

  /** Some destination shard that owns the account has processed the diff. */
  ghost predicate Covered(contains: Contains, to: map<Shard, Borders>, id: DiffId, a: Address) {
    exists dst :: dst in to && contains(dst, a) && Below(to[dst], id)
  }

  /** The diffs ever added, less the counts that are already processed. */
  ghost function Live(contains: Contains, to: map<Shard, Borders>, added: Diffs, id: DiffId, a: Address): nat {
    if Covered(contains, to, id, a) then 0 else CountAt(added, id, a)
  }

  ghost function LiveCounts(contains: Contains, to: map<Shard, Borders>, added: Diffs, p: Partition, a: Address)
    : DiffId -> nat
  {
    (id: DiffId) => if id.partition == p then Live(contains, to, added, id, a) else 0
  }

  /** The total by definition: every diff ever added, counted where its border is below it. */
  ghost function Expected(contains: Contains, to: map<Shard, Borders>, added: Diffs, p: Partition, a: Address): nat {
    Sum(LiveCounts(contains, to, added, p, a), added.Keys)
  }

  /** Destination `dst` owns the account and has processed the diff's source shard and partition up to key `k`. */
  ghost predicate UpTo(contains: Contains, to: map<Shard, Borders>, id: DiffId, a: Address, dst: Shard, k: Key) {
    && dst in to && contains(dst, a) && id.partition in to[dst] && id.shard in to[dst][id.partition]
    && to[dst][id.partition][id.shard] == k
  }

  /** A diff counts for nothing once a destination of the account has come up to its key,
    and in full as long as all of them are lower. */
  lemma AtTheBorder(contains: Contains, to: map<Shard, Borders>, added: Diffs, id: DiffId, a: Address)
    ensures (exists dst :: UpTo(contains, to, id, a, dst, id.key)) ==> Live(contains, to, added, id, a) == 0
    ensures (forall dst, k: Key :: UpTo(contains, to, id, a, dst, k) ==> k < id.key) ==>
              Live(contains, to, added, id, a) == CountAt(added, id, a)
  {
    if dst :| UpTo(contains, to, id, a, dst, id.key) {
      assert Below(to[dst], id);
    }
    if dst :| dst in to && contains(dst, a) && Below(to[dst], id) {
      assert UpTo(contains, to, id, a, dst, to[dst][id.partition][id.shard]);
    }
  }

  /** The kept diffs are the added ones without their processed accounts. */
  ghost predicate Weeded(contains: Contains, to: map<Shard, Borders>, added: Diffs, d: Diffs) {
    && AllPositive(d)
    && d.Keys <= added.Keys
    && forall id, a :: CountAt(d, id, a) == Live(contains, to, added, id, a)
  }

  /** Summing the kept diffs is summing the unprocessed part of all diffs. */
  lemma TotalIsExpected(contains: Contains, to: map<Shard, Borders>, added: Diffs, d: Diffs, p: Partition, a: Address)
    requires Weeded(contains, to, added, d)
    ensures Total(d, p, a) == Expected(contains, to, added, p, a)
  {
    var f, g := Counts(d, p, a), LiveCounts(contains, to, added, p, a);
    SumSame(f, g, added.Keys);
    var extra := added.Keys - d.Keys;
    assert d.Keys + extra == added.Keys;
    SumUnion(f, d.Keys, extra);
    SumZero(f, extra);
  }

  // --- adding ---

  /** Adds one account map to another, account by account. */
  method Append(s: Stats, other: Stats) returns (r: Stats)
    requires Positive(s) && Positive(other)
    ensures Positive(r)
    ensures forall a :: Count(r, a) == Count(s, a) + Count(other, a)
  {
    r := s;
    var todo := other.Keys;
    while todo != {}
      invariant todo <= other.Keys && Positive(r)
      invariant forall a :: Count(r, a) == Count(s, a) + if a in todo then 0 else Count(other, a)
      decreases |todo|
    {
      var a :| a in todo;
      r := r[a := Count(r, a) + other[a]];
      todo := todo - {a};
    }
  }

  /** Adds one account map to a partition's total. */
  method AppendTo(r: map<Partition, Stats>, partition: Partition, s: Stats) returns (r': map<Partition, Stats>)
    requires Tidy(r) && Positive(s)
    ensures Tidy(r')
    ensures forall p, a :: ResultAt(r', p, a) == ResultAt(r, p, a) + if p == partition then Count(s, a) else 0
  {
    var sum := Append(if partition in r then r[partition] else map[], s);
    r' := r[partition := sum];
  }

  // --- draining ---

  /** The message counts a destination's new borders take away. */
  predicate Leaves(contains: Contains, dst: Shard, b: Borders, id: DiffId, a: Address) {
    contains(dst, a) && Below(b, id)
  }

  ghost function LeavingCounts(contains: Contains, dst: Shard, b: Borders, d: Diffs, p: Partition, a: Address): DiffId -> nat {
    (id: DiffId) => if id.partition == p && Leaves(contains, dst, b, id, a) then CountAt(d, id, a) else 0
  }

  ghost function StayingCounts(contains: Contains, dst: Shard, b: Borders, d: Diffs, p: Partition, a: Address): DiffId -> nat {
    (id: DiffId) => if id.partition == p && !Leaves(contains, dst, b, id, a) then CountAt(d, id, a) else 0
  }

  ghost function Leaving(contains: Contains, dst: Shard, b: Borders, d: Diffs, p: Partition, a: Address): nat {
    Sum(LeavingCounts(contains, dst, b, d, p, a), d.Keys)
  }

  ghost function Staying(contains: Contains, dst: Shard, b: Borders, d: Diffs, p: Partition, a: Address): nat {
    Sum(StayingCounts(contains, dst, b, d, p, a), d.Keys)
  }

  lemma LeavesOrStays(contains: Contains, dst: Shard, b: Borders, d: Diffs, p: Partition, a: Address)
    ensures Total(d, p, a) == Leaving(contains, dst, b, d, p, a) + Staying(contains, dst, b, d, p, a)
  {
    SumAdd(LeavingCounts(contains, dst, b, d, p, a), StayingCounts(contains, dst, b, d, p, a), Counts(d, p, a), d.Keys);
  }

  /** The running total has room for everything the new borders take off it. */
  ghost predicate Enough(contains: Contains, dst: Shard, b: Borders, r: map<Partition, Stats>, d: Diffs) {
    forall p, a :: Leaving(contains, dst, b, d, p, a) <= ResultAt(r, p, a)
  }

  /** What the total has beyond the counts still to leave is the same before and after. */
  ghost predicate SameSlack(contains: Contains, dst: Shard, b: Borders, r: map<Partition, Stats>, d: Diffs,
                            r': map<Partition, Stats>, d': Diffs)
  {
    forall p, a :: ResultAt(r', p, a) - Leaving(contains, dst, b, d', p, a)
      == ResultAt(r, p, a) - Leaving(contains, dst, b, d, p, a)
  }

  lemma SlackTwice(contains: Contains, dst: Shard, b: Borders, r0: map<Partition, Stats>, d0: Diffs,
                   r1: map<Partition, Stats>, d1: Diffs, r2: map<Partition, Stats>, d2: Diffs)
    requires SameSlack(contains, dst, b, r0, d0, r1, d1) && SameSlack(contains, dst, b, r1, d1, r2, d2)
    ensures SameSlack(contains, dst, b, r0, d0, r2, d2)
  {
    forall p, a
      ensures ResultAt(r2, p, a) - Leaving(contains, dst, b, d2, p, a)
        == ResultAt(r0, p, a) - Leaving(contains, dst, b, d0, p, a)
    {
      assert ResultAt(r1, p, a) - Leaving(contains, dst, b, d1, p, a)
        == ResultAt(r0, p, a) - Leaving(contains, dst, b, d0, p, a);
    }
  }

  lemma EnoughStays(contains: Contains, dst: Shard, b: Borders, r: map<Partition, Stats>, d: Diffs,
                    r': map<Partition, Stats>, d': Diffs)
    requires SameSlack(contains, dst, b, r, d, r', d')
    ensures Enough(contains, dst, b, r, d) <==> Enough(contains, dst, b, r', d')
  {
    forall p, a
      ensures Leaving(contains, dst, b, d, p, a) <= ResultAt(r, p, a)
        <==> Leaving(contains, dst, b, d', p, a) <= ResultAt(r', p, a)
    {
      assert ResultAt(r', p, a) - Leaving(contains, dst, b, d', p, a)
        == ResultAt(r, p, a) - Leaving(contains, dst, b, d, p, a);
    }
  }

  /** A total that is the sum over the diffs never runs short. */
  lemma TotalCovers(contains: Contains, dst: Shard, b: Borders, r: map<Partition, Stats>, d: Diffs)
    requires Summed(r, d)
    ensures Enough(contains, dst, b, r, d)
  {
    forall p, a
      ensures Leaving(contains, dst, b, d, p, a) <= ResultAt(r, p, a)
    {
      LeavesOrStays(contains, dst, b, d, p, a);
      assert ResultAt(r, p, a) == Total(d, p, a);
    }
  }

  ghost predicate Dropped(d: Diffs, d': Diffs, id: DiffId, a: Address) {
    && d'.Keys == d.Keys
    && forall i, b :: CountAt(d', i, b) == if i == id && b == a then 0 else CountAt(d, i, b)
  }

  lemma LeavingAfterDrop(contains: Contains, dst: Shard, b: Borders, d: Diffs, d': Diffs, id: DiffId, a: Address,
                         p: Partition, x: Address)
    requires id in d && Dropped(d, d', id, a) && Leaves(contains, dst, b, id, a)
    ensures Leaving(contains, dst, b, d, p, x)
      == Leaving(contains, dst, b, d', p, x) + if p == id.partition && x == a then CountAt(d, id, a) else 0
  {
    var f, g := LeavingCounts(contains, dst, b, d, p, x), LeavingCounts(contains, dst, b, d', p, x);
    SumRemove(f, d.Keys, id);
    SumRemove(g, d.Keys, id);
    SumSame(f, g, d.Keys - {id});
  }

  lemma SlackAfterDrop(contains: Contains, dst: Shard, b: Borders, r: map<Partition, Stats>, d: Diffs,
                       r': map<Partition, Stats>, d': Diffs, id: DiffId, a: Address)
    requires id in d && Dropped(d, d', id, a) && Leaves(contains, dst, b, id, a)
    requires forall p, x ::
      ResultAt(r, p, x) == ResultAt(r', p, x) + if p == id.partition && x == a then CountAt(d, id, a) else 0
    ensures SameSlack(contains, dst, b, r, d, r', d')
  {
    forall p, x
      ensures ResultAt(r', p, x) - Leaving(contains, dst, b, d', p, x)
        == ResultAt(r, p, x) - Leaving(contains, dst, b, d, p, x)
    {
      LeavingAfterDrop(contains, dst, b, d, d', id, a, p, x);
    }
  }

  lemma NotEnough(contains: Contains, dst: Shard, b: Borders, r: map<Partition, Stats>, d: Diffs, id: DiffId, a: Address)
    requires id in d && Leaves(contains, dst, b, id, a) && ResultAt(r, id.partition, a) < CountAt(d, id, a)
    ensures !Enough(contains, dst, b, r, d)
  {
    SumRemove(LeavingCounts(contains, dst, b, d, id.partition, a), d.Keys, id);
    assert ResultAt(r, id.partition, a) < Leaving(contains, dst, b, d, id.partition, a);
  }

  /** Takes a count off an account, if it has as much; an account that reaches zero leaves the map. */
  method Decrement(s: Stats, a: Address, count: nat) returns (ok: bool, r: Stats)
    requires Positive(s) && count > 0
    ensures ok <==> count <= Count(s, a)
    ensures ok ==> Positive(r) && forall b :: Count(r, b) == if b == a then Count(s, a) - count else Count(s, b)
  {
    if a !in s || s[a] < count {
      return false, s;
    }
    r := s[a := s[a] - count];
    if r[a] == 0 {
      r := r - {a};
    }
    ok := true;
  }

  /** One step of draining: the diffs keep no zero counts and the slack of the total is the same. */
  ghost predicate Drawn(contains: Contains, dst: Shard, b: Borders, r: map<Partition, Stats>, d: Diffs,
                        r': map<Partition, Stats>, d': Diffs)
  {
    AllPositive(d') && Tidy(r') && SameSlack(contains, dst, b, r, d, r', d')
  }

  /** Moves one account of one diff out of the diffs and out of the running total, if the total has as much. */
  method DropAccount(contains: Contains, dst: Shard, ghost b: Borders, d: Diffs, r: map<Partition, Stats>, id: DiffId,
                     a: Address)
    returns (ok: bool, d': Diffs, r': map<Partition, Stats>)
    requires AllPositive(d) && Tidy(r) && id in d && a in d[id] && Leaves(contains, dst, b, id, a)
    ensures !ok ==> !Enough(contains, dst, b, r, d)
    ensures ok ==> Drawn(contains, dst, b, r, d, r', d') && Dropped(d, d', id, a)
    ensures ok ==> forall i :: i in d && i != id ==> d'[i] == d[i]
  {
    assert Positive(d[id]);
    var part := if id.partition in r then r[id.partition] else map[];
    assert Positive(part);
    var s;
    ok, s := Decrement(part, a, d[id][a]);
    d' := d[id := d[id] - {a}];
    r' := r[id.partition := s];
    if ok {
      assert Dropped(d, d', id, a);
      SlackAfterDrop(contains, dst, b, r, d, r', d', id, a);
    } else {
      NotEnough(contains, dst, b, r, d, id, a);
    }
  }

  /** d' is d without the destination's accounts in the given diffs. */
  ghost predicate DrainedIn(contains: Contains, dst: Shard, ids: set<DiffId>, d: Diffs, d': Diffs) {
    && d'.Keys <= d.Keys
    && forall i, a :: CountAt(d', i, a) == if i in ids && contains(dst, a) then 0 else CountAt(d, i, a)
  }

  lemma DrainedTwice(contains: Contains, dst: Shard, x: set<DiffId>, y: set<DiffId>, d0: Diffs, d1: Diffs, d2: Diffs)
    requires DrainedIn(contains, dst, x, d0, d1) && DrainedIn(contains, dst, y, d1, d2)
    ensures DrainedIn(contains, dst, x + y, d0, d2)
  {
    forall i, a
      ensures CountAt(d2, i, a) == if i in x + y && contains(dst, a) then 0 else CountAt(d0, i, a)
    {
      assert CountAt(d1, i, a) == if i in x && contains(dst, a) then 0 else CountAt(d0, i, a);
    }
  }

  /** Part-way through one diff: the destination's accounts outside `todo` are gone. */
  ghost predicate Thinning(contains: Contains, dst: Shard, d: Diffs, d': Diffs, id: DiffId, todo: set<Address>) {
    && d'.Keys == d.Keys && id in d'
    && (forall a :: a in todo ==> a in d'[id])
    && (forall i, a :: CountAt(d', i, a) == if i == id && contains(dst, a) && a !in todo then 0 else CountAt(d, i, a))
    && (forall i :: i in d && i != id ==> d'[i] == d[i])
  }

  lemma ThinningStep(contains: Contains, dst: Shard, d: Diffs, d1: Diffs, d2: Diffs, id: DiffId, todo: set<Address>, a: Address)
    requires Thinning(contains, dst, d, d1, id, todo) && a in todo && contains(dst, a) && AllPositive(d1)
    requires Dropped(d1, d2, id, a) && forall i :: i in d1 && i != id ==> d2[i] == d1[i]
    ensures Thinning(contains, dst, d, d2, id, todo - {a})
  {
    StillThere(d1, d2, id, a, todo - {a});
    forall i, x
      ensures CountAt(d2, i, x) == if i == id && contains(dst, x) && x !in todo - {a} then 0 else CountAt(d, i, x)
    {
      assert CountAt(d1, i, x) == if i == id && contains(dst, x) && x !in todo then 0 else CountAt(d, i, x);
    }
  }

  /** Drops the destination's accounts from one diff below its border. */
  method DrainDiff(contains: Contains, dst: Shard, ghost b: Borders, d: Diffs, r: map<Partition, Stats>, id: DiffId)
    returns (ok: bool, d': Diffs, r': map<Partition, Stats>)
    requires AllPositive(d) && Tidy(r) && id in d && Below(b, id)
    ensures !ok ==> !Enough(contains, dst, b, r, d)
    ensures ok ==> Drawn(contains, dst, b, r, d, r', d') && Thinning(contains, dst, d, d', id, {})
  {
    ok, d', r' := true, d, r;
    var todo := d[id].Keys;
    while todo != {}
      invariant Drawn(contains, dst, b, r, d, r', d') && Thinning(contains, dst, d, d', id, todo)
      decreases |todo|
    {
      var a :| a in todo;
      if contains(dst, a) {
        ghost var d1, r1 := d', r';
        ok, d', r' := DropAccount(contains, dst, b, d', r', id, a);
        if !ok {
          EnoughStays(contains, dst, b, r, d, r1, d1);
          return;
        }
        SlackTwice(contains, dst, b, r, d, r1, d1, r', d');
        ThinningStep(contains, dst, d, d1, d', id, todo, a);
      }
      todo := todo - {a};
    }
  }

  lemma StillThere(d: Diffs, d': Diffs, id: DiffId, a: Address, rest: set<Address>)
    requires AllPositive(d) && Dropped(d, d', id, a) && id in d && a !in rest
    requires forall b :: b in rest ==> b in d[id]
    ensures forall b :: b in rest ==> b in d'[id]
  {
    assert Positive(d[id]);
    forall b | b in rest
      ensures b in d'[id]
    {
      assert CountAt(d', id, b) == CountAt(d, id, b) > 0;
    }
  }

  /** Forgetting a drained diff changes neither the sum nor what is still to leave. */
  lemma SlackWithoutEmpty(contains: Contains, dst: Shard, b: Borders, r: map<Partition, Stats>, d: Diffs, id: DiffId)
    requires AllPositive(d) && id in d && d[id] == map[]
    ensures AllPositive(d - {id}) && SameSlack(contains, dst, b, r, d, r, d - {id})
    ensures forall i, a :: CountAt(d - {id}, i, a) == CountAt(d, i, a)
    ensures forall p, a :: Total(d - {id}, p, a) == Total(d, p, a)
  {
    var d' := d - {id};
    assert d'.Keys == d.Keys - {id};
    forall p, a
      ensures Leaving(contains, dst, b, d', p, a) == Leaving(contains, dst, b, d, p, a)
    {
      var f, g := LeavingCounts(contains, dst, b, d, p, a), LeavingCounts(contains, dst, b, d', p, a);
      SumRemove(f, d.Keys, id);
      SumSame(f, g, d'.Keys);
    }
    forall p, a
      ensures Total(d', p, a) == Total(d, p, a)
    {
      SumRemove(Counts(d, p, a), d.Keys, id);
      SumSame(Counts(d, p, a), Counts(d', p, a), d'.Keys);
    }
  }

  ghost predicate Lowest(id: DiffId, ids: set<DiffId>) {
    id in ids && forall j :: j in ids ==> id.key <= j.key
  }

  lemma HasLowest(ids: set<DiffId>)
    requires ids != {}
    ensures exists id :: Lowest(id, ids)
    decreases |ids|
  {
    var x :| x in ids;
    if ids == {x} {
      assert Lowest(x, ids);
    } else {
      HasLowest(ids - {x});
      var y :| Lowest(y, ids - {x});
      assert Lowest(if x.key <= y.key then x else y, ids);
    }
  }

  function Reached(ids: set<DiffId>, key: Key): set<DiffId> {
    set id | id in ids && id.key <= key
  }

  ghost predicate Emptied(d: Diffs, ids: set<DiffId>, drained: set<DiffId>) {
    drained <= ids <= d.Keys && forall id :: id in ids ==> (id in drained <==> d[id] == map[])
  }

  lemma EmptiedStep(d: Diffs, d': Diffs, ids: set<DiffId>, drained: set<DiffId>, id: DiffId)
    requires Emptied(d, ids, drained) && id in d && id !in ids && d'.Keys == d.Keys
    requires forall i :: i in d && i != id ==> d'[i] == d[i]
    ensures Emptied(d', ids + {id}, if d'[id] == map[] then drained + {id} else drained)
  {
  }

  /** The border of these diffs is the given key. */
  ghost predicate Bordered(b: Borders, ids: set<DiffId>, key: Key) {
    forall id :: id in ids ==> (Below(b, id) <==> id.key <= key)
  }

  /** Part-way through the diffs of one source shard and partition. */
  ghost predicate Reaching(contains: Contains, dst: Shard, d: Diffs, d': Diffs, ids: set<DiffId>, key: Key,
                           done: set<DiffId>, drained: set<DiffId>)
  {
    && done <= ids && d'.Keys == d.Keys
    && DrainedIn(contains, dst, done, d, d')
    && (forall i :: i in done ==> i.key <= key)
    && Emptied(d', done, drained)
    && (forall i :: i in d && i !in done ==> d'[i] == d[i])
  }

  lemma ReachingStep(contains: Contains, dst: Shard, d: Diffs, d1: Diffs, d2: Diffs, ids: set<DiffId>, key: Key,
                     done: set<DiffId>, drained: set<DiffId>, id: DiffId)
    requires Reaching(contains, dst, d, d1, ids, key, done, drained) && id in ids - done && id.key <= key
    requires Thinning(contains, dst, d1, d2, id, {})
    ensures Reaching(contains, dst, d, d2, ids, key, done + {id}, if d2[id] == map[] then drained + {id} else drained)
  {
    DrainedTwice(contains, dst, done, {id}, d, d1, d2);
    EmptiedStep(d1, d2, done, drained, id);
  }

  /** Drains the diffs of one source shard and partition up to the border, in ascending order. */
  method DrainReached(contains: Contains, dst: Shard, ghost b: Borders, d: Diffs, r: map<Partition, Stats>,
                      ids: set<DiffId>, key: Key)
    returns (ok: bool, d': Diffs, r': map<Partition, Stats>, drained: set<DiffId>)
    requires AllPositive(d) && Tidy(r) && ids <= d.Keys && Bordered(b, ids, key)
    ensures !ok ==> !Enough(contains, dst, b, r, d)
    ensures ok ==> Drawn(contains, dst, b, r, d, r', d')
    ensures ok ==> Reaching(contains, dst, d, d', ids, key, Reached(ids, key), drained)
  {
    ok, d', r', drained := true, d, r, {};
    var done := {};
    while done != ids
      invariant Drawn(contains, dst, b, r, d, r', d')
      invariant Reaching(contains, dst, d, d', ids, key, done, drained)
      decreases ids - done
    {
      HasLowest(ids - done);
      var id :| id in ids - done && forall j :: j in ids - done ==> id.key <= j.key;
      if id.key > key {
        break;
      }
      ghost var d1, r1 := d', r';
      ok, d', r' := DrainDiff(contains, dst, b, d', r', id);
      if !ok {
        EnoughStays(contains, dst, b, r, d, r1, d1);
        return;
      }
      SlackTwice(contains, dst, b, r, d, r1, d1, r', d');
      ReachingStep(contains, dst, d, d1, d', ids, key, done, drained, id);
      if d'[id] == map[] {
        drained := drained + {id};
      }
      done := done + {id};
    }
    assert done == Reached(ids, key);
  }

  /** Some drained diffs are forgotten and nothing else has changed. */
  ghost predicate Forgotten(d: Diffs, d': Diffs, gone: set<DiffId>) {
    && d'.Keys == d.Keys - gone
    && (forall i, a :: CountAt(d', i, a) == CountAt(d, i, a))
    && (forall p, a :: Total(d', p, a) == Total(d, p, a))
    && (forall i :: i in d' ==> d'[i] == d[i])
  }

  /** Forgets the drained diffs. */
  method RemoveDrained(ghost contains: Contains, ghost dst: Shard, ghost b: Borders, d: Diffs,
                       ghost r: map<Partition, Stats>, drained: set<DiffId>)
    returns (d': Diffs)
    requires AllPositive(d) && Tidy(r) && Emptied(d, drained, drained)
    ensures Drawn(contains, dst, b, r, d, r, d') && Forgotten(d, d', drained)
  {
    d' := d;
    var todo := drained;
    while todo != {}
      invariant todo <= drained && Drawn(contains, dst, b, r, d, r, d') && Forgotten(d, d', drained - todo)
      decreases |todo|
    {
      var id :| id in todo;
      ghost var d1 := d';
      SlackWithoutEmpty(contains, dst, b, r, d', id);
      d' := d' - {id};
      SlackTwice(contains, dst, b, r, d, r, d1, r, d');
      Worklists.OneMore(drained, todo, id);
      todo := todo - {id};
    }
  }

  function Group(d: Diffs, shard: Shard, partition: Partition): set<DiffId> {
    set id | id in d && id.shard == shard && id.partition == partition
  }

  /** No kept diff of the set is without accounts. */
  ghost predicate NoneEmpty(d: Diffs, ids: set<DiffId>) {
    forall id :: id in ids && id in d ==> d[id] != map[]
  }

  /** One source shard and partition is drained up to its border and keeps nothing empty there. */
  ghost predicate GroupDrained(contains: Contains, dst: Shard, d: Diffs, d': Diffs, ids: set<DiffId>, key: Key) {
    && DrainedIn(contains, dst, Reached(ids, key), d, d')
    && NoneEmpty(d', Reached(ids, key))
    && forall i :: i in d.Keys - ids ==> i in d' && d'[i] == d[i]
  }

  lemma GroupIsDrained(contains: Contains, dst: Shard, d: Diffs, d1: Diffs, d2: Diffs, ids: set<DiffId>, key: Key,
                       drained: set<DiffId>)
    requires Reaching(contains, dst, d, d1, ids, key, Reached(ids, key), drained) && Forgotten(d1, d2, drained)
    ensures GroupDrained(contains, dst, d, d2, ids, key)
  {
  }

  /** One source shard and partition: drains up to the border and forgets what became empty. */
  method DrainGroup(contains: Contains, dst: Shard, ghost b: Borders, d: Diffs, r: map<Partition, Stats>,
                    ids: set<DiffId>, key: Key)
    returns (ok: bool, d': Diffs, r': map<Partition, Stats>)
    requires AllPositive(d) && Tidy(r) && ids <= d.Keys && Bordered(b, ids, key)
    ensures !ok ==> !Enough(contains, dst, b, r, d)
    ensures ok ==> Drawn(contains, dst, b, r, d, r', d') && GroupDrained(contains, dst, d, d', ids, key)
  {
    var x, y, drained;
    ok, x, y, drained := DrainReached(contains, dst, b, d, r, ids, key);
    d', r' := x, y;
    if ok {
      d' := RemoveDrained(contains, dst, b, x, y, drained);
      SlackTwice(contains, dst, b, r, d, y, x, y, d');
      GroupIsDrained(contains, dst, d, x, d', ids, key, drained);
    }
  }

  /** The diffs at or below the borders, among the given source shards and partitions. */
  function AtOrBelow(d: Diffs, b: Borders, groups: set<(Shard, Partition)>): set<DiffId> {
    set id | id in d && (id.shard, id.partition) in groups && Below(b, id)
  }

  function Groups(d: Diffs): set<(Shard, Partition)> {
    set id | id in d :: (id.shard, id.partition)
  }

  /** What draining has done so far: the groups in `done` are finished, the others untouched. */
  ghost predicate Draining(contains: Contains, dst: Shard, b: Borders, d: Diffs, d': Diffs, done: set<(Shard, Partition)>) {
    && DrainedIn(contains, dst, AtOrBelow(d, b, done), d, d')
    && NoneEmpty(d', AtOrBelow(d, b, done))
    && forall i :: i in d && (i.shard, i.partition) !in done ==> i in d' && d'[i] == d[i]
  }

  lemma DrainingStep(contains: Contains, dst: Shard, b: Borders, d: Diffs, d1: Diffs, d2: Diffs,
                     done: set<(Shard, Partition)>, g: (Shard, Partition))
    requires Draining(contains, dst, b, d, d1, done) && g !in done
    requires g.1 in b && g.0 in b[g.1]
    requires GroupDrained(contains, dst, d1, d2, Group(d1, g.0, g.1), b[g.1][g.0])
    ensures Draining(contains, dst, b, d, d2, done + {g})
  {
    var x, y := AtOrBelow(d, b, done), Reached(Group(d1, g.0, g.1), b[g.1][g.0]);
    DrainedTwice(contains, dst, x, y, d, d1, d2);
    assert x + y == AtOrBelow(d, b, done + {g});
  }

  lemma DrainingSkip(contains: Contains, dst: Shard, b: Borders, d: Diffs, d': Diffs,
                     done: set<(Shard, Partition)>, g: (Shard, Partition))
    requires Draining(contains, dst, b, d, d', done) && (g.1 in b ==> g.0 !in b[g.1])
    ensures Draining(contains, dst, b, d, d', done + {g})
  {
    assert AtOrBelow(d, b, done) == AtOrBelow(d, b, done + {g});
  }

  /** One source shard and partition under one destination's new borders. */
  method DrainOne(contains: Contains, dst: Shard, b: Borders, ghost d: Diffs,
                  d1: Diffs, r1: map<Partition, Stats>, ghost done: set<(Shard, Partition)>, g: (Shard, Partition))
    returns (ok: bool, d2: Diffs, r2: map<Partition, Stats>)
    requires Draining(contains, dst, b, d, d1, done) && g !in done
    requires AllPositive(d1) && Tidy(r1)
    ensures !ok ==> !Enough(contains, dst, b, r1, d1)
    ensures ok ==> Drawn(contains, dst, b, r1, d1, r2, d2) && Draining(contains, dst, b, d, d2, done + {g})
  {
    var (shard, partition) := g;
    ok, d2, r2 := true, d1, r1;
    if partition in b {
      if partition !in r2 {
        r2 := r2[partition := map[]];
      }
      if shard in b[partition] {
        ghost var r := r2;
        ok, d2, r2 := DrainGroup(contains, dst, b, d1, r2, Group(d1, shard, partition), b[partition][shard]);
        assert SameSlack(contains, dst, b, r1, d1, r, d1);
        if ok {
          SlackTwice(contains, dst, b, r1, d1, r, d1, r2, d2);
          DrainingStep(contains, dst, b, d, d1, d2, done, g);
        } else {
          EnoughStays(contains, dst, b, r1, d1, r, d1);
        }
      } else {
        DrainingSkip(contains, dst, b, d, d1, done, g);
      }
    } else {
      DrainingSkip(contains, dst, b, d, d1, done, g);
    }
  }

  /** Walks all source shards and partitions for one destination's new borders; stops where the total runs short. */
  method DrainAll(contains: Contains, dst: Shard, b: Borders, d: Diffs, r: map<Partition, Stats>)
    returns (ok: bool, d': Diffs, r': map<Partition, Stats>)
    requires AllPositive(d) && Tidy(r)
    ensures ok <==> Enough(contains, dst, b, r, d)
    ensures ok ==> AllPositive(d') && Tidy(r') && SameDrift(r, d, r', d')
    ensures ok ==> Draining(contains, dst, b, d, d', Groups(d))
  {
    ok, d', r' := true, d, r;
    var todo := Groups(d);
    Worklists.NoneDone(Groups(d));
    while todo != {}
      invariant todo <= Groups(d) && Drawn(contains, dst, b, r, d, r', d')
      invariant Draining(contains, dst, b, d, d', Groups(d) - todo)
      decreases |todo|
    {
      var g :| g in todo;
      ghost var d1, r1 := d', r';
      ok, d', r' := DrainOne(contains, dst, b, d, d', r', Groups(d) - todo, g);
      if !ok {
        EnoughStays(contains, dst, b, r, d, r1, d1);
        return;
      }
      SlackTwice(contains, dst, b, r, d, r1, d1, r', d');
      Worklists.OneMore(Groups(d), todo, g);
      todo := todo - {g};
    }
    Worklists.AllDone(Groups(d));
    DrainEnds(contains, dst, b, r, d, r', d');
  }

  /** The total differs from the sum over the diffs by the same amount before and after. */
  ghost predicate SameDrift(r: map<Partition, Stats>, d: Diffs, r': map<Partition, Stats>, d': Diffs) {
    forall p, a :: ResultAt(r', p, a) - Total(d', p, a) == ResultAt(r, p, a) - Total(d, p, a)
  }

  lemma OnlyStaying(contains: Contains, dst: Shard, b: Borders, d: Diffs, d': Diffs, p: Partition, a: Address)
    requires Draining(contains, dst, b, d, d', Groups(d))
    ensures Leaving(contains, dst, b, d', p, a) == 0
    ensures Total(d', p, a) == Staying(contains, dst, b, d, p, a)
  {
    forall i
      ensures CountAt(d', i, a) == if Leaves(contains, dst, b, i, a) then 0 else CountAt(d, i, a)
    {
      assert i in d ==> (i in AtOrBelow(d, b, Groups(d)) <==> Below(b, i));
      assert CountAt(d', i, a)
        == if i in AtOrBelow(d, b, Groups(d)) && contains(dst, a) then 0 else CountAt(d, i, a);
    }
    SumZero(LeavingCounts(contains, dst, b, d', p, a), d'.Keys);
    SumOverMore(d', p, a, d.Keys);
    SumSame(Counts(d', p, a), StayingCounts(contains, dst, b, d, p, a), d.Keys);
  }

  lemma DrainEnds(contains: Contains, dst: Shard, b: Borders, r: map<Partition, Stats>, d: Diffs,
                  r': map<Partition, Stats>, d': Diffs)
    requires Draining(contains, dst, b, d, d', Groups(d)) && SameSlack(contains, dst, b, r, d, r', d')
    ensures Enough(contains, dst, b, r, d) && SameDrift(r, d, r', d')
  {
    forall p, a
      ensures Leaving(contains, dst, b, d, p, a) <= ResultAt(r, p, a)
      ensures ResultAt(r', p, a) - Total(d', p, a) == ResultAt(r, p, a) - Total(d, p, a)
    {
      OnlyStaying(contains, dst, b, d, d', p, a);
      LeavesOrStays(contains, dst, b, d, p, a);
      assert ResultAt(r', p, a) - Leaving(contains, dst, b, d', p, a)
        == ResultAt(r, p, a) - Leaving(contains, dst, b, d, p, a);
    }
  }

  lemma SummedStays(r: map<Partition, Stats>, d: Diffs, r': map<Partition, Stats>, d': Diffs)
    requires SameDrift(r, d, r', d') && Tidy(r) && Tidy(r')
    ensures Summed(r, d) <==> Summed(r', d')
  {
    forall p, a
      ensures ResultAt(r', p, a) == Total(d', p, a) <==> ResultAt(r, p, a) == Total(d, p, a)
    {
      assert ResultAt(r', p, a) - Total(d', p, a) == ResultAt(r, p, a) - Total(d, p, a);
    }
  }

  /** Borders that never move back. */
  ghost predicate NotLower(before: Borders, b: Borders) {
    forall p, s :: p in before && s in before[p] ==> p in b && s in b[p] && before[p][s] <= b[p][s]
  }

  /** No message that was processed counts as unprocessed again. */
  ghost predicate NothingReturns(contains: Contains, to: map<Shard, Borders>, to': map<Shard, Borders>, added: Diffs) {
    forall id, a :: CountAt(added, id, a) > 0 && Covered(contains, to, id, a) ==> Covered(contains, to', id, a)
  }

  /** In particular when the borders do not fall. */
  lemma RisingReturnsNothing(contains: Contains, to: map<Shard, Borders>, dst: Shard, b: Borders, added: Diffs)
    requires dst in to ==> NotLower(to[dst], b)
    ensures NothingReturns(contains, to, to[dst := b], added)
  {
    var to' := to[dst := b];
    forall id, a | Covered(contains, to, id, a)
      ensures Covered(contains, to', id, a)
    {
      var x :| x in to && contains(x, a) && Below(to[x], id);
      assert x in to' && contains(x, a) && Below(to'[x], id);
    }
  }

  lemma CoveredAfterUpdate(contains: Contains, to: map<Shard, Borders>, dst: Shard, b: Borders, id: DiffId, a: Address)
    ensures Covered(contains, to[dst := b], id, a) ==> Covered(contains, to, id, a) || (contains(dst, a) && Below(b, id))
    ensures contains(dst, a) && Below(b, id) ==> Covered(contains, to[dst := b], id, a)
  {
    var to' := to[dst := b];
    if contains(dst, a) && Below(b, id) {
      assert dst in to' && contains(dst, a) && Below(to'[dst], id);
    }
  }

  lemma CountAfterUpdate(contains: Contains, to: map<Shard, Borders>, added: Diffs, dst: Shard, b: Borders,
                         d: Diffs, d': Diffs, id: DiffId, a: Address)
    requires Weeded(contains, to, added, d) && Draining(contains, dst, b, d, d', Groups(d))
    ensures CountAt(d', id, a) == Live(contains, to[dst := b], added, id, a) <==>
      (CountAt(added, id, a) > 0 && Covered(contains, to, id, a) ==> Covered(contains, to[dst := b], id, a))
  {
    CoveredAfterUpdate(contains, to, dst, b, id, a);
    assert CountAt(d, id, a) == Live(contains, to, added, id, a);
    assert id in d ==> (id in AtOrBelow(d, b, Groups(d)) <==> Below(b, id));
  }

  /** New borders keep the diffs weeded exactly when nothing processed returns. */
  lemma WeededAfterUpdate(contains: Contains, to: map<Shard, Borders>, added: Diffs, dst: Shard, b: Borders,
                          d: Diffs, d': Diffs)
    requires Weeded(contains, to, added, d) && AllPositive(d') && Draining(contains, dst, b, d, d', Groups(d))
    ensures Weeded(contains, to[dst := b], added, d') <==> NothingReturns(contains, to, to[dst := b], added)
  {
    forall id, a
      ensures CountAt(d', id, a) == Live(contains, to[dst := b], added, id, a) <==>
        (CountAt(added, id, a) > 0 && Covered(contains, to, id, a) ==> Covered(contains, to[dst := b], id, a))
    {
      CountAfterUpdate(contains, to, added, dst, b, d, d', id, a);
    }
  }

  // --- weeding on load ---

  function Retain(contains: Contains, dst: Shard, s: Stats): Stats {
    map a | a in s && !contains(dst, a) :: s[a]
  }

  ghost predicate CoveredBy(contains: Contains, to: map<Shard, Borders>, shards: set<Shard>, id: DiffId, a: Address) {
    exists dst :: dst in shards && dst in to && contains(dst, a) && Below(to[dst], id)
  }

  lemma CoveredByOneMore(contains: Contains, to: map<Shard, Borders>, shards: set<Shard>, dst: Shard, id: DiffId)
    requires dst in to
    ensures forall a :: CoveredBy(contains, to, shards + {dst}, id, a) <==>
      CoveredBy(contains, to, shards, id, a) || (contains(dst, a) && Below(to[dst], id))
  {
    forall a | contains(dst, a) && Below(to[dst], id)
      ensures CoveredBy(contains, to, shards + {dst}, id, a)
    {
      assert dst in shards + {dst};
    }
  }

  /** Drops the accounts of every destination that has already processed the diff. */
  method Weed(contains: Contains, to: map<Shard, Borders>, id: DiffId, s: Stats) returns (r: Stats)
    requires Positive(s)
    ensures Positive(r)
    ensures forall a :: Count(r, a) == if Covered(contains, to, id, a) then 0 else Count(s, a)
  {
    r := s;
    var todo := to.Keys;
    while todo != {}
      invariant todo <= to.Keys && Positive(r)
      invariant forall a :: Count(r, a) == if CoveredBy(contains, to, to.Keys - todo, id, a) then 0 else Count(s, a)
      decreases |todo|
    {
      var dst :| dst in todo;
      if Below(to[dst], id) {
        r := Retain(contains, dst, r);
      }
      CoveredByOneMore(contains, to, to.Keys - todo, dst, id);
      Worklists.OneMore(to.Keys, todo, dst);
      todo := todo - {dst};
    }
  }

  lemma WeededAfterInsert(contains: Contains, to: map<Shard, Borders>, added: Diffs, d: Diffs, id: DiffId, s: Stats, w: Stats)
    requires Weeded(contains, to, added, d) && Positive(w)
    requires forall a :: Count(w, a) == if Covered(contains, to, id, a) then 0 else Count(s, a)
    ensures Weeded(contains, to, added[id := s], d[id := w])
  {
    var d', added' := d[id := w], added[id := s];
    forall i, a
      ensures CountAt(d', i, a) == Live(contains, to, added', i, a)
    {
      assert CountAt(d, i, a) == Live(contains, to, added, i, a);
    }
  }

  // --- from scratch ---

  ghost function IdsIn(d: Diffs, groups: set<(Shard, Partition)>): set<DiffId> {
    set id | id in d && (id.shard, id.partition) in groups
  }

  ghost predicate SumOf(s: Stats, d: Diffs, partition: Partition, ids: set<DiffId>) {
    Positive(s) && forall a :: Count(s, a) == Sum(Counts(d, partition, a), ids)
  }

  lemma SumOfOneMore(s: Stats, s': Stats, d: Diffs, partition: Partition, ids: set<DiffId>, id: DiffId)
    requires SumOf(s, d, partition, ids) && Positive(s') && id !in ids && id in d && id.partition == partition
    requires forall a :: Count(s', a) == Count(s, a) + Count(d[id], a)
    ensures SumOf(s', d, partition, ids + {id})
  {
    forall a
      ensures Count(s', a) == Sum(Counts(d, partition, a), ids + {id})
    {
      SumRemove(Counts(d, partition, a), ids + {id}, id);
      assert ids + {id} - {id} == ids;
    }
  }

  /** Adds up the diffs of one source shard and partition. */
  method SumGroup(d: Diffs, ids: set<DiffId>, partition: Partition) returns (s: Stats)
    requires AllPositive(d) && ids <= d.Keys && forall id :: id in ids ==> id.partition == partition
    ensures SumOf(s, d, partition, ids)
  {
    s := map[];
    var todo := ids;
    Worklists.NoneDone(ids);
    while todo != {}
      invariant todo <= ids && SumOf(s, d, partition, ids - todo)
      decreases |todo|
    {
      var id :| id in todo;
      ghost var before := s;
      assert Positive(d[id]);
      s := Append(s, d[id]);
      SumOfOneMore(before, s, d, partition, ids - todo, id);
      Worklists.OneMore(ids, todo, id);
      todo := todo - {id};
    }
    Worklists.AllDone(ids);
  }

  lemma SumOneGroup(d: Diffs, done: set<(Shard, Partition)>, g: (Shard, Partition), p: Partition, a: Address)
    requires g !in done
    ensures Sum(Counts(d, p, a), IdsIn(d, done + {g})) ==
      Sum(Counts(d, p, a), IdsIn(d, done)) + if p == g.1 then Sum(Counts(d, p, a), Group(d, g.0, g.1)) else 0
  {
    var f, x, y := Counts(d, p, a), IdsIn(d, done), Group(d, g.0, g.1);
    assert IdsIn(d, done + {g}) == x + y;
    SumUnion(f, x, y);
    if p != g.1 {
      SumZero(f, y);
    }
  }

  ghost predicate SummedIn(r: map<Partition, Stats>, d: Diffs, groups: set<(Shard, Partition)>) {
    Tidy(r) && forall p, a :: ResultAt(r, p, a) == Sum(Counts(d, p, a), IdsIn(d, groups))
  }

  lemma SummedInOneMore(r: map<Partition, Stats>, r': map<Partition, Stats>, d: Diffs,
                        groups: set<(Shard, Partition)>, g: (Shard, Partition), part: Stats)
    requires SummedIn(r, d, groups) && g !in groups && Tidy(r')
    requires SumOf(part, d, g.1, Group(d, g.0, g.1))
    requires forall p, a :: ResultAt(r', p, a) == ResultAt(r, p, a) + if p == g.1 then Count(part, a) else 0
    ensures SummedIn(r', d, groups + {g})
  {
    forall p, a
      ensures ResultAt(r', p, a) == Sum(Counts(d, p, a), IdsIn(d, groups + {g}))
    {
      SumOneGroup(d, groups, g, p, a);
    }
  }

  lemma SummedInAll(r: map<Partition, Stats>, d: Diffs, groups: set<(Shard, Partition)>)
    requires SummedIn(r, d, groups) && groups == Groups(d)
    ensures Summed(r, d)
  {
    assert IdsIn(d, groups) == d.Keys;
  }

  lemma NoGroups(d: Diffs, groups: set<(Shard, Partition)>)
    requires groups == {}
    ensures SummedIn(map[], d, groups)
  {
    assert IdsIn(d, groups) == {};
  }

  /** The total built from nothing. */
  method Recalculated(d: Diffs) returns (r: map<Partition, Stats>)
    requires AllPositive(d)
    ensures Summed(r, d)
  {
    r := map[];
    var todo := Groups(d);
    NoGroups(d, Groups(d) - todo);
    while todo != {}
      invariant todo <= Groups(d) && SummedIn(r, d, Groups(d) - todo)
      decreases |todo|
    {
      var g :| g in todo;
      var part := SumGroup(d, Group(d, g.0, g.1), g.1);
      ghost var before := r;
      r := AppendTo(r, g.1, part);
      SummedInOneMore(before, r, d, Groups(d) - todo, g, part);
      Worklists.OneMore(Groups(d), todo, g);
      todo := todo - {g};
    }
    SummedInAll(r, d, Groups(d) - todo);
  }

  /** Of all diffs ever added, exactly the new diff's parts in the given partitions have changed. */
  ghost predicate Received(before: Diffs, after: Diffs, shard: Shard, key: Key, stats: map<Partition, Stats>,
                           partitions: set<Partition>)
  {
    forall id, a :: CountAt(after, id, a) == ReceivedCount(before, shard, key, stats, partitions, id, a)
  }

  ghost function ReceivedCount(before: Diffs, shard: Shard, key: Key, stats: map<Partition, Stats>,
                               partitions: set<Partition>, id: DiffId, a: Address): nat
  {
    if id.shard == shard && id.key == key && id.partition in partitions && id.partition in stats
    then Count(stats[id.partition], a) else CountAt(before, id, a)
  }

  lemma ReceivedOneMore(before: Diffs, after: Diffs, shard: Shard, key: Key, stats: map<Partition, Stats>,
                        partitions: set<Partition>, p: Partition)
    requires Received(before, after, shard, key, stats, partitions) && p in stats
    ensures Received(before, after[DiffId(shard, p, key) := stats[p]], shard, key, stats, partitions + {p})
  {
    var next := after[DiffId(shard, p, key) := stats[p]];
    forall id, a
      ensures CountAt(next, id, a) == ReceivedCount(before, shard, key, stats, partitions + {p}, id, a)
    {
      assert CountAt(after, id, a) == ReceivedCount(before, shard, key, stats, partitions, id, a);
    }
  }

  predicate IsPart(id: DiffId, shard: Shard, key: Key, stats: map<Partition, Stats>) {
    id.shard == shard && id.key == key && id.partition in stats
  }

  /** A new diff's parts put in place of whatever had their keys. */
  ghost function Inserted(d: Diffs, shard: Shard, key: Key, stats: map<Partition, Stats>): Diffs {
    map id | id in d.Keys + (set p | p in stats :: DiffId(shard, p, key)) ::
      if IsPart(id, shard, key, stats) then stats[id.partition] else d[id]
  }

  lemma InsertedReceived(d: Diffs, shard: Shard, key: Key, stats: map<Partition, Stats>)
    ensures Received(d, Inserted(d, shard, key, stats), shard, key, stats, stats.Keys)
  {
    var d' := Inserted(d, shard, key, stats);
    forall id, a
      ensures CountAt(d', id, a) == ReceivedCount(d, shard, key, stats, stats.Keys, id, a)
    {
      assert IsPart(id, shard, key, stats) ==> id == DiffId(shard, id.partition, key);
    }
  }

  /** The diffs with a new diff's parts put in, whether or not something was held under its key. */
  ghost predicate Put(d: Diffs, d': Diffs, shard: Shard, key: Key, stats: map<Partition, Stats>, partitions: set<Partition>) {
    && d.Keys <= d'.Keys && AllPositive(d')
    && (forall p :: p in partitions ==> DiffId(shard, p, key) in d')
    && (forall id :: id in d' ==> id in d || (IsPart(id, shard, key, stats) && id.partition in partitions))
    && Received(d, d', shard, key, stats, partitions)
  }

  lemma PutOneMore(d: Diffs, d': Diffs, shard: Shard, key: Key, stats: map<Partition, Stats>, partitions: set<Partition>,
                   p: Partition)
    requires Put(d, d', shard, key, stats, partitions) && p in stats && Positive(stats[p])
    ensures Put(d, d'[DiffId(shard, p, key) := stats[p]], shard, key, stats, partitions + {p})
  {
    ReceivedOneMore(d, d', shard, key, stats, partitions, p);
  }

  ghost predicate Grown(r: map<Partition, Stats>, r': map<Partition, Stats>, stats: map<Partition, Stats>, partitions: set<Partition>)
  {
    Tidy(r') && forall p, a :: ResultAt(r', p, a) == ResultAt(r, p, a) + CountIn(stats, partitions, p, a)
  }

  function CountIn(stats: map<Partition, Stats>, partitions: set<Partition>, p: Partition, a: Address): nat {
    if p in partitions && p in stats then Count(stats[p], a) else 0
  }

  /** What was held under the new diff's key. */
  function HeldBefore(d: Diffs, shard: Shard, key: Key, stats: map<Partition, Stats>, p: Partition, a: Address): nat {
    if p in stats then CountAt(d, DiffId(shard, p, key), a) else 0
  }

  /** A partition's sum takes the new counts in and lets go of what was held under the key. */
  lemma TotalAfterPut(d: Diffs, d': Diffs, shard: Shard, key: Key, stats: map<Partition, Stats>, p: Partition, a: Address)
    requires Put(d, d', shard, key, stats, stats.Keys)
    ensures Total(d', p, a) + HeldBefore(d, shard, key, stats, p, a) == Total(d, p, a) + CountIn(stats, stats.Keys, p, a)
  {
    var f, g := Counts(d, p, a), Counts(d', p, a);
    SumOverMore(d, p, a, d'.Keys);
    var id := DiffId(shard, p, key);
    if p in stats {
      SumRemove(f, d'.Keys, id);
      SumRemove(g, d'.Keys, id);
      SumSame(f, g, d'.Keys - {id});
    } else {
      SumSame(f, g, d'.Keys);
    }
  }

  /** The total moves away from the sum by exactly what was held before. */
  ghost predicate Drifted(r: map<Partition, Stats>, d: Diffs, r': map<Partition, Stats>, d': Diffs,
                          shard: Shard, key: Key, stats: map<Partition, Stats>)
  {
    forall p, a :: ResultAt(r', p, a) - Total(d', p, a)
      == ResultAt(r, p, a) - Total(d, p, a) + HeldBefore(d, shard, key, stats, p, a)
  }

  lemma PutDrifts(r: map<Partition, Stats>, d: Diffs, r': map<Partition, Stats>, d': Diffs,
                  shard: Shard, key: Key, stats: map<Partition, Stats>)
    requires Put(d, d', shard, key, stats, stats.Keys) && Grown(r, r', stats, stats.Keys)
    ensures Drifted(r, d, r', d', shard, key, stats)
  {
    forall p, a
      ensures ResultAt(r', p, a) - Total(d', p, a)
        == ResultAt(r, p, a) - Total(d, p, a) + HeldBefore(d, shard, key, stats, p, a)
    {
      TotalAfterPut(d, d', shard, key, stats, p, a);
    }
  }

  /** Nothing but empty parts is held under the new diff's key. */
  ghost predicate NotHeld(d: Diffs, shard: Shard, key: Key, stats: map<Partition, Stats>) {
    forall p :: p in stats && DiffId(shard, p, key) in d ==> d[DiffId(shard, p, key)] == map[]
  }

  lemma NotHeldCounts(d: Diffs, shard: Shard, key: Key, stats: map<Partition, Stats>)
    requires AllPositive(d)
    ensures NotHeld(d, shard, key, stats) <==> forall p, a :: HeldBefore(d, shard, key, stats, p, a) == 0
  {
    if !NotHeld(d, shard, key, stats) {
      var p :| p in stats && DiffId(shard, p, key) in d && d[DiffId(shard, p, key)] != map[];
      var s := d[DiffId(shard, p, key)];
      assert Positive(s) && s.Keys != {};
      var a :| a in s;
      assert HeldBefore(d, shard, key, stats, p, a) > 0;
    }
  }

  lemma SummedAfterPut(r: map<Partition, Stats>, d: Diffs, r': map<Partition, Stats>, d': Diffs,
                       shard: Shard, key: Key, stats: map<Partition, Stats>)
    requires Summed(r, d) && AllPositive(d) && Tidy(r') && Drifted(r, d, r', d', shard, key, stats)
    ensures Summed(r', d') <==> NotHeld(d, shard, key, stats)
  {
    NotHeldCounts(d, shard, key, stats);
    forall p, a
      ensures ResultAt(r', p, a) == Total(d', p, a) <==> HeldBefore(d, shard, key, stats, p, a) == 0
    {
      assert ResultAt(r, p, a) == Total(d, p, a);
    }
  }

  /** No account of the new diff belongs to a destination that has already processed it. */
  ghost predicate Unprocessed(contains: Contains, to: map<Shard, Borders>, shard: Shard, key: Key, stats: map<Partition, Stats>) {
    forall p, a :: p in stats && a in stats[p] ==> !Covered(contains, to, DiffId(shard, p, key), a)
  }

  lemma WeededAfterPut(contains: Contains, to: map<Shard, Borders>, added: Diffs, d: Diffs, added': Diffs, d': Diffs,
                       shard: Shard, key: Key, stats: map<Partition, Stats>)
    requires Weeded(contains, to, added, d) && (forall p :: p in stats ==> Positive(stats[p]))
    requires Put(d, d', shard, key, stats, stats.Keys) && Received(added, added', shard, key, stats, stats.Keys)
    requires d'.Keys <= added'.Keys
    ensures Weeded(contains, to, added', d') <==> Unprocessed(contains, to, shard, key, stats)
  {
    forall id, a
      ensures CountAt(d', id, a) == Live(contains, to, added', id, a) <==>
        !(IsPart(id, shard, key, stats) && a in stats[id.partition] && Covered(contains, to, id, a))
    {
      assert CountAt(d, id, a) == Live(contains, to, added, id, a);
      assert IsPart(id, shard, key, stats) ==> Positive(stats[id.partition]);
    }
    forall p | p in stats
      ensures IsPart(DiffId(shard, p, key), shard, key, stats)
    {
    }
  }

  /** The kept diffs are the unprocessed part of everything added, and the total is their sum unless it is dirty. */
  ghost predicate Consistent(contains: Contains, to: map<Shard, Borders>, added: Diffs, d: Diffs, r: map<Partition, Stats>,
                             dirty: bool)
  {
    Weeded(contains, to, added, d) && Tidy(r) && (!dirty ==> Summed(r, d))
  }

  lemma ConsistentAfterPut(contains: Contains, to: map<Shard, Borders>, added: Diffs, d: Diffs, r: map<Partition, Stats>,
                           added': Diffs, d': Diffs, r': map<Partition, Stats>, dirty: bool,
                           shard: Shard, key: Key, stats: map<Partition, Stats>)
    requires Consistent(contains, to, added, d, r, dirty) && (forall p :: p in stats ==> Positive(stats[p]))
    requires Put(d, d', shard, key, stats, stats.Keys) && Received(added, added', shard, key, stats, stats.Keys)
    requires d'.Keys <= added'.Keys && Grown(r, r', stats, stats.Keys)
    ensures Consistent(contains, to, added', d', r', dirty) <==>
      (dirty || NotHeld(d, shard, key, stats)) && Unprocessed(contains, to, shard, key, stats)
  {
    WeededAfterPut(contains, to, added, d, added', d', shard, key, stats);
    if !dirty {
      PutDrifts(r, d, r', d', shard, key, stats);
      SummedAfterPut(r, d, r', d', shard, key, stats);
    }
  }

  class CumulativeStatistics {
    const contains: Contains
    var processedTo: map<Shard, Borders>
    var diffs: Diffs
    var result: map<Partition, Stats>
    var dirty: bool
    ghost var added: Diffs

    ghost predicate Valid()
      reads this
    {
      Consistent(contains, processedTo, added, diffs, result, dirty)
    }

    constructor (contains: Contains, processedTo: map<Shard, Borders>)
      ensures Valid() && !dirty && added == map[]
      ensures this.contains == contains && this.processedTo == processedTo
    {
      this.contains, this.processedTo := contains, processedTo;
      diffs, result, dirty := map[], map[], false;
      added := map[];
    }

    /** Loads one diff, weeded by the known borders. */
    method Apply(id: DiffId, s: Stats)
      requires Valid() && Positive(s)
      modifies this
      ensures Valid() && dirty
      ensures added == old(added)[id := s] && processedTo == old(processedTo)
    {
      var w := Weed(contains, processedTo, id, s);
      WeededAfterInsert(contains, processedTo, added, diffs, id, s, w);
      diffs := diffs[id := w];
      added := added[id := s];
      dirty := true;
    }

    /**
     * A new diff, partition by partition. The total drifts from the sum by what was held under its key;
     * the object stays valid exactly when nothing was held (while the total is kept) and nothing of it is processed.
     */
    method AddDiffStats(shard: Shard, key: Key, stats: map<Partition, Stats>)
      requires Valid() && forall p :: p in stats ==> Positive(stats[p])
      modifies this
      ensures dirty == old(dirty) && processedTo == old(processedTo)
      ensures added == Inserted(old(added), shard, key, stats)
      ensures Put(old(diffs), diffs, shard, key, stats, stats.Keys) && Grown(old(result), result, stats, stats.Keys)
      ensures Drifted(old(result), old(diffs), result, diffs, shard, key, stats)
      ensures Valid() <==> (dirty || NotHeld(old(diffs), shard, key, stats))
                           && Unprocessed(contains, processedTo, shard, key, stats)
    {
      ghost var d, r, before := diffs, result, added;
      diffs, result := AddParts(shard, key, stats, diffs, result);
      added := Inserted(added, shard, key, stats);
      InsertedReceived(before, shard, key, stats);
      PutDrifts(r, d, result, diffs, shard, key, stats);
      ConsistentAfterPut(contains, processedTo, before, d, r, added, diffs, result, dirty, shard, key, stats);
    }

    /**
     * A destination moved its borders. The call stops where the total runs short, which a total that is the sum never does.
     * Otherwise the total keeps its distance from the sum of the diffs kept,
     * and the object stays valid exactly when nothing processed returns.
     */
    method HandleProcessedToUpdate(dst: Shard, b: Borders) returns (ok: bool)
      requires Valid()
      modifies this
      ensures ok <==> Enough(contains, dst, b, old(result), old(diffs))
      ensures !old(dirty) ==> ok
      ensures dirty == old(dirty) && added == old(added)
      ensures ok ==> processedTo == old(processedTo)[dst := b]
      ensures ok ==> Draining(contains, dst, b, old(diffs), diffs, Groups(old(diffs)))
      ensures ok ==> SameDrift(old(result), old(diffs), result, diffs)
      ensures ok ==> (Valid() <==> NothingReturns(contains, old(processedTo), processedTo, added))
    {
      ghost var d, r := diffs, result;
      if !dirty {
        TotalCovers(contains, dst, b, result, diffs);
      }
      ok, diffs, result := DrainAll(contains, dst, b, diffs, result);
      if ok {
        WeededAfterUpdate(contains, processedTo, added, dst, b, d, diffs);
        SummedStays(r, d, result, diffs);
        processedTo := processedTo[dst := b];
      }
    }

    method EnsureFinalized()
      requires Valid()
      modifies this
      ensures Valid() && !dirty
      ensures added == old(added) && processedTo == old(processedTo) && diffs == old(diffs)
      ensures !old(dirty) ==> result == old(result)
    {
      if dirty {
        result := Recalculated(diffs);
        dirty := false;
      }
    }

    /** The finalized total, stated by definition over everything ever added. */
    method Result() returns (r: map<Partition, Stats>)
      requires Valid()
      modifies this
      ensures Valid() && !dirty && added == old(added) && processedTo == old(processedTo) && r == result
      ensures forall p, a :: ResultAt(r, p, a) == Expected(contains, processedTo, added, p, a)
      ensures forall p :: p in r ==> Positive(r[p])
    {
      EnsureFinalized();
      r := result;
      forall p, a {
        TotalIsExpected(contains, processedTo, added, diffs, p, a);
      }
    }
  }

  /** The loop over the partitions of a diff. */
  method AddParts(shard: Shard, key: Key, stats: map<Partition, Stats>, d: Diffs, r: map<Partition, Stats>)
    returns (d': Diffs, r': map<Partition, Stats>)
    requires AllPositive(d) && Tidy(r) && forall p :: p in stats ==> Positive(stats[p])
    ensures Put(d, d', shard, key, stats, stats.Keys) && Grown(r, r', stats, stats.Keys)
  {
    d', r' := d, r;
    var todo := stats.Keys;
    Worklists.NoneDone(stats.Keys);
    while todo != {}
      invariant todo <= stats.Keys && PartsAdded(shard, key, stats, stats.Keys - todo, d, r, d', r')
      decreases |todo|
    {
      var p :| p in todo;
      Worklists.OneMore(stats.Keys, todo, p);
      d', r' := AddPart(shard, key, stats, stats.Keys - todo, d, r, d', r', p);
      todo := todo - {p};
    }
    Worklists.AllDone(stats.Keys);
  }

  ghost predicate PartsAdded(shard: Shard, key: Key, stats: map<Partition, Stats>, done: set<Partition>,
                             d: Diffs, r: map<Partition, Stats>, d': Diffs, r': map<Partition, Stats>)
  {
    Put(d, d', shard, key, stats, done) && Grown(r, r', stats, done)
  }

  lemma GrownOneMore(r: map<Partition, Stats>, r1: map<Partition, Stats>, r2: map<Partition, Stats>,
                     stats: map<Partition, Stats>, done: set<Partition>, p: Partition)
    requires Grown(r, r1, stats, done) && p in stats && p !in done && Tidy(r2)
    requires forall x, a :: ResultAt(r2, x, a) == ResultAt(r1, x, a) + if x == p then Count(stats[p], a) else 0
    ensures Grown(r, r2, stats, done + {p})
  {
  }

  /** A new diff's part in one partition joins the total and the diffs. */
  method AddPart(shard: Shard, key: Key, stats: map<Partition, Stats>, ghost done: set<Partition>,
                 ghost d: Diffs, ghost r: map<Partition, Stats>, d1: Diffs, r1: map<Partition, Stats>, p: Partition)
    returns (d2: Diffs, r2: map<Partition, Stats>)
    requires PartsAdded(shard, key, stats, done, d, r, d1, r1)
    requires p in stats && p !in done && Positive(stats[p])
    ensures PartsAdded(shard, key, stats, done + {p}, d, r, d2, r2)
  {
    PutOneMore(d, d1, shard, key, stats, done, p);
    r2 := AppendTo(r1, p, stats[p]);
    GrownOneMore(r, r1, r2, stats, done, p);
    d2 := d1[DiffId(shard, p, key) := stats[p]];
  }

  ghost function AddedOf(loaded: seq<(DiffId, Stats)>): Diffs {
    if loaded == [] then map[] else
      var (id, s) := loaded[|loaded| - 1];
      AddedOf(loaded[..|loaded| - 1])[id := s]
  }

  /** Loads raw diffs into an object that knows the given borders. */
  method Load(contains: Contains, to: map<Shard, Borders>, loaded: seq<(DiffId, Stats)>)
    returns (c: CumulativeStatistics)
    requires forall i :: 0 <= i < |loaded| ==> Positive(loaded[i].1)
    ensures fresh(c) && c.Valid() && c.contains == contains && c.processedTo == to && c.added == AddedOf(loaded)
  {
    c := new CumulativeStatistics(contains, to);
    for i := 0 to |loaded|
      invariant fresh(c) && c.Valid() && c.contains == contains && c.processedTo == to
      invariant c.added == AddedOf(loaded[..i])
    {
      assert loaded[..i + 1][..i] == loaded[..i];
      c.Apply(loaded[i].0, loaded[i].1);
    }
    assert loaded[..|loaded|] == loaded;
  }

  /** Weeding while loading, and loading raw and updating every shard in any order, give the same totals. */
  method LoadBothWays(contains: Contains, to: map<Shard, Borders>, loaded: seq<(DiffId, Stats)>, order: seq<Shard>)
    returns (weeded: map<Partition, Stats>, updated: map<Partition, Stats>)
    requires forall i :: 0 <= i < |loaded| ==> Positive(loaded[i].1)
    requires forall dst :: dst in order <==> dst in to
    ensures forall p, a :: ResultAt(weeded, p, a) == ResultAt(updated, p, a)
    ensures forall p, a :: ResultAt(weeded, p, a) == Expected(contains, to, AddedOf(loaded), p, a)
  {
    var x := Load(contains, to, loaded);
    weeded := x.Result();
    var y := Load(contains, map[], loaded);
    y.EnsureFinalized();
    for i := 0 to |order|
      invariant fresh(y) && y.Valid() && !y.dirty && y.contains == contains && y.added == AddedOf(loaded)
      invariant forall dst :: dst in y.processedTo <==> dst in order[..i]
      invariant forall dst :: dst in y.processedTo ==> dst in to && y.processedTo[dst] == to[dst]
    {
      RisingReturnsNothing(contains, y.processedTo, order[i], to[order[i]], y.added);
      var ok := y.HandleProcessedToUpdate(order[i], to[order[i]]);
    }
    assert order[..|order|] == order;
    assert y.processedTo == to;
    updated := y.Result();
  }

  // --- runs of requests ---

  datatype Request =
    | LoadDiff(id: DiffId, stats: Stats)
    | NewDiff(shard: Shard, key: Key, parts: map<Partition, Stats>)
    | NewBorders(dst: Shard, borders: Borders)
    | Finalize

  /** What the requests so far amount to: the borders, everything added, and whether a total is outstanding. */
  datatype Story = Story(to: map<Shard, Borders>, added: Diffs, dirty: bool)

  ghost function After(s: Story, q: Request): Story {
    match q
    case LoadDiff(id, stats) => s.(added := s.added[id := stats], dirty := true)
    case NewDiff(shard, key, parts) => s.(added := Inserted(s.added, shard, key, parts))
    case NewBorders(dst, borders) => s.(to := s.to[dst := borders])
    case Finalize => s.(dirty := false)
  }

  ghost function AfterAll(s: Story, requests: seq<Request>): Story {
    if requests == [] then s else After(AfterAll(s, requests[..|requests| - 1]), requests[|requests| - 1])
  }

  /**
   * A request the totals survive: a new diff finds nothing unprocessed under its key while a total is kept,
   * and brings nothing processed; new borders meet a finalized total and bring nothing processed back.
   */
  ghost predicate Regular(contains: Contains, s: Story, q: Request) {
    match q
    case LoadDiff(id, stats) => Positive(stats)
    case NewDiff(shard, key, parts) =>
      && (forall p :: p in parts ==> Positive(parts[p]))
      && (s.dirty || NothingUnder(contains, s.to, s.added, shard, key, parts))
      && Unprocessed(contains, s.to, shard, key, parts)
    case NewBorders(dst, borders) => !s.dirty && NothingReturns(contains, s.to, s.to[dst := borders], s.added)
    case Finalize => true
  }

  ghost predicate AllRegular(contains: Contains, s: Story, requests: seq<Request>) {
    forall i :: 0 <= i < |requests| ==> Regular(contains, AfterAll(s, requests[..i]), requests[i])
  }

  /** Nothing unprocessed was ever added under the new diff's key. */
  ghost predicate NothingUnder(contains: Contains, to: map<Shard, Borders>, added: Diffs, shard: Shard, key: Key,
                               parts: map<Partition, Stats>)
  {
    forall p, a :: p in parts ==> Live(contains, to, added, DiffId(shard, p, key), a) == 0
  }

  /** In particular when the key is fresh. */
  lemma FreshIsRegular(contains: Contains, s: Story, shard: Shard, key: Key, parts: map<Partition, Stats>)
    requires forall p :: p in parts ==> Positive(parts[p]) && DiffId(shard, p, key) !in s.added
    requires Unprocessed(contains, s.to, shard, key, parts)
    ensures Regular(contains, s, NewDiff(shard, key, parts))
  {
  }

  lemma NothingUnderIsNotHeld(contains: Contains, to: map<Shard, Borders>, added: Diffs, d: Diffs, shard: Shard, key: Key,
                              parts: map<Partition, Stats>)
    requires Weeded(contains, to, added, d) && NothingUnder(contains, to, added, shard, key, parts)
    ensures NotHeld(d, shard, key, parts)
  {
    NotHeldCounts(d, shard, key, parts);
    forall p, a
      ensures HeldBefore(d, shard, key, parts, p, a) == 0
    {
      assert CountAt(d, DiffId(shard, p, key), a) == Live(contains, to, added, DiffId(shard, p, key), a);
    }
  }

  /** The object tells the story. */
  ghost predicate Tells(c: CumulativeStatistics, s: Story)
    reads c
  {
    c.Valid() && c.processedTo == s.to && c.added == s.added && c.dirty == s.dirty
  }

  /** A regular request never stops and leaves a valid object. */
  method Perform(c: CumulativeStatistics, ghost s: Story, q: Request)
    requires Tells(c, s) && Regular(c.contains, s, q)
    modifies c
    ensures Tells(c, After(s, q))
  {
    match q {
      case LoadDiff(id, stats) =>
        c.Apply(id, stats);
      case NewDiff(shard, key, parts) =>
        if !c.dirty {
          NothingUnderIsNotHeld(c.contains, c.processedTo, c.added, c.diffs, shard, key, parts);
        }
        c.AddDiffStats(shard, key, parts);
      case NewBorders(dst, borders) =>
        var ok := c.HandleProcessedToUpdate(dst, borders);
      case Finalize =>
        c.EnsureFinalized();
    }
  }

  /**
   * Any list of regular requests on a new object: the total kept along the way is the total built from nothing,
   * and both are the unprocessed part of everything added.
   */
  method PerformAll(contains: Contains, to: map<Shard, Borders>, requests: seq<Request>)
    returns (kept: map<Partition, Stats>, scratch: map<Partition, Stats>)
    requires AllRegular(contains, Story(to, map[], false), requests)
    ensures forall p, a :: ResultAt(kept, p, a) == ResultAt(scratch, p, a)
    ensures var s := AfterAll(Story(to, map[], false), requests);
      forall p, a :: ResultAt(kept, p, a) == Expected(contains, s.to, s.added, p, a)
  {
    var c := new CumulativeStatistics(contains, to);
    ghost var start := Story(to, map[], false);
    for i := 0 to |requests|
      invariant fresh(c) && c.contains == contains && Tells(c, AfterAll(start, requests[..i]))
    {
      assert requests[..i + 1][..i] == requests[..i];
      Perform(c, AfterAll(start, requests[..i]), requests[i]);
    }
    assert requests[..|requests|] == requests;
    kept := c.Result();
    scratch := Recalculated(c.diffs);
    forall p, a {
      TotalIsExpected(contains, c.processedTo, c.added, c.diffs, p, a);
    }
  }
}
