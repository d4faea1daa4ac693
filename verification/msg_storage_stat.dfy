/** Size limits of an external message: a memoised walk over a cell graph against its set of distinct cells. */
module MsgStorageStats {
  import opened Words
  import opened Wrappers

  type u8 = x: int | 0 <= x <= 255

  datatype CellType = Ordinary | PrunedBranch | LibraryReference | MerkleProof | MerkleUpdate

  // Cells are identified by their representation hash, which covers data, references and type.
  // It is taken to be free of collisions: cells are equal exactly when their hashes are.
  datatype Cell = Cell(data: seq<bool>, refs: seq<Cell>, kind: CellType) {
    function Bits(): nat { |data| }

    predicate IsMerkle() { kind.MerkleProof? || kind.MerkleUpdate? }
  }

  // --- the graph ---

  ghost function Reach(c: Cell): set<Cell> {
    {c} + ReachAll(c.refs)
  }

  ghost function ReachAll(cs: seq<Cell>): set<Cell> {
    if cs == [] then {} else Reach(cs[0]) + ReachAll(cs[1..])
  }

  ghost function Weight(c: Cell): nat {
    1 + WeightAll(c.refs)
  }

  ghost function WeightAll(cs: seq<Cell>): nat {
    if cs == [] then 0 else Weight(cs[0]) + WeightAll(cs[1..])
  }

  /** Merkle nesting below and including a cell, as the 8-bit saturating counter has it. */
  function Depth(c: Cell): u8 {
    var below := MaxDepth(c.refs);
    if c.IsMerkle() && below < 255 then below + 1 else below
  }

  function MaxDepth(cs: seq<Cell>): u8 {
    if cs == [] then 0
    else
      var first := Depth(cs[0]);
      var rest := MaxDepth(cs[1..]);
      if first > rest then first else rest
  }

  /** The same nesting without a bound on the counter. */
  function ExactDepth(c: Cell): nat {
    MaxExactDepth(c.refs) + (if c.IsMerkle() then 1 else 0)
  }

  function MaxExactDepth(cs: seq<Cell>): nat {
    if cs == [] then 0
    else
      var first := ExactDepth(cs[0]);
      var rest := MaxExactDepth(cs[1..]);
      if first > rest then first else rest
  }

  ghost function SumBits(s: set<Cell>): nat {
    if s == {} then 0
    else
      var c :| c in s;
      c.Bits() + SumBits(s - {c})
  }

  lemma {:induction false} SumBitsTake(s: set<Cell>, c: Cell)
    requires c in s
    ensures SumBits(s) == c.Bits() + SumBits(s - {c}) && c.Bits() == |c.data|
  {
    var d :| d in s && SumBits(s) == d.Bits() + SumBits(s - {d});
    if d != c {
      SumBitsTake(s - {d}, c);
      SumBitsTake(s - {c}, d);
      assert s - {d} - {c} == s - {c} - {d};
    }
  }

  lemma {:induction false} SumBitsUnion(s: set<Cell>, t: set<Cell>)
    requires s !! t
    ensures SumBits(s + t) == SumBits(s) + SumBits(t)
  {
    if s == {} {
      assert s + t == t;
    } else {
      var c :| c in s;
      SumBitsTake(s, c);
      SumBitsTake(s + t, c);
      assert s + t - {c} == (s - {c}) + t;
      SumBitsUnion(s - {c}, t);
    }
  }

  lemma SumBitsSubset(s: set<Cell>, t: set<Cell>)
    requires s <= t
    ensures SumBits(s) <= SumBits(t) && |s| <= |t|
  {
    assert t == s + (t - s);
    SumBitsUnion(s, t - s);
    assert |t| == |s| + |t - s|;
  }

  lemma {:induction false} ReachLighter(c: Cell, d: Cell)
    requires d in Reach(c)
    ensures Weight(d) <= Weight(c)
    ensures d == c || Weight(d) < Weight(c)
  {
    if d != c {
      ReachAllLighter(c.refs, d);
    }
  }

  lemma {:induction false} ReachAllLighter(cs: seq<Cell>, d: Cell)
    requires d in ReachAll(cs)
    ensures Weight(d) <= WeightAll(cs)
  {
    if d in Reach(cs[0]) {
      ReachLighter(cs[0], d);
    } else {
      ReachAllLighter(cs[1..], d);
    }
  }

  /** No cell is reachable from its own references. */
  lemma Acyclic(c: Cell)
    ensures c !in ReachAll(c.refs)
  {
    if c in ReachAll(c.refs) {
      ReachAllLighter(c.refs, c);
    }
  }

  lemma {:induction false} ReachAllSnoc(cs: seq<Cell>, c: Cell)
    ensures ReachAll(cs + [c]) == ReachAll(cs) + Reach(c)
  {
    if cs == [] {
      assert cs + [c] == [c];
    } else {
      assert (cs + [c])[1..] == cs[1..] + [c];
      ReachAllSnoc(cs[1..], c);
    }
  }

  lemma {:induction false} MaxDepthSnoc(cs: seq<Cell>, c: Cell)
    ensures MaxDepth(cs + [c]) == if Depth(c) > MaxDepth(cs) then Depth(c) else MaxDepth(cs)
  {
    if cs == [] {
      assert cs + [c] == [c];
    } else {
      assert (cs + [c])[1..] == cs[1..] + [c];
      MaxDepthSnoc(cs[1..], c);
    }
  }

  lemma {:induction false} ReachAllPrefix(cs: seq<Cell>, i: nat)
    requires i <= |cs|
    ensures ReachAll(cs[..i]) <= ReachAll(cs)
  {
    if i > 0 {
      assert cs[..i][1..] == cs[1..][..i - 1];
      ReachAllPrefix(cs[1..], i - 1);
    }
  }

  // --- the walk ---

  datatype Limits = Limits(cells: u64, bits: u64, merkle: u8)

  datatype Stat = Stat(visited: map<Cell, u8>, cells: u64, bits: u64)

  /** Visited cells are remembered with everything below them and their true depth. */
  ghost predicate Memo(lim: Limits, visited: map<Cell, u8>) {
    forall d :: d in visited ==> Reach(d) <= visited.Keys && visited[d] == Depth(d) && Depth(d) <= lim.merkle
  }

  ghost predicate Shallow(lim: Limits, s: set<Cell>) {
    forall d :: d in s ==> Depth(d) <= lim.merkle
  }

  /** Taking in the cells of `s` not seen yet stays within the limits. */
  ghost predicate Fits(lim: Limits, st: Stat, s: set<Cell>) {
    && st.cells + |s - st.visited.Keys| <= lim.cells
    && st.bits + SumBits(s - st.visited.Keys) <= lim.bits
    && Shallow(lim, s)
  }

  /** `st'` is `st` after taking in exactly the cells of `s`. */
  ghost predicate Grown(lim: Limits, st: Stat, st': Stat, s: set<Cell>) {
    && st'.visited.Keys == st.visited.Keys + s
    && Memo(lim, st'.visited)
    && st'.cells == st.cells + |s - st.visited.Keys|
    && st'.bits == st.bits + SumBits(s - st.visited.Keys)
    && Shallow(lim, s)
  }

  lemma GrownTransitive(lim: Limits, a: Stat, b: Stat, c: Stat, s: set<Cell>, t: set<Cell>)
    requires Grown(lim, a, b, s) && Grown(lim, b, c, t)
    ensures Grown(lim, a, c, s + t)
  {
    Split(a.visited.Keys, s, t);
    assert t - b.visited.Keys == t - (a.visited.Keys + s);
  }

  /** New cells of a union are those of the first set and those the second adds. */
  lemma Split(seen: set<Cell>, s: set<Cell>, t: set<Cell>)
    ensures |s + t - seen| == |s - seen| + |t - (seen + s)|
    ensures SumBits(s + t - seen) == SumBits(s - seen) + SumBits(t - (seen + s))
  {
    var x, y := s - seen, t - (seen + s);
    assert s + t - seen == x + y;
    SumBitsUnion(x, y);
  }

  /** If what is left does not fit after `s`, the whole did not fit to begin with. */
  lemma Overflow(lim: Limits, a: Stat, b: Stat, s: set<Cell>, t: set<Cell>, all: set<Cell>)
    requires Grown(lim, a, b, s) && !Fits(lim, b, t) && s + t <= all
    ensures !Fits(lim, a, all)
  {
    Split(a.visited.Keys, s, t);
    assert t - b.visited.Keys == t - (a.visited.Keys + s);
    SumBitsSubset(s + t - a.visited.Keys, all - a.visited.Keys);
  }

  /** Counting `c` first and the cells below it afterwards. */
  lemma CountFirst(lim: Limits, st: Stat, st1: Stat, c: Cell)
    requires c !in st.visited && st1.visited == st.visited
    requires st1.cells == st.cells + 1 && st1.bits == st.bits + c.Bits()
    ensures st1.cells + |ReachAll(c.refs) - st.visited.Keys| == st.cells + |Reach(c) - st.visited.Keys|
    ensures st1.bits + SumBits(ReachAll(c.refs) - st.visited.Keys) == st.bits + SumBits(Reach(c) - st.visited.Keys)
  {
    Acyclic(c);
    var below := ReachAll(c.refs) - st.visited.Keys;
    assert Reach(c) - st.visited.Keys == {c} + below;
    SumBitsUnion({c}, below);
    SumBitsTake({c}, c);
    assert {c} - {c} == {};
  }

  /** A new cell fits with all below it iff its references fit once it is counted, and it is not too deep. */
  lemma FitsBelow(lim: Limits, st: Stat, st1: Stat, c: Cell)
    requires c !in st.visited && st1.visited == st.visited
    requires st1.cells == st.cells + 1 && st1.bits == st.bits + c.Bits()
    ensures Fits(lim, st, Reach(c)) <==> Fits(lim, st1, ReachAll(c.refs)) && Depth(c) <= lim.merkle
  {
    CountFirst(lim, st, st1, c);
    ShallowBelow(lim, c);
  }

  lemma RememberKeys(st: Stat, st2: Stat, c: Cell)
    requires st2.visited.Keys == st.visited.Keys + ReachAll(c.refs)
    ensures st2.visited[c := Depth(c)].Keys == st.visited.Keys + Reach(c)
  {
  }

  lemma Remember(lim: Limits, st: Stat, st1: Stat, st2: Stat, c: Cell)
    requires c !in st.visited && st1.visited == st.visited
    requires st1.cells == st.cells + 1 && st1.bits == st.bits + c.Bits()
    requires Grown(lim, st1, st2, ReachAll(c.refs)) && Depth(c) <= lim.merkle
    ensures Grown(lim, st, Stat(st2.visited[c := Depth(c)], st2.cells, st2.bits), Reach(c))
  {
    CountFirst(lim, st, st1, c);
    RememberKeys(st, st2, c);
    MemoInsert(lim, st2.visited, c);
    ShallowBelow(lim, c);
  }

  /** Once the references are taken in, only the depth of the cell decides. */
  lemma Conclude(lim: Limits, st: Stat, st1: Stat, st2: Stat, c: Cell)
    requires c !in st.visited && st1.visited == st.visited
    requires st1.cells == st.cells + 1 && st1.bits == st.bits + c.Bits() && Inside(lim, st1)
    requires Grown(lim, st1, st2, ReachAll(c.refs)) && (c.refs == [] || Fits(lim, st1, ReachAll(c.refs)))
    ensures Fits(lim, st, Reach(c)) <==> Depth(c) <= lim.merkle
    ensures Depth(c) <= lim.merkle ==>
      Grown(lim, st, Stat(st2.visited[c := Depth(c)], st2.cells, st2.bits), Reach(c)) && Inside(lim, st2)
  {
    FitsNone(lim, st1);
    FitsBelow(lim, st, st1, c);
    if Depth(c) <= lim.merkle {
      Remember(lim, st, st1, st2, c);
    }
  }

  lemma ShallowBelow(lim: Limits, c: Cell)
    ensures Shallow(lim, Reach(c)) <==> Shallow(lim, ReachAll(c.refs)) && Depth(c) <= lim.merkle
  {
    assert c in Reach(c);
  }

  lemma MemoInsert(lim: Limits, visited: map<Cell, u8>, c: Cell)
    requires Memo(lim, visited) && ReachAll(c.refs) <= visited.Keys && Depth(c) <= lim.merkle
    ensures Memo(lim, visited[c := Depth(c)])
  {
    var after := visited[c := Depth(c)];
    forall d | d in after ensures Reach(d) <= after.Keys && after[d] == Depth(d) && Depth(d) <= lim.merkle {
      if d != c {
        assert Reach(d) <= visited.Keys;
      }
    }
  }

  predicate Inside(lim: Limits, st: Stat) {
    st.cells <= lim.cells && st.bits <= lim.bits
  }

  /** Once a cell was taken in, the counters are within the limits. */
  ghost predicate Started(lim: Limits, st: Stat) {
    Inside(lim, st) || forall d :: d !in st.visited
  }

  class MsgStorageStat {
    const lim: Limits
    var stat: Stat

    constructor (lim: Limits, bits: u64)
      ensures this.lim == lim && stat == Stat(map[], 1, bits)
    {
      this.lim := lim;
      stat := Stat(map[], 1, bits);
    }

    /** Takes in a cell and all below it: its depth if everything fits, nothing otherwise. */
    method AddCell(c: Cell) returns (r: Option<u8>)
      requires Memo(lim, stat.visited)
      requires Started(lim, stat)
      modifies this
      ensures r.Some? <==> Fits(lim, old(stat), Reach(c))
      ensures r.Some? ==> r.value == Depth(c) && Grown(lim, old(stat), stat, Reach(c))
      ensures r.Some? ==> Inside(lim, stat)
      decreases c, 2
    {
      if c in stat.visited {
        Seen(lim, stat, c);
        return Some(stat.visited[c]);
      }
      CountsItself(lim, stat, c);
      if stat.cells + 1 > U64_MAX || stat.bits + c.Bits() > U64_MAX {
        return None;
      }
      ghost var st := stat;
      stat := Stat(stat.visited, stat.cells + 1, stat.bits + c.Bits());
      if stat.cells > lim.cells || stat.bits > lim.bits {
        return None;
      }
      r := AddBelow(c, st);
    }

    /** A new cell is counted: takes in what is below it and remembers its depth. */
    method AddBelow(c: Cell, ghost st: Stat) returns (r: Option<u8>)
      requires Memo(lim, stat.visited) && c !in stat.visited && Inside(lim, stat)
      requires stat.visited == st.visited && stat.cells == st.cells + 1 && stat.bits == st.bits + c.Bits()
      modifies this
      ensures r.Some? <==> Fits(lim, st, Reach(c))
      ensures r.Some? ==> r.value == Depth(c) && Grown(lim, st, stat, Reach(c))
      ensures r.Some? ==> Inside(lim, stat)
      decreases c, 1
    {
      ghost var st1 := stat;
      FitsNone(lim, st1);
      var max := AddRefs(c);
      if max.None? {
        FitsBelow(lim, st, st1, c);
        return None;
      }
      var depth := if c.IsMerkle() && max.value < 255 then max.value + 1 else max.value;
      Conclude(lim, st, st1, stat, c);
      stat := Stat(stat.visited[c := depth], stat.cells, stat.bits);
      if depth > lim.merkle {
        return None;
      }
      return Some(depth);
    }

    /** Takes in the references of a cell, in order: the largest depth among them if all fit. */
    method AddRefs(c: Cell) returns (r: Option<u8>)
      requires Memo(lim, stat.visited)
      requires Started(lim, stat)
      modifies this
      ensures r.Some? <==> c.refs == [] || Fits(lim, old(stat), ReachAll(c.refs))
      ensures r.Some? ==> r.value == MaxDepth(c.refs) && Grown(lim, old(stat), stat, ReachAll(c.refs))
      ensures r.Some? && c.refs != [] ==> Inside(lim, stat)
      decreases c, 0
    {
      ghost var st1 := stat;
      GrownNothing(lim, st1);
      var max: u8 := 0;
      var refs := c.refs;
      for i := 0 to |refs|
        invariant Grown(lim, st1, stat, ReachAll(refs[..i]))
        invariant Started(lim, stat) && (i > 0 ==> Inside(lim, stat))
        invariant max == MaxDepth(refs[..i])
      {
        ghost var st2 := stat;
        RefStep(refs, i);
        var depth := AddCell(refs[i]);
        if depth.None? {
          Overflow(lim, st1, st2, ReachAll(refs[..i]), Reach(refs[i]), ReachAll(refs));
          return None;
        }
        GrownTransitive(lim, st1, st2, stat, ReachAll(refs[..i]), Reach(refs[i]));
        max := if depth.value > max then depth.value else max;
      }
      RefEnd(refs);
      if refs != [] {
        GrownFits(lim, st1, stat, ReachAll(refs));
      }
      return Some(max);
    }
  }

  lemma RefStep(refs: seq<Cell>, i: nat)
    requires i < |refs|
    ensures ReachAll(refs[..i + 1]) == ReachAll(refs[..i]) + Reach(refs[i]) <= ReachAll(refs)
    ensures MaxDepth(refs[..i + 1]) == if Depth(refs[i]) > MaxDepth(refs[..i]) then Depth(refs[i]) else MaxDepth(refs[..i])
  {
    var (s, c) := (refs[..i], refs[i]);
    assert refs[..i + 1] == s + [c];
    ReachAllSnoc(s, c);
    MaxDepthSnoc(s, c);
    ReachAllPrefix(refs, i + 1);
  }

  lemma RefEnd(refs: seq<Cell>)
    ensures ReachAll(refs[..|refs|]) == ReachAll(refs) && MaxDepth(refs[..|refs|]) == MaxDepth(refs)
  {
    assert refs[..|refs|] == refs;
  }

  lemma FitsNone(lim: Limits, st: Stat)
    requires Inside(lim, st)
    ensures Fits(lim, st, ReachAll([]))
  {
    assert {} - st.visited.Keys == {};
  }

  lemma GrownFits(lim: Limits, st: Stat, st': Stat, s: set<Cell>)
    requires Grown(lim, st, st', s) && Inside(lim, st')
    ensures Fits(lim, st, s)
  {
  }

  lemma Seen(lim: Limits, st: Stat, c: Cell)
    requires Memo(lim, st.visited) && c in st.visited && Started(lim, st)
    ensures Inside(lim, st)
    ensures Fits(lim, st, Reach(c)) && Grown(lim, st, st, Reach(c)) && st.visited[c] == Depth(c)
  {
    assert Reach(c) - st.visited.Keys == {};
    assert st.visited.Keys + Reach(c) == st.visited.Keys;
  }

  /** A cell not seen yet counts at least itself. */
  lemma CountsItself(lim: Limits, st: Stat, c: Cell)
    requires c !in st.visited
    ensures Fits(lim, st, Reach(c)) ==> st.cells + 1 <= lim.cells && st.bits + c.Bits() <= lim.bits
  {
    var unseen := Reach(c) - st.visited.Keys;
    SumBitsTake(unseen, c);
    SumBitsSubset({c}, unseen);
  }

  lemma GrownNothing(lim: Limits, st: Stat)
    requires Memo(lim, st.visited)
    ensures Grown(lim, st, st, ReachAll([]))
  {
    assert {} - st.visited.Keys == {};
    assert st.visited.Keys + {} == st.visited.Keys;
  }

  // --- the verdict ---

  /** What is left of the message root after its info: bits and references. */
  datatype Slice = Slice(bits: nat, refs: seq<Cell>)

  /** The limits taken literally: the slice itself, every distinct cell below it, and their merkle nesting. */
  ghost predicate WithinLimits(slice: Slice, lim: Limits) {
    && 1 + |ReachAll(slice.refs)| <= lim.cells
    && slice.bits + SumBits(ReachAll(slice.refs)) <= lim.bits
    && Shallow(lim, ReachAll(slice.refs))
  }

  /** A slice without references passes whatever its size; any other passes iff it is within the limits. */
  method CheckSlice(slice: Slice, lim: Limits) returns (r: bool)
    requires slice.bits <= U64_MAX
    ensures r <==> slice.refs == [] || WithinLimits(slice, lim)
  {
    var state := new MsgStorageStat(lim, slice.bits);
    FreshLimits(slice, lim, state.stat);
    var depth := state.AddRefs(Cell([], slice.refs, Ordinary));
    return depth.Some?;
  }

  lemma FreshLimits(slice: Slice, lim: Limits, st: Stat)
    requires st.visited == map[] && st.cells == 1 && st.bits == slice.bits
    ensures Fits(lim, st, ReachAll(slice.refs)) <==> WithinLimits(slice, lim)
  {
    assert ReachAll(slice.refs) - st.visited.Keys == ReachAll(slice.refs);
  }

  lemma {:induction false} ReachAllMember(cs: seq<Cell>, d: Cell)
    ensures d in ReachAll(cs) <==> exists c :: c in cs && d in Reach(c)
  {
    if cs != [] {
      ReachAllMember(cs[1..], d);
      if d in Reach(cs[0]) {
        assert cs[0] in cs;
      } else if d in ReachAll(cs[1..]) {
        var c :| c in cs[1..] && d in Reach(c);
        assert c in cs;
      }
    }
  }

  /** Leaves count once exactly when they hold the same data. */
  lemma LeavesByData(a: seq<bool>, b: seq<bool>)
    ensures |ReachAll([Cell(a, [], Ordinary), Cell(b, [], Ordinary)])| == if a == b then 1 else 2
  {
    var (x, y) := (Cell(a, [], Ordinary), Cell(b, [], Ordinary));
    assert [x, y][1..] == [y] && [y][1..] == [];
    assert Reach(x) == {x} && Reach(y) == {y};
    assert ReachAll([x, y]) == {x, y};
  }

  /** Neither the order of references nor repeating one changes the verdict. */
  lemma OrderDoesNotMatter(bits: nat, refs: seq<Cell>, refs': seq<Cell>, lim: Limits)
    requires forall c :: c in refs <==> c in refs'
    ensures WithinLimits(Slice(bits, refs), lim) <==> WithinLimits(Slice(bits, refs'), lim)
  {
    forall d ensures d in ReachAll(refs) <==> d in ReachAll(refs') {
      ReachAllMember(refs, d);
      ReachAllMember(refs', d);
    }
    assert ReachAll(refs) == ReachAll(refs');
  }

  lemma {:induction false} DepthSaturates(c: Cell)
    ensures Depth(c) == if ExactDepth(c) < 255 then ExactDepth(c) else 255
  {
    MaxDepthSaturates(c.refs);
  }

  lemma {:induction false} MaxDepthSaturates(cs: seq<Cell>)
    ensures MaxDepth(cs) == if MaxExactDepth(cs) < 255 then MaxExactDepth(cs) else 255
  {
    if cs != [] {
      DepthSaturates(cs[0]);
      MaxDepthSaturates(cs[1..]);
    }
  }

  // --- nesting and reachability along paths ---

  /** Each cell of a path references the next one. */
  ghost predicate Path(p: seq<Cell>) {
    p != [] && (|p| > 1 ==> p[1] in p[0].refs && Path(p[1..]))
  }

  ghost function Merkles(p: seq<Cell>): nat {
    if p == [] then 0 else (if p[0].kind in {MerkleProof, MerkleUpdate} then 1 else 0) + Merkles(p[1..])
  }

  lemma {:induction false} DeepestOf(cs: seq<Cell>) returns (i: nat)
    requires cs != []
    ensures i < |cs| && ExactDepth(cs[i]) == MaxExactDepth(cs)
  {
    i := 0;
    if |cs| > 1 && ExactDepth(cs[0]) < MaxExactDepth(cs[1..]) {
      i := DeepestOf(cs[1..]);
      i := i + 1;
    }
  }

  lemma {:induction false} NoneDeeper(cs: seq<Cell>, c: Cell)
    requires c in cs
    ensures ExactDepth(c) <= MaxExactDepth(cs)
  {
    if cs[0] != c {
      NoneDeeper(cs[1..], c);
    }
  }

  lemma {:induction false} PathBound(p: seq<Cell>)
    requires Path(p)
    ensures Merkles(p) <= ExactDepth(p[0])
  {
    if |p| > 1 {
      PathBound(p[1..]);
      NoneDeeper(p[0].refs, p[1]);
    }
  }

  lemma {:induction false} DeepestPath(c: Cell) returns (p: seq<Cell>)
    ensures Path(p) && p[0] == c && Merkles(p) == ExactDepth(c)
  {
    if c.refs == [] {
      p := [c];
    } else {
      var i := DeepestOf(c.refs);
      var below := DeepestPath(c.refs[i]);
      p := [c] + below;
      assert p[1..] == below;
    }
  }

  /** The nesting of a cell is the largest number of Merkle cells on a path that starts at it. */
  lemma DepthIs(c: Cell, n: nat)
    ensures ExactDepth(c) <= n <==> forall p :: Path(p) && p[0] == c ==> Merkles(p) <= n
  {
    forall p | Path(p) && p[0] == c ensures Merkles(p) <= ExactDepth(c) {
      PathBound(p);
    }
    var deepest := DeepestPath(c);
  }

  lemma {:induction false} PathReaches(p: seq<Cell>)
    requires Path(p)
    ensures p[|p| - 1] in Reach(p[0])
  {
    if |p| > 1 {
      PathReaches(p[1..]);
      ReachAllMember(p[0].refs, p[|p| - 1]);
    }
  }

  lemma {:induction false} ReachedBy(c: Cell, d: Cell) returns (p: seq<Cell>)
    requires d in Reach(c)
    ensures Path(p) && p[0] == c && p[|p| - 1] == d
  {
    if d == c {
      p := [c];
    } else {
      ReachAllMember(c.refs, d);
      var i :| 0 <= i < |c.refs| && d in Reach(c.refs[i]);
      var below := ReachedBy(c.refs[i], d);
      p := [c] + below;
      assert p[1..] == below;
    }
  }

  /** The cells below a cell are those some path from it ends at. */
  lemma ReachIs(c: Cell, d: Cell)
    ensures d in Reach(c) <==> exists p :: Path(p) && p[0] == c && p[|p| - 1] == d
  {
    if d in Reach(c) {
      var p := ReachedBy(c, d);
    }
    forall p | Path(p) && p[0] == c && p[|p| - 1] == d ensures d in Reach(c) {
      PathReaches(p);
    }
  }

  /** Below the largest limit the 8-bit counter judges nesting exactly; at 255 it lets every nesting through. */
  lemma MerkleLimit(lim: Limits, s: set<Cell>)
    ensures lim.merkle < 255 ==> (Shallow(lim, s) <==> forall d :: d in s ==> ExactDepth(d) <= lim.merkle)
    ensures lim.merkle == 255 ==> Shallow(lim, s)
  {
    forall d ensures Depth(d) == if ExactDepth(d) < 255 then ExactDepth(d) else 255 {
      DepthSaturates(d);
    }
  }
}
