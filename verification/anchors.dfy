/** Refilling the cache of mempool anchors before a collation. */
module Anchors {
  import opened Sequences
  import opened Wrappers

  /** An anchor: for each of its external messages, whether it goes to the collated shard. */
  datatype Anchor = Anchor(id: nat, ct: nat, ours: seq<bool>)

  datatype AnchorInfo = AnchorInfo(id: nat, ct: nat, count: nat)

  datatype Cache = Cache(items: seq<Anchor>, last: Option<AnchorInfo>, pending: bool)

  // --- counting externals ---

  function CountOurs(ours: seq<bool>): nat {
    if ours == [] then 0 else (if ours[0] then 1 else 0) + CountOurs(ours[1..])
  }

  /** The shard's externals of an anchor, the first `offset` messages skipped. */
  function Count(a: Anchor, offset: nat): nat {
    if offset >= |a.ours| then 0 else CountOurs(a.ours[offset..])
  }

  function InfoOf(a: Anchor, count: nat): AnchorInfo {
    AnchorInfo(a.id, a.ct, count)
  }

  /** The anchors worth caching. */
  function Filter(s: seq<Anchor>): seq<Anchor> {
    if s == [] then [] else (if Count(s[0], 0) > 0 then [s[0]] else []) + Filter(s[1..])
  }

  function Total(s: seq<Anchor>): nat {
    if s == [] then 0 else Count(s[0], 0) + Total(s[1..])
  }

  /** The same with an offset into the first anchor. */
  function TotalFrom(s: seq<Anchor>, offset: nat): nat {
    if s == [] then 0 else Count(s[0], offset) + Total(s[1..])
  }

  lemma {:induction false} FilterConcat(a: seq<Anchor>, b: seq<Anchor>)
    ensures Filter(a + b) == Filter(a) + Filter(b)
  {
    if a == [] {
      assert a + b == b;
    } else {
      ConcatTail(a, b);
      FilterConcat(a[1..], b);
      ConcatAssoc(if Count(a[0], 0) > 0 then [a[0]] else [], Filter(a[1..]), Filter(b));
    }
  }

  lemma {:induction false} TotalConcat(a: seq<Anchor>, b: seq<Anchor>)
    ensures Total(a + b) == Total(a) + Total(b)
  {
    if a == [] {
      assert a + b == b;
    } else {
      assert (a + b)[1..] == a[1..] + b;
      TotalConcat(a[1..], b);
    }
  }

  lemma {:induction false} TotalOfFilter(s: seq<Anchor>)
    ensures Total(Filter(s)) == Total(s)
  {
    if s != [] {
      TotalOfFilter(s[1..]);
      if Count(s[0], 0) > 0 {
        assert Filter(s)[1..] == Filter(s[1..]);
      } else {
        assert Filter(s) == Filter(s[1..]);
      }
    }
  }

  // --- order ---

  /** Ids and chain times rise from anchor to anchor. */
  ghost predicate Rising(s: seq<Anchor>) {
    forall i, j :: 0 <= i < j < |s| ==> s[i].id < s[j].id && s[i].ct < s[j].ct
  }

  lemma {:induction false} FilterWithin(s: seq<Anchor>, a: Anchor)
    requires a in Filter(s)
    ensures a in s && Count(a, 0) > 0
  {
    if Count(s[0], 0) > 0 && a == s[0] {
    } else {
      FilterWithin(s[1..], a);
    }
  }

  lemma FilterAfter(s: seq<Anchor>, a: Anchor)
    requires Rising(s) && s != [] && a in Filter(s[1..])
    ensures s[0].id < a.id && s[0].ct < a.ct
  {
    FilterWithin(s[1..], a);
    var j :| 0 <= j < |s[1..]| && s[1..][j] == a;
    assert s[1..][j] == s[j + 1];
  }

  lemma RisingFirst(a: Anchor, s: seq<Anchor>)
    requires Rising(s) && forall b :: b in s ==> a.id < b.id && a.ct < b.ct
    ensures Rising([a] + s)
  {
  }

  lemma RisingTail(s: seq<Anchor>)
    requires Rising(s) && s != []
    ensures Rising(s[1..])
  {
  }

  lemma {:induction false} FilterRising(s: seq<Anchor>)
    requires Rising(s)
    ensures Rising(Filter(s))
  {
    if s != [] {
      RisingTail(s);
      FilterRising(s[1..]);
      forall b | b in Filter(s[1..])
        ensures s[0].id < b.id && s[0].ct < b.ct
      {
        FilterAfter(s, b);
      }
      RisingFirst(s[0], Filter(s[1..]));
      assert [] + Filter(s[1..]) == Filter(s[1..]);
    }
  }

  /** How many leading anchors are not past the chain time. */
  function Within(s: seq<Anchor>, ct: nat): nat {
    if s != [] && s[0].ct <= ct then 1 + Within(s[1..], ct) else 0
  }

  lemma {:induction false} WithinBound(s: seq<Anchor>, ct: nat)
    requires Rising(s)
    ensures Within(s, ct) <= |s|
    ensures forall i :: 0 <= i < |s| ==> (i < Within(s, ct) <==> s[i].ct <= ct)
  {
    if s != [] {
      WithinBound(s[1..], ct);
      assert forall i :: 0 < i < |s| ==> s[i] == s[1..][i - 1];
    }
  }

  lemma {:induction false} WithinFits(s: seq<Anchor>, ct: nat)
    ensures Within(s, ct) <= |s|
  {
    if s != [] {
      WithinFits(s[1..], ct);
    }
  }

  lemma FilterPast(s: seq<Anchor>, ct: nat)
    requires Rising(s) && s != [] && s[0].ct > ct
    ensures Within(Filter(s), ct) == 0
  {
    if Filter(s) != [] {
      FilterWithin(s, Filter(s)[0]);
      var j :| 0 <= j < |s| && s[j] == Filter(s)[0];
      assert j == 0 || s[0].ct < s[j].ct;
    }
  }

  /** Cutting at the chain time and filtering commute. */
  lemma {:induction false} FilterCut(s: seq<Anchor>, ct: nat)
    requires Rising(s)
    ensures Within(s, ct) <= |s| && Within(Filter(s), ct) <= |Filter(s)|
    ensures Filter(s)[..Within(Filter(s), ct)] == Filter(s[..Within(s, ct)])
  {
    if s != [] {
      if s[0].ct > ct {
        FilterPast(s, ct);
      } else {
        FilterCut(s[1..], ct);
        FilterCutStep(s, Within(s[1..], ct), ct);
      }
    }
  }

  lemma FilterCutStep(s: seq<Anchor>, w: nat, ct: nat)
    requires s != [] && s[0].ct <= ct && w <= |s| - 1
    requires Within(Filter(s[1..]), ct) <= |Filter(s[1..])|
    requires Filter(s[1..])[..Within(Filter(s[1..]), ct)] == Filter(s[1..][..w])
    ensures Within(Filter(s), ct) <= |Filter(s)|
    ensures Filter(s)[..Within(Filter(s), ct)] == Filter(s[..w + 1])
  {
    var f := Filter(s[1..]);
    assert s[..w + 1][1..] == s[1..][..w] && s[..w + 1][0] == s[0];
    if Count(s[0], 0) > 0 {
      assert Filter(s)[1..] == f;
    } else {
      assert Filter(s) == f;
    }
  }

  // --- walking the cache ---

  /** What has been collected from the first anchors of a run. */
  datatype Tally = Tally(all: bool, total: nat, off: nat, last: Option<AnchorInfo>, at: Option<Anchor>)

  predicate Reaches(s: seq<Anchor>, ct: nat) {
    exists i :: 0 <= i < |s| && s[i].ct == ct
  }

  function TallyOf(s: seq<Anchor>, offset: nat, lastCt: nat): Tally {
    if s == [] then Tally(false, 0, offset, None, None)
    else
      var a := s[|s| - 1];
      Tally(Reaches(s, lastCt), TotalFrom(s, offset), 0,
            Some(InfoOf(a, Count(a, if |s| == 1 then offset else 0))), Some(a))
  }

  /** One anchor more. */
  function Keep(t: Tally, a: Anchor, lastCt: nat): Tally {
    var n := Count(a, t.off);
    Tally(t.all || a.ct == lastCt, t.total + n, 0, Some(InfoOf(a, n)), Some(a))
  }

  lemma KeepIsTally(s: seq<Anchor>, a: Anchor, offset: nat, lastCt: nat)
    ensures Keep(TallyOf(s, offset, lastCt), a, lastCt) == TallyOf(s + [a], offset, lastCt)
  {
    assert forall i :: 0 <= i < |s| ==> (s + [a])[i] == s[i];
    assert (s + [a])[|s|] == a;
    if s != [] {
      assert (s + [a])[1..] == s[1..] + [a];
      TotalConcat(s[1..], [a]);
      assert [a][1..] == [];
    }
  }

  ghost predicate IsStart(items: seq<Anchor>, p: nat, k: nat) {
    k <= |items| && (forall t :: 0 <= t < k ==> items[t].id < p) && (k < |items| ==> items[k].id >= p)
  }

  /** Where the anchors from `p` on start in the cache. */
  method FindStart(items: seq<Anchor>, p: nat) returns (k: nat)
    ensures IsStart(items, p, k)
  {
    k := 0;
    while k < |items| && items[k].id < p
      invariant k <= |items| && forall t :: 0 <= t < k ==> items[t].id < p
    {
      k := k + 1;
    }
  }

  ghost predicate Trimmed(items: seq<Anchor>, k: nat, offset: nat, lastCt: nat, cur: seq<Anchor>, tally: Tally) {
    && k <= |items| && Within(items[k..], lastCt) <= |items| - k
    && var kept := items[k..][..Within(items[k..], lastCt)];
       cur == items[..k] + kept && tally == TallyOf(kept, offset, lastCt)
  }

  /** `idx` anchors are settled and counted. */
  ghost predicate TrimState(items: seq<Anchor>, k: nat, offset: nat, lastCt: nat, cur: seq<Anchor>, idx: nat, gone: nat,
                            tally: Tally)
  {
    && k <= |items|
    && Trimming(items, k, cur, idx, gone, Within(items[k..], lastCt))
    && tally == TallyOf(items[k..][..idx - k], offset, lastCt)
  }

  /** Removes the anchors past the chain time one by one and counts the others. */
  method Trim(items: seq<Anchor>, k: nat, offset: nat, lastCt: nat) returns (cur: seq<Anchor>, tally: Tally)
    requires k <= |items| && Rising(items[k..])
    ensures Trimmed(items, k, offset, lastCt, cur, tally)
  {
    cur, tally := items, Tally(false, 0, offset, None, None);
    var idx: nat := k;
    ghost var gone: nat := 0;
    TrimStart(items, k, offset, lastCt);
    WithinBound(items[k..], lastCt);
    while idx < |cur|
      invariant TrimState(items, k, offset, lastCt, cur, idx, gone, tally)
      decreases |cur| - idx
    {
      cur, idx, gone, tally := TrimStep(items, k, offset, lastCt, cur, idx, gone, tally);
    }
    TrimEnd(items, k, cur, idx, gone, Within(items[k..], lastCt));
  }

  ghost predicate CutsAt(items: seq<Anchor>, k: nat, lastCt: nat) {
    k <= |items| && forall i :: 0 <= i < |items| - k ==> (i < Within(items[k..], lastCt) <==> items[k..][i].ct <= lastCt)
  }

  method TrimStep(ghost items: seq<Anchor>, ghost k: nat, ghost offset: nat, lastCt: nat,
                  cur: seq<Anchor>, idx: nat, ghost gone: nat, tally: Tally)
    returns (cur': seq<Anchor>, idx': nat, ghost gone': nat, tally': Tally)
    requires TrimState(items, k, offset, lastCt, cur, idx, gone, tally) && idx < |cur| && CutsAt(items, k, lastCt)
    ensures TrimState(items, k, offset, lastCt, cur', idx', gone', tally')
    ensures |cur'| - idx' < |cur| - idx
  {
    TrimAt(items, k, cur, idx, gone, Within(items[k..], lastCt), lastCt);
    if cur[idx].ct > lastCt {
      TrimRemoved(items, k, offset, lastCt, cur, idx, gone, tally);
      return Without(cur, idx), idx, gone + 1, tally;
    }
    TrimKept(items, k, offset, lastCt, cur, idx, tally);
    return cur, idx + 1, 0, Keep(tally, cur[idx], lastCt);
  }

  function Without(s: seq<Anchor>, i: nat): (r: seq<Anchor>)
    requires i < |s|
    ensures |r| == |s| - 1
  {
    s[..i] + s[i + 1..]
  }

  lemma TrimRemoved(items: seq<Anchor>, k: nat, offset: nat, lastCt: nat, cur: seq<Anchor>, idx: nat, gone: nat, tally: Tally)
    requires TrimState(items, k, offset, lastCt, cur, idx, gone, tally) && idx < |cur| && idx - k == Within(items[k..], lastCt)
    ensures TrimState(items, k, offset, lastCt, Without(cur, idx), idx, gone + 1, tally)
  {
    TrimRemove(items, k, cur, idx, gone, Within(items[k..], lastCt));
  }

  lemma TrimKept(items: seq<Anchor>, k: nat, offset: nat, lastCt: nat, cur: seq<Anchor>, idx: nat, tally: Tally)
    requires TrimState(items, k, offset, lastCt, cur, idx, 0, tally) && idx < |cur| && idx - k < Within(items[k..], lastCt)
    ensures TrimState(items, k, offset, lastCt, cur, idx + 1, 0, Keep(tally, cur[idx], lastCt))
  {
    KeepIsTally(items[k..][..idx - k], cur[idx], offset, lastCt);
    TrimKeep(items, k, cur, idx, 0, Within(items[k..], lastCt));
  }

  lemma TrimStart(items: seq<Anchor>, k: nat, offset: nat, lastCt: nat)
    requires k <= |items|
    ensures TrimState(items, k, offset, lastCt, items, k, 0, Tally(false, 0, offset, None, None))
  {
    WithinFits(items[k..], lastCt);
  }

  /** `gone` anchors after the settled ones are removed. */
  ghost predicate Trimming(items: seq<Anchor>, k: nat, cur: seq<Anchor>, idx: nat, gone: nat, m: nat) {
    && k <= idx && idx + gone <= |items| && idx - k <= m <= |items| - k && (gone > 0 ==> idx - k == m)
    && cur == items[..idx] + items[idx + gone..]
  }

  lemma TrimAt(items: seq<Anchor>, k: nat, cur: seq<Anchor>, idx: nat, gone: nat, m: nat, lastCt: nat)
    requires Trimming(items, k, cur, idx, gone, m) && idx < |cur|
    requires CutsAt(items, k, lastCt) && m == Within(items[k..], lastCt)
    ensures cur[idx] == items[idx + gone]
    ensures if cur[idx].ct > lastCt then idx - k == m else gone == 0 && idx - k < m
  {
    assert items[k..][idx + gone - k] == items[idx + gone];
  }

  lemma TrimRemove(items: seq<Anchor>, k: nat, cur: seq<Anchor>, idx: nat, gone: nat, m: nat)
    requires Trimming(items, k, cur, idx, gone, m) && idx < |cur| && idx - k == m
    ensures Trimming(items, k, Without(cur, idx), idx, gone + 1, m)
  {
    assert cur[..idx] == items[..idx];
    assert cur[idx + 1..] == items[idx + gone + 1..];
  }

  lemma TrimKeep(items: seq<Anchor>, k: nat, cur: seq<Anchor>, idx: nat, gone: nat, m: nat)
    requires Trimming(items, k, cur, idx, gone, m) && idx < |cur| && gone == 0 && idx - k < m
    ensures Trimming(items, k, cur, idx + 1, gone, m)
    ensures items[k..][..idx - k] + [cur[idx]] == items[k..][..idx + 1 - k]
  {
  }

  lemma TrimEnd(items: seq<Anchor>, k: nat, cur: seq<Anchor>, idx: nat, gone: nat, m: nat)
    requires Trimming(items, k, cur, idx, gone, m) && idx >= |cur|
    ensures idx - k == m && cur == items[..k] + items[k..][..m]
  {
    assert idx + gone == |items|;
    assert items[..idx] == items[..k] + items[k..][..m];
  }

  // --- importing from the mempool ---

  /** The first anchor from `from` on that reaches the chain time. */
  ghost predicate IsEnd(mempool: seq<Anchor>, from: nat, lastCt: nat, j: nat) {
    from <= j < |mempool| && mempool[j].ct >= lastCt && forall t :: from <= t < j ==> mempool[t].ct < lastCt
  }

  method GetAnchorById(mempool: seq<Anchor>, id: nat) returns (r: Option<nat>)
    ensures r.Some? ==> r.value < |mempool| && mempool[r.value].id == id
    ensures r.None? ==> forall i :: 0 <= i < |mempool| ==> mempool[i].id != id
  {
    for i := 0 to |mempool|
      invariant forall t :: 0 <= t < i ==> mempool[t].id != id
    {
      if mempool[i].id == id {
        return Some(i);
      }
    }
    return None;
  }

  /** The next anchor after an id. */
  method GetNextAnchor(mempool: seq<Anchor>, prev: nat, ghost x: nat) returns (r: Option<Anchor>)
    requires Rising(mempool) && x < |mempool| && mempool[x].id == prev
    ensures r == if x + 1 < |mempool| then Some(mempool[x + 1]) else None
  {
    var i := 0;
    while i < |mempool| && mempool[i].id <= prev
      invariant i <= x + 1 <= |mempool|
      decreases |mempool| - i
    {
      i := i + 1;
    }
    r := if i < |mempool| then Some(mempool[i]) else None;
  }

  function Insert(c: Cache, a: Anchor, count: nat): Cache {
    Cache(if count > 0 then c.items + [a] else c.items, Some(InfoOf(a, count)), c.pending || count > 0)
  }

  /** What importing the anchors after `x0` up to `x` adds. */
  ghost predicate Extended(mempool: seq<Anchor>, x0: nat, x: nat, c0: Cache, total0: nat, c: Cache, total: nat) {
    && x0 <= x < |mempool|
    && c.items == c0.items + Filter(mempool[x0 + 1..x + 1])
    && total == total0 + Total(mempool[x0 + 1..x + 1])
    && c.last == if x == x0 then c0.last else Some(InfoOf(mempool[x], Count(mempool[x], 0)))
  }

  lemma FilterOneMore(s: seq<Anchor>, a: Anchor)
    ensures Filter(s + [a]) == Filter(s) + (if Count(a, 0) > 0 then [a] else [])
    ensures Total(s + [a]) == Total(s) + Count(a, 0)
  {
    FilterConcat(s, [a]);
    TotalConcat(s, [a]);
    assert [a][1..] == [] && Filter([]) == [] && Total([]) == 0;
  }

  lemma ExtendedOneMore(mempool: seq<Anchor>, x0: nat, x: nat, c0: Cache, total0: nat, c: Cache, total: nat)
    requires Extended(mempool, x0, x, c0, total0, c, total) && x + 1 < |mempool|
    ensures var a := mempool[x + 1];
      Extended(mempool, x0, x + 1, c0, total0, Insert(c, a, Count(a, 0)), total + Count(a, 0))
  {
    var (a, s) := (mempool[x + 1], mempool[x0 + 1..x + 1]);
    SliceSnoc(mempool, x0 + 1, x + 1);
    FilterOneMore(s, a);
    if Count(a, 0) > 0 {
      ConcatAssoc(c0.items, Filter(s), [a]);
    } else {
      assert Filter(s) + [] == Filter(s);
    }
  }

  /** Imports the anchors after a given one until the chain time is reached. */
  method ImportAfter(mempool: seq<Anchor>, start: Anchor, lastCt: nat, c0: Cache, total0: nat, ghost x0: nat)
    returns (ok: bool, c: Cache, total: nat, ghost x: nat)
    requires Rising(mempool) && x0 < |mempool| && mempool[x0] == start
    ensures Extended(mempool, x0, x, c0, total0, c, total)
    ensures ok <==> exists t :: x0 <= t < |mempool| && mempool[t].ct >= lastCt
    ensures ok ==> IsEnd(mempool, x0, lastCt, x)
  {
    ok, c, total, x := true, c0, total0, x0;
    var prev := start;
    while prev.ct < lastCt
      invariant Extended(mempool, x0, x, c0, total0, c, total) && prev == mempool[x]
      invariant forall t :: x0 <= t < x ==> mempool[t].ct < lastCt
      decreases |mempool| - x
    {
      var next := GetNextAnchor(mempool, prev.id, x);
      if next.None? {
        return false, c, total, x;
      }
      var count := Count(next.value, 0);
      ExtendedOneMore(mempool, x0, x, c0, total0, c, total);
      total := total + count;
      c := Insert(c, next.value, count);
      prev, x := next.value, x + 1;
    }
  }

  // --- what a refill must give ---

  /** The anchors a collation starts from: `p` up to the first one that reaches the chain time. */
  ghost predicate Range(mempool: seq<Anchor>, p: nat, lastCt: nat, i: nat, j: nat) {
    i < |mempool| && mempool[i].id == p && IsEnd(mempool, i, lastCt, j)
  }

  /** The first anchor is cached while externals are left in it, or when it simply stays. */
  function Head(a: Anchor, offset: nat, stays: bool): seq<Anchor> {
    if Count(a, offset) > 0 || stays then [a] else []
  }

  /** The cache after a refill over mempool[i..j]: older anchors in front, then exactly the range's externals. */
  ghost predicate Refilled(mempool: seq<Anchor>, offset: nat, i: nat, j: nat, older: seq<Anchor>, stays: bool, c: Cache) {
    && i <= j < |mempool|
    && c.items == older + (Head(mempool[i], offset, stays) + Filter(mempool[i + 1..j + 1]))
    && c.last == Some(InfoOf(mempool[j], Count(mempool[j], if j == i then offset else 0)))
    && (c.pending <==> TotalFrom(mempool[i..j + 1], offset) > 0)
  }

  /** If the cache holds `p`, then from there on it holds the mempool's anchors with externals, without a gap. */
  ghost predicate CacheFits(items: seq<Anchor>, mempool: seq<Anchor>, p: nat) {
    forall k: nat :: IsStart(items, p, k) && k < |items| && items[k].id == p ==>
      exists i: nat, b: nat :: Holds(items, mempool, p, k, i, b)
  }

  ghost predicate Holds(items: seq<Anchor>, mempool: seq<Anchor>, p: nat, k: nat, i: nat, b: nat) {
    k < |items| && i < b <= |mempool| && mempool[i].id == p && items[k..] == Filter(mempool[i..b])
  }

  lemma {:induction false} LastOfFilter(s: seq<Anchor>) returns (y: nat)
    requires Filter(s) != []
    ensures y < |s| && s[y] == Filter(s)[|Filter(s)| - 1] && Filter(s[..y + 1]) == Filter(s)
  {
    var f := Filter(s[1..]);
    if f == [] {
      y := 0;
      assert s[..1][1..] == [];
    } else {
      var z := LastOfFilter(s[1..]);
      y := z + 1;
      assert s[..y + 1][1..] == s[1..][..z + 1];
    }
  }

  /** The anchors the walk keeps are those of the mempool up to the last one kept. */
  lemma KeptIsFilter(items: seq<Anchor>, mempool: seq<Anchor>, p: nat, k: nat, i: nat, b: nat, lastCt: nat) returns (x: nat)
    requires Rising(mempool) && Holds(items, mempool, p, k, i, b)
    requires Within(items[k..], lastCt) <= |items| - k && items[k..][..Within(items[k..], lastCt)] != []
    ensures i <= x < b
    ensures var kept := items[k..][..Within(items[k..], lastCt)];
      kept == Filter(mempool[i..x + 1]) && kept[|kept| - 1] == mempool[x]
  {
    assert Rising(mempool[i..b]);
    var y := LastKept(mempool[i..b], lastCt);
    x := i + y;
    assert mempool[i..b][..y + 1] == mempool[i..x + 1];
  }

  lemma LastKept(s: seq<Anchor>, lastCt: nat) returns (y: nat)
    requires Rising(s)
    requires Within(Filter(s), lastCt) <= |Filter(s)| && Filter(s)[..Within(Filter(s), lastCt)] != []
    ensures y < |s|
    ensures var kept := Filter(s)[..Within(Filter(s), lastCt)];
      kept == Filter(s[..y + 1]) && kept[|kept| - 1] == s[y]
  {
    FilterCut(s, lastCt);
    var w := Within(s, lastCt);
    y := LastOfFilter(s[..w]);
    assert s[..w][..y + 1] == s[..y + 1];
  }

  lemma HoldsRising(items: seq<Anchor>, mempool: seq<Anchor>, p: nat, k: nat, i: nat, b: nat)
    requires Rising(mempool) && Holds(items, mempool, p, k, i, b)
    ensures Rising(items[k..])
  {
    assert Rising(mempool[i..b]);
    FilterRising(mempool[i..b]);
  }

  /** Nothing cached of the range: the first anchor comes by id, the others follow. */
  method ImportCold(mempool: seq<Anchor>, p: nat, offset: nat, lastCt: nat, c: Cache)
    returns (ok: bool, c': Cache, ghost i: nat, ghost j: nat)
    requires Rising(mempool)
    ensures ok ==> Range(mempool, p, lastCt, i, j) && Refilled(mempool, offset, i, j, c.items, false, c')
    ensures !ok ==> forall a: nat, b: nat :: !Range(mempool, p, lastCt, a, b)
  {
    i, j := 0, 0;
    var at := GetAnchorById(mempool, p);
    if at.None? {
      return false, c, i, j;
    }
    var first := mempool[at.value];
    i := at.value;
    var count := Count(first, offset);
    var c1 := Insert(c, first, count);
    var done, c2, total, x := ImportAfter(mempool, first, lastCt, c1, count, i);
    j := x;
    if !done {
      OnlyOne(mempool, p, i);
      return false, c2, i, j;
    }
    c' := c2.(pending := total > 0);
    ok := true;
    ColdRefilled(mempool, offset, i, j, c, c2, total);
  }

  lemma OnlyOne(mempool: seq<Anchor>, p: nat, i: nat)
    requires Rising(mempool) && i < |mempool| && mempool[i].id == p
    ensures forall a :: 0 <= a < |mempool| && mempool[a].id == p ==> a == i
  {
  }

  lemma ColdItems(items: seq<Anchor>, a: Anchor, f: seq<Anchor>, n: nat)
    ensures (if n > 0 then items + [a] else items) + f == items + ((if n > 0 then [a] else []) + f)
  {
    if n > 0 {
      ConcatAssoc(items, [a], f);
    } else {
      assert [] + f == f;
    }
  }

  lemma ColdRefilled(mempool: seq<Anchor>, offset: nat, i: nat, j: nat, c: Cache, c2: Cache, total: nat)
    requires i <= j < |mempool|
    requires var n := Count(mempool[i], offset); Extended(mempool, i, j, Insert(c, mempool[i], n), n, c2, total)
    ensures Refilled(mempool, offset, i, j, c.items, false, c2.(pending := total > 0))
  {
    SliceTail(mempool, i, j + 1);
    ColdItems(c.items, mempool[i], Filter(mempool[i + 1..j + 1]), Count(mempool[i], offset));
  }

  // --- the same said message by message ---

  /** The places of the shard's messages in an anchor, from a place on. */
  ghost function OursFrom(a: Anchor, from: nat): set<nat> {
    set m | from <= m < |a.ours| && a.ours[m]
  }

  /** An anchor's count is the number of the shard's messages from the offset on. */
  lemma {:induction false} CountIs(a: Anchor, offset: nat)
    ensures Count(a, offset) == |OursFrom(a, offset)|
    decreases |a.ours| - offset
  {
    if offset < |a.ours| {
      CountIs(a, offset + 1);
      assert a.ours[offset..][1..] == a.ours[offset + 1..];
      assert OursFrom(a, offset) == OursFrom(a, offset + 1) + if a.ours[offset] then {offset} else {};
    } else {
      assert OursFrom(a, offset) == {};
    }
  }

  lemma CountPositive(a: Anchor, offset: nat)
    ensures Count(a, offset) > 0 <==> OursFrom(a, offset) != {}
  {
    CountIs(a, offset);
  }

  /** Where counting starts in the t-th anchor of a range. */
  function From(offset: nat, i: nat, t: nat): nat {
    if t == i then offset else 0
  }

  ghost predicate HasOurs(mempool: seq<Anchor>, offset: nat, i: nat, t: nat) {
    t < |mempool| && OursFrom(mempool[t], From(offset, i, t)) != {}
  }

  /** The anchors of the mempool at the given places, in their order. */
  ghost predicate Listed(mempool: seq<Anchor>, places: seq<nat>, s: seq<Anchor>) {
    && |s| == |places|
    && (forall n :: 0 <= n < |s| ==> places[n] < |mempool| && s[n] == mempool[places[n]])
    && (forall n, m :: 0 <= n < m < |places| ==> places[n] < places[m])
  }

  /** The cached anchors of a range: those with messages of the shard left, and a first one that simply stays. */
  ghost predicate Places(mempool: seq<Anchor>, offset: nat, i: nat, j: nat, stays: bool, places: seq<nat>) {
    forall t: nat :: t in places <==> i <= t <= j && (HasOurs(mempool, offset, i, t) || (t == i && stays))
  }

  ghost predicate RefilledPlainly(mempool: seq<Anchor>, offset: nat, i: nat, j: nat, older: seq<Anchor>, stays: bool, c: Cache) {
    && i <= j < |mempool|
    && (exists places, s :: Listed(mempool, places, s) && Places(mempool, offset, i, j, stays, places) && c.items == older + s)
    && c.last == Some(AnchorInfo(mempool[j].id, mempool[j].ct, |OursFrom(mempool[j], From(offset, i, j))|))
    && (c.pending <==> exists t: nat :: i <= t <= j && HasOurs(mempool, offset, i, t))
  }

  /** The places in [lo, hi) whose anchors have messages of the shard. */
  ghost predicate OursAt(mempool: seq<Anchor>, lo: nat, hi: nat, places: seq<nat>)
    requires hi <= |mempool|
  {
    forall t: nat :: t in places <==> lo <= t < hi && OursFrom(mempool[t], 0) != {}
  }

  lemma OursAtFirst(mempool: seq<Anchor>, lo: nat, hi: nat, places: seq<nat>)
    requires lo < hi <= |mempool| && OursAt(mempool, lo + 1, hi, places)
    ensures OursAt(mempool, lo, hi, if OursFrom(mempool[lo], 0) != {} then [lo] + places else places)
  {
  }

  lemma {:induction false} FilterPlaces(mempool: seq<Anchor>, lo: nat, hi: nat) returns (places: seq<nat>)
    requires lo <= hi <= |mempool|
    ensures Listed(mempool, places, Filter(mempool[lo..hi])) && OursAt(mempool, lo, hi, places)
    decreases hi - lo
  {
    if lo == hi {
      places := [];
    } else {
      SliceTail(mempool, lo, hi);
      var rest := FilterPlaces(mempool, lo + 1, hi);
      CountPositive(mempool[lo], 0);
      OursAtFirst(mempool, lo, hi, rest);
      if Count(mempool[lo], 0) > 0 {
        places := [lo] + rest;
        ListedFirst(mempool, lo, rest, Filter(mempool[lo + 1..hi]));
      } else {
        places := rest;
        assert [] + Filter(mempool[lo + 1..hi]) == Filter(mempool[lo + 1..hi]);
      }
    }
  }

  lemma ListedFirst(mempool: seq<Anchor>, t: nat, places: seq<nat>, s: seq<Anchor>)
    requires Listed(mempool, places, s) && t < |mempool| && forall p :: p in places ==> t < p
    ensures Listed(mempool, [t] + places, [mempool[t]] + s)
  {
    var (ps, r) := ([t] + places, [mempool[t]] + s);
    assert forall n :: 0 < n < |ps| ==> ps[n] == places[n - 1] && ps[n] in places && r[n] == s[n - 1];
  }

  ghost predicate SomeOurs(mempool: seq<Anchor>, lo: nat, hi: nat)
    requires hi <= |mempool|
  {
    exists t: nat :: lo <= t < hi && OursFrom(mempool[t], 0) != {}
  }

  lemma {:induction false} TotalPositive(mempool: seq<Anchor>, lo: nat, hi: nat)
    requires lo <= hi <= |mempool|
    ensures Total(mempool[lo..hi]) > 0 <==> SomeOurs(mempool, lo, hi)
    decreases hi - lo
  {
    if lo < hi {
      SliceTail(mempool, lo, hi);
      CountPositive(mempool[lo], 0);
      TotalPositive(mempool, lo + 1, hi);
      SomeOursFirst(mempool, lo, hi);
    } else {
      assert mempool[lo..hi] == [];
    }
  }

  lemma SomeOursFirst(mempool: seq<Anchor>, lo: nat, hi: nat)
    requires lo < hi <= |mempool|
    ensures SomeOurs(mempool, lo, hi) <==> OursFrom(mempool[lo], 0) != {} || SomeOurs(mempool, lo + 1, hi)
  {
    if SomeOurs(mempool, lo + 1, hi) {
      var t: nat :| lo + 1 <= t < hi && OursFrom(mempool[t], 0) != {};
      assert lo <= t < hi && OursFrom(mempool[t], 0) != {};
    }
  }

  lemma PendingIs(mempool: seq<Anchor>, offset: nat, i: nat, j: nat)
    requires i <= j < |mempool|
    ensures TotalFrom(mempool[i..j + 1], offset) > 0 <==> exists t: nat :: i <= t <= j && HasOurs(mempool, offset, i, t)
  {
    SliceTail(mempool, i, j + 1);
    CountPositive(mempool[i], offset);
    TotalPositive(mempool, i + 1, j + 1);
    if SomeOurs(mempool, i + 1, j + 1) {
      var t: nat :| i + 1 <= t < j + 1 && OursFrom(mempool[t], 0) != {};
      assert HasOurs(mempool, offset, i, t);
    }
    if Count(mempool[i], offset) > 0 {
      assert HasOurs(mempool, offset, i, i);
    }
  }

  lemma PlacesIs(mempool: seq<Anchor>, offset: nat, i: nat, j: nat, stays: bool) returns (places: seq<nat>)
    requires i <= j < |mempool|
    ensures Listed(mempool, places, Head(mempool[i], offset, stays) + Filter(mempool[i + 1..j + 1]))
    ensures Places(mempool, offset, i, j, stays, places)
  {
    var rest := FilterPlaces(mempool, i + 1, j + 1);
    CountPositive(mempool[i], offset);
    if Count(mempool[i], offset) > 0 || stays {
      places := [i] + rest;
      ListedFirst(mempool, i, rest, Filter(mempool[i + 1..j + 1]));
    } else {
      places := rest;
      assert [] + Filter(mempool[i + 1..j + 1]) == Filter(mempool[i + 1..j + 1]);
    }
  }

  /** A refilled cache in terms of the messages of the shard. */
  lemma RefilledIs(mempool: seq<Anchor>, offset: nat, i: nat, j: nat, older: seq<Anchor>, stays: bool, c: Cache)
    requires Refilled(mempool, offset, i, j, older, stays, c)
    ensures RefilledPlainly(mempool, offset, i, j, older, stays, c)
  {
    var places := PlacesIs(mempool, offset, i, j, stays);
    PendingIs(mempool, offset, i, j);
    CountIs(mempool[j], From(offset, i, j));
    var s := Head(mempool[i], offset, stays) + Filter(mempool[i + 1..j + 1]);
    assert Listed(mempool, places, s) && Places(mempool, offset, i, j, stays, places) && c.items == older + s;
  }

  // --- refilling with a cache ---

  /** The first cached anchor of the run is the mempool's anchor `p`. */
  lemma FirstIsCached(items: seq<Anchor>, mempool: seq<Anchor>, p: nat, k: nat, i: nat, b: nat)
    requires Rising(mempool) && Holds(items, mempool, p, k, i, b) && items[k].id == p
    ensures items[k] == mempool[i] && Count(mempool[i], 0) > 0
  {
    var s := mempool[i..b];
    assert items[k] == items[k..][0];
    FilterWithin(s, items[k]);
    var t :| 0 <= t < |s| && s[t] == items[k];
    assert s[t] == mempool[i + t];
  }

  lemma KeptParts(mempool: seq<Anchor>, i: nat, x: nat, offset: nat)
    requires i <= x < |mempool| && Count(mempool[i], 0) > 0
    ensures var kept := Filter(mempool[i..x + 1]);
      && kept == [mempool[i]] + Filter(mempool[i + 1..x + 1])
      && TotalFrom(kept, offset) == TotalFrom(mempool[i..x + 1], offset)
  {
    var s := mempool[i..x + 1];
    assert s[0] == mempool[i] && s[1..] == mempool[i + 1..x + 1];
    assert Filter(s)[1..] == Filter(s[1..]);
    TotalOfFilter(s[1..]);
  }

  lemma KeptOne(mempool: seq<Anchor>, i: nat, x: nat)
    requires Rising(mempool) && i <= x < |mempool| && Count(mempool[i], 0) > 0
    requires var kept := Filter(mempool[i..x + 1]); kept != [] && kept[|kept| - 1] == mempool[x]
    ensures |Filter(mempool[i..x + 1])| == 1 <==> x == i
  {
    KeptParts(mempool, i, x, 0);
    if x == i {
      assert mempool[i + 1..x + 1] == [];
    } else {
      assert mempool[x].id != mempool[i].id;
    }
  }

  /** Joining what was kept with what was imported after it. */
  lemma JoinParts(mempool: seq<Anchor>, i: nat, x: nat, j: nat, offset: nat)
    requires i <= x <= j < |mempool|
    ensures Filter(mempool[i + 1..j + 1]) == Filter(mempool[i + 1..x + 1]) + Filter(mempool[x + 1..j + 1])
    ensures TotalFrom(mempool[i..j + 1], offset) == TotalFrom(mempool[i..x + 1], offset) + Total(mempool[x + 1..j + 1])
  {
    var (a, b) := (mempool[i + 1..x + 1], mempool[x + 1..j + 1]);
    assert mempool[i + 1..j + 1] == a + b;
    FilterConcat(a, b);
    TotalConcat(a, b);
    assert mempool[i..j + 1][1..] == a + b && mempool[i..x + 1][1..] == a;
  }

  lemma WarmRefilled(mempool: seq<Anchor>, offset: nat, i: nat, x: nat, j: nat, older: seq<Anchor>, c1: Cache, total1: nat,
                     c: Cache, total: nat)
    requires Rising(mempool) && i <= x < |mempool| && Count(mempool[i], 0) > 0
    requires var kept := Filter(mempool[i..x + 1]);
      kept != [] && kept[|kept| - 1] == mempool[x] && c1.items == older + kept && total1 == TotalFrom(kept, offset)
      && (j == x ==> c1.last == Some(InfoOf(mempool[x], Count(mempool[x], if |kept| == 1 then offset else 0))))
    requires Extended(mempool, x, j, c1, total1, c, total)
    ensures Refilled(mempool, offset, i, j, older, true, c.(pending := total > 0))
  {
    KeptParts(mempool, i, x, offset);
    KeptOne(mempool, i, x);
    JoinParts(mempool, i, x, j, offset);
    Regroup(older, [mempool[i]], Filter(mempool[i + 1..x + 1]), Filter(mempool[x + 1..j + 1]));
  }

  lemma Regroup(a: seq<Anchor>, b: seq<Anchor>, c: seq<Anchor>, d: seq<Anchor>)
    ensures a + (b + c) + d == a + (b + (c + d))
    ensures a + ((b + c) + d) == a + (b + (c + d))
  {
  }

  lemma KeptEnd(mempool: seq<Anchor>, i: nat, x: nat, lastCt: nat)
    requires Rising(mempool) && i <= x < |mempool|
    requires Filter(mempool[i..x + 1]) != [] && mempool[x].ct <= lastCt
    requires Filter(mempool[i..x + 1])[|Filter(mempool[i..x + 1])| - 1] == mempool[x]
    ensures Reaches(Filter(mempool[i..x + 1]), lastCt) <==> mempool[x].ct == lastCt
    ensures forall t :: i <= t < x ==> mempool[t].ct < lastCt
  {
    var kept := Filter(mempool[i..x + 1]);
    assert Rising(mempool[i..x + 1]);
    FilterRising(mempool[i..x + 1]);
    forall t | 0 <= t < |kept|
      ensures kept[t].ct <= mempool[x].ct
    {
      assert t == |kept| - 1 || kept[t].ct < kept[|kept| - 1].ct;
    }
  }

  /** What is left of the old cache: with `p` in it, the anchors before `p`, and `p` itself unless it is past the time. */
  ghost predicate Origin(items: seq<Anchor>, p: nat, lastCt: nat, k: nat, older: seq<Anchor>, stays: bool) {
    && IsStart(items, p, k)
    && if k < |items| && items[k].id == p then older == items[..k] && (stays <==> items[k].ct <= lastCt)
       else older == [] && !stays
  }

  /** A refill succeeds exactly when the mempool has the range, and then gives it. */
  ghost predicate Answers(mempool: seq<Anchor>, p: nat, offset: nat, lastCt: nat, c: Cache,
                          ok: bool, c': Cache, i: nat, j: nat, older: seq<Anchor>, stays: bool)
  {
    if ok then
      && Range(mempool, p, lastCt, i, j) && Refilled(mempool, offset, i, j, older, stays, c')
      && exists k: nat :: Origin(c.items, p, lastCt, k, older, stays)
    else forall a: nat, b: nat :: !Range(mempool, p, lastCt, a, b)
  }

  /** What the walk left in the cache, seen from the mempool. */
  ghost predicate KeptUpTo(mempool: seq<Anchor>, p: nat, offset: nat, lastCt: nat, older: seq<Anchor>, cur: seq<Anchor>,
                           t: Tally, i: nat, x: nat)
  {
    && i <= x < |mempool| && mempool[i].id == p && Count(mempool[i], 0) > 0
    && (forall a :: i <= a < x ==> mempool[a].ct < lastCt)
    && mempool[x].ct <= lastCt && (t.all <==> mempool[x].ct == lastCt)
    && var kept := Filter(mempool[i..x + 1]);
       && kept != [] && kept[|kept| - 1] == mempool[x] && cur == older + kept && t.total == TotalFrom(kept, offset)
       && t.at == Some(mempool[x])
       && t.last == Some(InfoOf(mempool[x], Count(mempool[x], if |kept| == 1 then offset else 0)))
  }

  lemma TrimmedKept(mempool: seq<Anchor>, items: seq<Anchor>, p: nat, k: nat, i: nat, b: nat, offset: nat, lastCt: nat,
                    cur: seq<Anchor>, t: Tally) returns (x: nat)
    requires Rising(mempool) && Holds(items, mempool, p, k, i, b) && items[k].id == p
    requires Trimmed(items, k, offset, lastCt, cur, t) && t.at.Some?
    ensures KeptUpTo(mempool, p, offset, lastCt, items[..k], cur, t, i, x)
  {
    HoldsRising(items, mempool, p, k, i, b);
    WithinBound(items[k..], lastCt);
    FirstIsCached(items, mempool, p, k, i, b);
    x := KeptIsFilter(items, mempool, p, k, i, b, lastCt);
    KeptEnd(mempool, i, x, lastCt);
  }

  /** The cache reaches the chain time, or the rest is imported after the last anchor kept. */
  method Warm(mempool: seq<Anchor>, p: nat, offset: nat, lastCt: nat, c: Cache, t: Tally,
              ghost older: seq<Anchor>, ghost i: nat, ghost x: nat)
    returns (ok: bool, c': Cache, ghost j: nat)
    requires Rising(mempool) && KeptUpTo(mempool, p, offset, lastCt, older, c.items, t, i, x)
    ensures ok ==> Range(mempool, p, lastCt, i, j) && Refilled(mempool, offset, i, j, older, true, c')
    ensures !ok ==> forall a: nat, b: nat :: !Range(mempool, p, lastCt, a, b)
  {
    OnlyOne(mempool, p, i);
    if t.all {
      var c1 := c.(last := t.last);
      WarmStays(mempool, x, c1, t.total);
      WarmRefilled(mempool, offset, i, x, x, older, c1, t.total, c1, t.total);
      return true, c1.(pending := t.total > 0), x;
    }
    var done, c2, total, y := ImportAfter(mempool, t.at.value, lastCt, c, t.total, x);
    ok, c', j := done, c2.(pending := total > 0), y;
    if done {
      WarmRefilled(mempool, offset, i, x, y, older, c, t.total, c2, total);
    }
  }

  lemma WarmStays(mempool: seq<Anchor>, x: nat, c: Cache, total: nat)
    requires x < |mempool|
    ensures Extended(mempool, x, x, c, total, c, total)
  {
    assert mempool[x + 1..x + 1] == [];
    assert c.items + [] == c.items;
  }

  /** The whole refill. */
  method Refill(mempool: seq<Anchor>, p: nat, offset: nat, lastCt: nat, c: Cache)
    returns (ok: bool, c': Cache, ghost i: nat, ghost j: nat, ghost older: seq<Anchor>, ghost stays: bool)
    requires Rising(mempool) && CacheFits(c.items, mempool, p)
    ensures ok <==> exists i: nat, j: nat :: Range(mempool, p, lastCt, i, j)
    ensures Answers(mempool, p, offset, lastCt, c, ok, c', i, j, older, stays)
    ensures ok ==> RefilledPlainly(mempool, offset, i, j, older, stays, c')
  {
    older, stays := [], false;
    var k := FindStart(c.items, p);
    if k < |c.items| && c.items[k].id == p {
      ghost var h, b :| Holds(c.items, mempool, p, k, h, b);
      HoldsRising(c.items, mempool, p, k, h, b);
      var cur, t := Trim(c.items, k, offset, lastCt);
      older := c.items[..k];
      TrimmedFirst(c.items, k, offset, lastCt, cur, t);
      stays := c.items[k].ct <= lastCt;
      assert Origin(c.items, p, lastCt, k, older, stays);
      if t.at.Some? {
        ghost var x := TrimmedKept(mempool, c.items, p, k, h, b, offset, lastCt, cur, t);
        FirstIsCached(c.items, mempool, p, k, h, b);
        ok, c', j := Warm(mempool, p, offset, lastCt, c.(items := cur), t, older, h, x);
        i := h;
        if ok {
          RefilledIs(mempool, offset, i, j, older, stays, c');
        }
        return;
      }
      ok, c', i, j := ImportCold(mempool, p, offset, lastCt, c.(items := cur));
    } else {
      assert Origin(c.items, p, lastCt, k, older, stays);
      ok, c', i, j := ImportCold(mempool, p, offset, lastCt, Cache([], None, false));
    }
    if ok {
      RefilledIs(mempool, offset, i, j, older, stays, c');
    }
  }

  lemma TrimmedFirst(items: seq<Anchor>, k: nat, offset: nat, lastCt: nat, cur: seq<Anchor>, t: Tally)
    requires Trimmed(items, k, offset, lastCt, cur, t) && k < |items|
    ensures t.at.Some? <==> items[k].ct <= lastCt
    ensures t.at.None? ==> cur == items[..k]
  {
    assert items[k..][0] == items[k];
  }

  lemma OneRange(mempool: seq<Anchor>, p: nat, lastCt: nat, i: nat, j: nat, a: nat, b: nat)
    requires Rising(mempool) && Range(mempool, p, lastCt, i, j) && Range(mempool, p, lastCt, a, b)
    ensures a == i && b == j
  {
    OnlyOne(mempool, p, i);
    assert j < b || b < j || b == j;
  }

  /** Same externals from `p` on: the warm cache may hold older anchors in front, and `p` itself when it is used up. */
  ghost predicate SameFrom(p: nat, offset: nat, warm: Cache, cold: Cache) {
    && warm.last == cold.last && warm.pending == cold.pending
    && exists older, used :: Older(older, p) && Used(used, p, offset) && warm.items == older + (used + cold.items)
  }

  ghost predicate Older(s: seq<Anchor>, p: nat) {
    forall a :: a in s ==> a.id < p
  }

  ghost predicate Used(s: seq<Anchor>, p: nat, offset: nat) {
    s == [] || exists a: Anchor :: s == [a] && a.id == p && Count(a, offset) == 0
  }

  lemma RefillsAgree(mempool: seq<Anchor>, p: nat, offset: nat, i: nat, j: nat, older: seq<Anchor>, stays: bool,
                     warm: Cache, cold: Cache)
    requires i < |mempool| && mempool[i].id == p && Older(older, p)
    requires Refilled(mempool, offset, i, j, older, stays, warm) && Refilled(mempool, offset, i, j, [], false, cold)
    ensures SameFrom(p, offset, warm, cold)
  {
    var a := mempool[i];
    var used := if stays && Count(a, offset) == 0 then [a] else [];
    HeadParts(a, offset, stays, used);
    Regroup(older, used, Head(a, offset, false), Filter(mempool[i + 1..j + 1]));
    NothingInFront(Head(a, offset, false) + Filter(mempool[i + 1..j + 1]));
    assert Used(used, p, offset);
    assert Older(older, p) && Used(used, p, offset) && warm.items == older + (used + cold.items);
  }

  lemma HeadParts(a: Anchor, offset: nat, stays: bool, used: seq<Anchor>)
    requires used == if stays && Count(a, offset) == 0 then [a] else []
    ensures Head(a, offset, stays) == used + Head(a, offset, false)
  {
  }

  lemma NothingInFront(s: seq<Anchor>)
    ensures [] + s == s
  {
  }

  /** A refill from a gap-free cache and one from nothing succeed together and agree. */
  method RefillBothWays(mempool: seq<Anchor>, p: nat, offset: nat, lastCt: nat, c: Cache)
    returns (ok: bool, warm: Cache, cold: Cache)
    requires Rising(mempool) && CacheFits(c.items, mempool, p)
    ensures ok <==> exists i: nat, j: nat :: Range(mempool, p, lastCt, i, j)
    ensures ok ==> SameFrom(p, offset, warm, cold)
  {
    var ok1, c1, i1, j1, older1, stays1 := Refill(mempool, p, offset, lastCt, c);
    var ok2, c2, i2, j2 := ImportCold(mempool, p, offset, lastCt, Cache([], None, false));
    ok, warm, cold := ok1, c1, c2;
    if ok1 {
      OneRange(mempool, p, lastCt, i1, j1, i2, j2);
      RefillsAgree(mempool, p, offset, i1, j1, older1, stays1, c1, c2);
    }
  }

  class AnchorsCache {
    var contents: Cache

    method ImportInitAnchors(mempool: seq<Anchor>, p: nat, offset: nat, lastCt: nat)
      returns (ok: bool, ghost i: nat, ghost j: nat, ghost older: seq<Anchor>, ghost stays: bool)
      requires Rising(mempool) && CacheFits(contents.items, mempool, p)
      modifies this
      ensures Answers(mempool, p, offset, lastCt, old(contents), ok, contents, i, j, older, stays)
      ensures ok <==> exists i: nat, j: nat :: Range(mempool, p, lastCt, i, j)
      ensures ok ==> RefilledPlainly(mempool, offset, i, j, older, stays, contents)
    {
      var c;
      ok, c, i, j, older, stays := Refill(mempool, p, offset, lastCt, contents);
      contents := c;
    }
  }
}
