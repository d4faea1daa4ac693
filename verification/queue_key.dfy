/** Queue keys: their order, the byte-carry successor and the half-open ranges built with it. */
module QueueKeys {
  import opened Words

  const HASH_LEN := 32

  predicate IsHash(h: seq<byte>) {
    |h| == HASH_LEN
  }

  datatype QueueKey = QueueKey(lt: u64, hash: seq<byte>) {
    predicate Valid() { IsHash(hash) }
  }

  // --- order ---

  /** Byte-wise lexicographic order of hashes: the first difference decides. */
  ghost predicate HashLess(a: seq<byte>, b: seq<byte>)
    requires |a| == |b|
  {
    exists i :: 0 <= i < |a| && a[..i] == b[..i] && a[i] < b[i]
  }

  /** Logical time first, then the hash. */
  ghost predicate Less(a: QueueKey, b: QueueKey)
    requires a.Valid() && b.Valid()
  {
    a.lt < b.lt || (a.lt == b.lt && HashLess(a.hash, b.hash))
  }

  ghost predicate LessEq(a: QueueKey, b: QueueKey)
    requires a.Valid() && b.Valid()
  {
    a == b || Less(a, b)
  }

  /** A hash read as a big-endian number. */
  function Value(h: seq<byte>): nat {
    if h == [] then 0 else 256 * Value(h[..|h| - 1]) + h[|h| - 1]
  }

  function Pow256(n: nat): nat {
    if n == 0 then 1 else 256 * Pow256(n - 1)
  }

  /** Keys numbered from the smallest one. */
  ghost function Rank(k: QueueKey): nat
    requires k.Valid()
  {
    k.lt * Pow256(|k.hash|) + Value(k.hash)
  }

  lemma {:induction false} ValueBound(h: seq<byte>)
    ensures Value(h) < Pow256(|h|)
  {
    if h != [] {
      ValueBound(h[..|h| - 1]);
    }
  }

  lemma {:induction false} ValueInjective(a: seq<byte>, b: seq<byte>)
    requires |a| == |b| && Value(a) == Value(b)
    ensures a == b
  {
    if a != [] {
      var n := |a| - 1;
      assert Value(a[..n]) == Value(b[..n]) && a[n] == b[n];
      ValueInjective(a[..n], b[..n]);
      assert a == a[..n] + [a[n]] && b == b[..n] + [b[n]];
    }
  }

  lemma {:induction false} HashLessIsLess(a: seq<byte>, b: seq<byte>)
    requires |a| == |b| && HashLess(a, b)
    ensures Value(a) < Value(b)
  {
    var i :| 0 <= i < |a| && a[..i] == b[..i] && a[i] < b[i];
    var n := |a| - 1;
    if i == n {
      assert a[..n] == b[..n];
    } else {
      assert a[..n][..i] == a[..i] && b[..n][..i] == b[..i];
      assert a[..n][i] == a[i] && b[..n][i] == b[i];
      assert HashLess(a[..n], b[..n]);
      HashLessIsLess(a[..n], b[..n]);
    }
  }

  lemma {:induction false} LessIsHashLess(a: seq<byte>, b: seq<byte>)
    requires |a| == |b| && Value(a) < Value(b)
    ensures HashLess(a, b)
  {
    var n := |a| - 1;
    if Value(a[..n]) == Value(b[..n]) {
      ValueInjective(a[..n], b[..n]);
      assert a[n] < b[n];
    } else {
      LessIsHashLess(a[..n], b[..n]);
      var i :| 0 <= i < n && a[..n][..i] == b[..n][..i] && a[..n][i] < b[..n][i];
      assert a[..i] == a[..n][..i] && b[..i] == b[..n][..i];
      assert a[i] < b[i];
    }
  }

  lemma LexOrder(p: nat, a: nat, b: nat, x: nat, y: nat)
    requires x < p && y < p
    ensures a * p + x < b * p + y <==> a < b || (a == b && x < y)
    ensures a * p + x == b * p + y <==> a == b && x == y
  {
    if a < b {
      assert (a + 1) * p <= b * p;
      assert (a + 1) * p == a * p + p;
    } else if b < a {
      assert (b + 1) * p <= a * p;
      assert (b + 1) * p == b * p + p;
    }
  }

  /** The key order is the order of the ranks, and a rank names one key. */
  lemma RankOrder(a: QueueKey, b: QueueKey)
    requires a.Valid() && b.Valid()
    ensures Less(a, b) <==> Rank(a) < Rank(b)
    ensures LessEq(a, b) <==> Rank(a) <= Rank(b)
    ensures a == b <==> Rank(a) == Rank(b)
  {
    ValueBound(a.hash);
    ValueBound(b.hash);
    LexOrder(Pow256(|a.hash|), a.lt, b.lt, Value(a.hash), Value(b.hash));
    if Value(a.hash) == Value(b.hash) {
      ValueInjective(a.hash, b.hash);
    }
    if HashLess(a.hash, b.hash) {
      HashLessIsLess(a.hash, b.hash);
    }
    if Value(a.hash) < Value(b.hash) {
      LessIsHashLess(a.hash, b.hash);
    }
  }

  // --- successor ---

  predicate AllOnes(h: seq<byte>) {
    forall i :: 0 <= i < |h| ==> h[i] == 255
  }

  predicate IsMax(k: QueueKey) {
    k.lt == U64_MAX && AllOnes(k.hash)
  }

  /** Adding one to a big-endian number, carrying leftwards. */
  function Inc(h: seq<byte>): seq<byte> {
    if h == [] then []
    else
      var n := |h| - 1;
      if h[n] < 255 then h[..n] + [h[n] + 1] else Inc(h[..n]) + [0]
  }

  lemma {:induction false} IncLength(h: seq<byte>)
    ensures |Inc(h)| == |h|
  {
    if h != [] {
      IncLength(h[..|h| - 1]);
    }
  }

  lemma {:induction false} IncValue(h: seq<byte>)
    requires !AllOnes(h)
    ensures Value(Inc(h)) == Value(h) + 1
  {
    var n := |h| - 1;
    if h[n] < 255 {
      assert Inc(h)[..n] == h[..n];
    } else {
      assert forall i :: 0 <= i < n ==> h[..n][i] == h[i];
      IncValue(h[..n]);
      IncLength(h[..n]);
      assert Inc(h)[..n] == Inc(h[..n]);
    }
  }

  lemma {:induction false} OnesValue(h: seq<byte>)
    requires AllOnes(h)
    ensures Value(h) == Pow256(|h|) - 1
  {
    if h != [] {
      OnesValue(h[..|h| - 1]);
    }
  }

  lemma {:induction false} ZeroValue(h: seq<byte>)
    requires forall i :: 0 <= i < |h| ==> h[i] == 0
    ensures Value(h) == 0
  {
    if h != [] {
      ZeroValue(h[..|h| - 1]);
    }
  }

  function Zeros(n: nat): seq<byte> {
    seq(n, i => 0)
  }

  /** n is the key right after k; the largest key is its own successor. */
  ghost predicate IsNext(k: QueueKey, n: QueueKey)
    requires k.Valid() && n.Valid()
  {
    if IsMax(k) then n == k else Rank(n) == Rank(k) + 1
  }

  lemma NextHash(k: QueueKey, n: QueueKey)
    requires k.Valid() && !AllOnes(k.hash) && n == QueueKey(k.lt, Inc(k.hash))
    ensures n.Valid() && IsNext(k, n)
  {
    IncLength(k.hash);
    IncValue(k.hash);
  }

  lemma NextLt(k: QueueKey, n: QueueKey)
    requires k.Valid() && AllOnes(k.hash) && k.lt < U64_MAX && n == QueueKey(k.lt + 1, Zeros(HASH_LEN))
    ensures n.Valid() && IsNext(k, n)
  {
    OnesValue(k.hash);
    ZeroValue(n.hash);
    var p := Pow256(|k.hash|);
    assert (k.lt + 1) * p == k.lt * p + p;
  }

  method NextValue(k: QueueKey) returns (r: QueueKey)
    requires k.Valid()
    ensures r.Valid() && IsNext(k, r)
  {
    if AllOnes(k.hash) {
      if k.lt == U64_MAX {
        return k;
      }
      r := QueueKey(k.lt + 1, Zeros(HASH_LEN));
      NextLt(k, r);
    } else {
      var hash := IncInPlace(k.hash);
      r := QueueKey(k.lt, hash);
      NextHash(k, r);
    }
  }

  /** The carry loop over the bytes, last one first. */
  method IncInPlace(h: seq<byte>) returns (hash: seq<byte>)
    ensures hash == Inc(h)
  {
    hash := h;
    var i := |hash|;
    assert hash[..i] == h && hash[i..] == [];
    while i > 0
      invariant 0 <= i <= |hash| == |h|
      invariant Inc(h) == Inc(hash[..i]) + hash[i..]
    {
      i := i - 1;
      assert hash[..i + 1][..i] == hash[..i];
      var overflow := hash[i] == 255;
      ghost var before := hash;
      hash := hash[i := if overflow then 0 else hash[i] + 1];
      assert hash[..i] == before[..i] && hash[i..] == [hash[i]] + before[i + 1..];
      if !overflow {
        assert Inc(h) == hash[..i] + hash[i..];
        assert hash[..i] + hash[i..] == hash;
        return;
      }
    }
    assert hash[0..] == hash;
  }

  /** Only the largest key is not below its successor, and nothing lies strictly between the two. */
  lemma NextIsImmediate(k: QueueKey, n: QueueKey, x: QueueKey)
    requires k.Valid() && n.Valid() && x.Valid() && IsNext(k, n)
    ensures Less(k, n) <==> !IsMax(k)
    ensures !IsMax(k) ==> (Less(k, x) <==> LessEq(n, x)) && (LessEq(x, k) <==> Less(x, n))
  {
    RankOrder(k, n);
    RankOrder(k, x);
    RankOrder(n, x);
    RankOrder(x, k);
    RankOrder(x, n);
  }

  lemma MaxIsLargest(k: QueueKey, x: QueueKey)
    requires k.Valid() && x.Valid() && IsMax(k)
    ensures LessEq(x, k)
  {
    OnesValue(k.hash);
    ValueBound(x.hash);
    LexOrder(Pow256(|k.hash|), k.lt, x.lt, Value(k.hash), Value(x.hash));
    RankOrder(x, k);
  }

  // --- ranges ---

  datatype ShardRange = ShardRange(shard: int, from: QueueKey, to: QueueKey) {
    predicate Valid() { from.Valid() && to.Valid() }

    /** The keys a half-open store scan visits. */
    ghost predicate Scans(x: QueueKey)
      requires Valid() && x.Valid()
    {
      LessEq(from, x) && Less(x, to)
    }

    /** The keys a caller asks for: `from` left out, `to` taken in. */
    ghost predicate Asks(x: QueueKey)
      requires Valid() && x.Valid()
    {
      Less(from, x) && LessEq(x, to)
    }
  }

  ghost predicate Shifted(r: ShardRange, s: ShardRange)
    requires r.Valid() && s.Valid()
  {
    s.shard == r.shard && IsNext(r.from, s.from) && IsNext(r.to, s.to)
  }

  lemma ShiftPointwise(r: ShardRange, s: ShardRange, x: QueueKey)
    requires r.Valid() && s.Valid() && x.Valid() && Shifted(r, s)
    ensures s.Scans(x) ==> r.Asks(x)
    ensures r.Asks(x) && !s.Scans(x) <==> IsMax(r.to) && !IsMax(r.from) && x == r.to
  {
    NextIsImmediate(r.from, s.from, x);
    NextIsImmediate(r.to, s.to, x);
    RankOrder(r.from, x);
    RankOrder(x, r.to);
    RankOrder(r.from, r.to);
    RankOrder(s.from, x);
    RankOrder(x, s.to);
    if IsMax(r.to) {
      MaxIsLargest(r.to, x);
      MaxIsLargest(r.to, r.from);
      MaxIsLargest(r.to, s.from);
    }
    if IsMax(r.from) {
      MaxIsLargest(r.from, x);
      MaxIsLargest(r.from, r.to);
    }
  }

  /** A shifted scan visits exactly the keys asked for, unless the range reaches up to the largest key. */
  lemma ShiftIsExact(r: ShardRange, s: ShardRange)
    requires r.Valid() && s.Valid() && Shifted(r, s)
    ensures (forall x: QueueKey | x.Valid() :: s.Scans(x) <==> r.Asks(x)) <==> !IsMax(r.to) || IsMax(r.from)
  {
    forall x: QueueKey | x.Valid()
      ensures s.Scans(x) ==> r.Asks(x)
      ensures r.Asks(x) && !s.Scans(x) <==> IsMax(r.to) && !IsMax(r.from) && x == r.to
    {
      ShiftPointwise(r, s, x);
    }
    assert r.to.Valid();
  }

  /** Moves both ends of every range one key up, in place. */
  method ShiftRanges(ranges: array<ShardRange>)
    requires forall i :: 0 <= i < ranges.Length ==> ranges[i].Valid()
    modifies ranges
    ensures forall i :: 0 <= i < ranges.Length ==>
      ranges[i].Valid() && old(ranges[i]).Valid() && Shifted(old(ranges[i]), ranges[i])
  {
    for n := 0 to ranges.Length
      invariant forall i :: 0 <= i < ranges.Length ==> ranges[i].Valid() && old(ranges[i]).Valid()
      invariant forall i :: 0 <= i < n ==> Shifted(old(ranges[i]), ranges[i])
      invariant forall i :: n <= i < ranges.Length ==> ranges[i] == old(ranges[i])
    {
      var from := NextValue(ranges[n].from);
      var to := NextValue(ranges[n].to);
      ranges[n] := ShardRange(ranges[n].shard, from, to);
    }
  }
}
