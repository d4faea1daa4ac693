/** The signature weight check of block proofs and the quorum it stands for. */
module Quorum {
  import opened Words

  datatype Subset = Subset(shortHash: nat, weights: seq<nat>)

  /** Signatures of a proof: the raw dictionary values (false where one cannot be read), what the proof claims,
    and the validators whose signatures the library found valid, if it accepted them at all. */
  datatype Signatures = Signatures(
    listHashShort: nat,
    count: nat,
    totalWeight: nat,
    values: seq<bool>,
    libraryAccepts: bool,
    signers: set<nat>)

  /** The weight of a set of validators. */
  function WeightOf(weights: seq<nat>, who: set<nat>): nat {
    if weights == [] then 0
    else
      var n := |weights| - 1;
      WeightOf(weights[..n], who) + if n in who then weights[n] else 0
  }

  function Total(weights: seq<nat>): nat {
    if weights == [] then 0 else Total(weights[..|weights| - 1]) + weights[|weights| - 1]
  }

  // --- the check ---

  /** Counts the values, giving up at the first unreadable one or past the expected number. */
  method CountValues(values: seq<bool>, expected: nat) returns (ok: bool)
    ensures ok <==> |values| == expected && forall i :: 0 <= i < |values| ==> values[i]
  {
    var count := 0;
    while count < |values|
      invariant count <= |values| && count <= expected && forall i :: 0 <= i < count ==> values[i]
    {
      if !values[count] {
        return false;
      }
      count := count + 1;
      if count > expected {
        break;
      }
    }
    return count == expected;
  }

  /** Adds up all weights with overflow checks. */
  method TotalWeight(weights: seq<nat>) returns (ok: bool, total: nat)
    ensures ok <==> Total(weights) <= U64_MAX
    ensures ok ==> total == Total(weights)
  {
    total := 0;
    for i := 0 to |weights|
      invariant total == Total(weights[..i]) <= U64_MAX
    {
      assert weights[..i + 1][..i] == weights[..i];
      if total + weights[i] > U64_MAX {
        TotalGrows(weights, i + 1);
        return false, total;
      }
      total := total + weights[i];
    }
    assert weights[..|weights|] == weights;
    ok := true;
  }

  lemma {:induction false} TotalGrows(weights: seq<nat>, n: nat)
    requires n <= |weights|
    ensures Total(weights[..n]) <= Total(weights)
    decreases |weights| - n
  {
    if n == |weights| {
      assert weights[..n] == weights;
    } else {
      assert weights[..n + 1][..n] == weights[..n];
      TotalGrows(weights, n + 1);
    }
  }

  /** When a proof passes: the claims match, no number overflows and more than two thirds of the weight signed. */
  ghost predicate Accepted(s: Signatures, v: Subset) {
    var weight, total := WeightOf(v.weights, s.signers), Total(v.weights);
    && s.listHashShort == v.shortHash
    && |s.values| == s.count && (forall i :: 0 <= i < |s.values| ==> s.values[i])
    && s.libraryAccepts && s.totalWeight == weight
    && 2 * total <= U64_MAX && 3 * weight <= U64_MAX
    && 3 * weight > 2 * total
  }

  method CheckSignatures(s: Signatures, v: Subset) returns (ok: bool)
    ensures ok <==> Accepted(s, v)
  {
    if s.listHashShort != v.shortHash {
      return false;
    }
    var counted := CountValues(s.values, s.count);
    if !counted {
      return false;
    }
    var added, total := TotalWeight(v.weights);
    if !added || !s.libraryAccepts {
      return false;
    }
    var weight := WeightOf(v.weights, s.signers);
    if weight != s.totalWeight {
      return false;
    }
    if weight * 3 > U64_MAX || total * 2 > U64_MAX {
      return false;
    }
    return weight * 3 > total * 2;
  }

  // --- quorum ---

  lemma {:induction false} InclusionExclusion(weights: seq<nat>, a: set<nat>, b: set<nat>)
    ensures WeightOf(weights, a) + WeightOf(weights, b) == WeightOf(weights, a + b) + WeightOf(weights, a * b)
  {
    if weights != [] {
      InclusionExclusion(weights[..|weights| - 1], a, b);
    }
  }

  lemma {:induction false} WeightBound(weights: seq<nat>, who: set<nat>)
    ensures WeightOf(weights, who) <= Total(weights)
  {
    if weights != [] {
      WeightBound(weights[..|weights| - 1], who);
    }
  }

  lemma {:induction false} WeightOfOne(weights: seq<nat>, i: nat)
    requires i < |weights|
    ensures WeightOf(weights, {i}) == weights[i]
  {
    if i < |weights| - 1 {
      WeightOfOne(weights[..|weights| - 1], i);
    } else {
      WeightBeyond(weights[..i], {i});
    }
  }

  lemma {:induction false} WeightBeyond(weights: seq<nat>, who: set<nat>)
    requires forall i :: 0 <= i < |weights| ==> i !in who
    ensures WeightOf(weights, who) == 0
  {
    if weights != [] {
      WeightBeyond(weights[..|weights| - 1], who);
    }
  }

  /** The total is the weight of all validators together. */
  lemma {:induction false} TotalIsWeight(weights: seq<nat>, who: set<nat>)
    requires forall i :: 0 <= i < |weights| ==> i in who
    ensures WeightOf(weights, who) == Total(weights)
  {
    if weights != [] {
      TotalIsWeight(weights[..|weights| - 1], who);
    }
  }

  /** The signers common to two accepted proofs weigh more than a third of the subset. */
  lemma QuorumIntersection(a: Signatures, b: Signatures, v: Subset)
    requires Accepted(a, v) && Accepted(b, v)
    ensures 3 * WeightOf(v.weights, a.signers * b.signers) > Total(v.weights)
  {
    InclusionExclusion(v.weights, a.signers, b.signers);
    WeightBound(v.weights, a.signers + b.signers);
  }

  /** So whichever validators are faulty, if they weigh at most a third, some other validator signed both. */
  lemma HonestSignerInBoth(a: Signatures, b: Signatures, v: Subset, faulty: set<nat>)
    requires Accepted(a, v) && Accepted(b, v) && 3 * WeightOf(v.weights, faulty) <= Total(v.weights)
    ensures exists i :: 0 <= i < |v.weights| && i in a.signers && i in b.signers && i !in faulty
  {
    QuorumIntersection(a, b, v);
    SomeOutside(v.weights, a.signers * b.signers, faulty);
  }

  lemma {:induction false} SomeOutside(weights: seq<nat>, a: set<nat>, b: set<nat>)
    requires WeightOf(weights, a) > WeightOf(weights, b)
    ensures exists i :: 0 <= i < |weights| && i in a && i !in b
  {
    var n := |weights| - 1;
    if !(n in a && n !in b) {
      SomeOutside(weights[..n], a, b);
    }
  }

  /** Within 64 bits the overflow checks refuse nothing that exact arithmetic accepts. */
  lemma ChecksAreExact(s: Signatures, v: Subset)
    requires 3 * Total(v.weights) <= U64_MAX
    ensures var weight, total := WeightOf(v.weights, s.signers), Total(v.weights);
      2 * total <= U64_MAX && 3 * weight <= U64_MAX
  {
    WeightBound(v.weights, s.signers);
  }
}
