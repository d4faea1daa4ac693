/** The diff store behind the internal queue: diff infos, diff tails and commit pointers. */
module QueueStore {
  import opened Wrappers

  type Shard = nat

  // Queue keys by their rank, out of 320 bits; zero is the default key.
  const MAX_KEY: nat :=
    0xFFFF_FFFF_FFFF_FFFF_FFFF_FFFF_FFFF_FFFF_FFFF_FFFF_FFFF_FFFF_FFFF_FFFF_FFFF_FFFF_FFFF_FFFF_FFFF_FFFF

  type Key = k: nat | k <= MAX_KEY

  function NextKey(k: Key): Key {
    if k == MAX_KEY then k else k + 1
  }

  datatype Id = Id(shard: Shard, seqno: nat)

  datatype TailKey = TailKey(shard: Shard, key: Key)

  datatype DiffInfo = DiffInfo(hash: nat, maxMessage: Key, processedTo: map<Shard, Key>)

  datatype Pointer = Pointer(key: Key, seqno: nat)

  datatype Zone = Committed | Uncommitted | Both

  /** `lastMc` is the masterchain block of the last commit. */
  datatype Store = Store(
    infos: map<Id, DiffInfo>,
    tails: map<TailKey, nat>,
    pointers: map<Shard, Pointer>,
    lastMc: Option<Id>)

  const EMPTY := Store(map[], map[], map[], None)

  /** Which zone a stored diff lies in, by its shard's commit pointer. */
  predicate Visible(s: Store, id: Id, zone: Zone)
    requires id in s.infos
  {
    match zone
    case Both => true
    case Committed => id.shard in s.pointers && s.infos[id].maxMessage <= s.pointers[id.shard].key
    case Uncommitted => id.shard in s.pointers ==> s.pointers[id.shard].key < s.infos[id].maxMessage
  }

  // --- the latest diff of a shard ---

  ghost predicate IsLast(infos: map<Id, DiffInfo>, shard: Shard, n: nat) {
    Id(shard, n) in infos && forall m: nat :: Id(shard, m) in infos ==> m <= n
  }

  ghost predicate NoneOf(infos: map<Id, DiffInfo>, shard: Shard) {
    forall m: nat :: Id(shard, m) !in infos
  }

  method LastApplied(infos: map<Id, DiffInfo>, shard: Shard) returns (r: Option<nat>)
    ensures r.Some? ==> IsLast(infos, shard, r.value)
    ensures r.None? ==> NoneOf(infos, shard)
  {
    r := None;
    var todo := infos.Keys;
    while todo != {}
      invariant todo <= infos.Keys
      invariant r.Some? ==> Id(shard, r.value) in infos
      invariant forall m: nat :: Id(shard, m) in infos && Id(shard, m) !in todo ==> r.Some? && m <= r.value
      decreases |todo|
    {
      var id :| id in todo;
      if id.shard == shard && (r.None? || r.value < id.seqno) {
        r := Some(id.seqno);
      }
      todo := todo - {id};
    }
  }

  // --- deleting a range of keys ---

  /** The seqnos named by a shard's tails in a closed key range. */
  ghost predicate InRange(s: Store, shard: Shard, from: Key, to: Key, n: nat) {
    exists t :: t in s.tails && t.shard == shard && from <= t.key <= to && s.tails[t] == n
  }

  /** A diff goes when it lies between two seqnos named in the range, unless seqno zero is all that is named. */
  ghost predicate Goes(s: Store, shard: Shard, from: Key, to: Key, id: Id) {
    && id.shard == shard
    && (exists lo: nat :: InRange(s, shard, from, to, lo) && lo <= id.seqno)
    && (exists hi: nat :: InRange(s, shard, from, to, hi) && id.seqno <= hi)
    && (exists x: nat :: InRange(s, shard, from, to, x) && 0 < x)
  }

  ghost predicate Deleted(s: Store, s': Store, shard: Shard, from: Key, to: Key) {
    && s'.pointers == s.pointers && s'.lastMc == s.lastMc
    && (forall t :: t in s'.tails <==> t in s.tails && !(t.shard == shard && from <= t.key <= to))
    && (forall t :: t in s'.tails ==> s'.tails[t] == s.tails[t])
    && (forall id :: id in s'.infos <==> id in s.infos && !Goes(s, shard, from, to, id))
    && (forall id :: id in s'.infos ==> s'.infos[id] == s.infos[id])
  }

  /** The least and greatest seqno named in the range. */
  type Span = Option<(nat, nat)>

  ghost predicate Spans(s: Store, shard: Shard, from: Key, to: Key, span: Span) {
    && (span.None? ==> forall n: nat :: !InRange(s, shard, from, to, n))
    && (span.Some? ==> InRange(s, shard, from, to, span.value.0) && InRange(s, shard, from, to, span.value.1))
    && (span.Some? ==> forall n: nat :: InRange(s, shard, from, to, n) ==> span.value.0 <= n <= span.value.1)
  }

  /** The span takes the seqno: it lies between both ends, and zero is not all there is. */
  predicate Within(span: Span, n: nat) {
    span.Some? && span.value.1 != 0 && span.value.0 <= n <= span.value.1
  }

  /** The tails of the range are gone, and with them the diffs of a span that may have been read from an older store. */
  ghost predicate Erased(s: Store, s': Store, shard: Shard, from: Key, to: Key, span: Span) {
    && s'.pointers == s.pointers && s'.lastMc == s.lastMc
    && (forall t :: t in s'.tails <==> t in s.tails && !(t.shard == shard && from <= t.key <= to))
    && (forall t :: t in s'.tails ==> s'.tails[t] == s.tails[t])
    && (forall id :: id in s'.infos <==> id in s.infos && !(id.shard == shard && Within(span, id.seqno)))
    && (forall id :: id in s'.infos ==> s'.infos[id] == s.infos[id])
  }

  /** Reads the span of a range. */
  method CollectSeqnos(s: Store, shard: Shard, from: Key, to: Key) returns (span: Span)
    ensures Spans(s, shard, from, to, span)
  {
    span := None;
    var todo := s.tails.Keys;
    while todo != {}
      invariant todo <= s.tails.Keys
      invariant span.Some? ==> InRange(s, shard, from, to, span.value.0) && InRange(s, shard, from, to, span.value.1)
      invariant forall t :: t in s.tails && t !in todo && t.shard == shard && from <= t.key <= to ==>
        span.Some? && span.value.0 <= s.tails[t] <= span.value.1
      decreases |todo|
    {
      var t :| t in todo;
      if t.shard == shard && from <= t.key <= to {
        var n := s.tails[t];
        assert InRange(s, shard, from, to, n);
        span := match span
          case None => Some((n, n))
          case Some((lo, hi)) => Some((if n < lo then n else lo, if hi < n then n else hi));
      }
      todo := todo - {t};
    }
  }

  /** Writes what a read has planned. */
  method Erase(s: Store, shard: Shard, from: Key, to: Key, span: Span) returns (s': Store)
    ensures Erased(s, s', shard, from, to, span)
  {
    var tails := map t | t in s.tails && !(t.shard == shard && from <= t.key <= to) :: s.tails[t];
    var infos := map id | id in s.infos && !(id.shard == shard && Within(span, id.seqno)) :: s.infos[id];
    s' := Store(infos, tails, s.pointers, s.lastMc);
  }

  /** Read and written in one go. */
  method Delete(s: Store, shard: Shard, from: Key, to: Key) returns (s': Store, ghost span: Span)
    ensures Deleted(s, s', shard, from, to)
    ensures Spans(s, shard, from, to, span) && Erased(s, s', shard, from, to, span)
  {
    var read := CollectSeqnos(s, shard, from, to);
    span := read;
    s' := Erase(s, shard, from, to, read);
    FreshSpanDeletes(s, s', shard, from, to, span);
  }

  lemma SpanGoes(s: Store, shard: Shard, from: Key, to: Key, span: Span, id: Id)
    requires Spans(s, shard, from, to, span)
    ensures Goes(s, shard, from, to, id) <==> id.shard == shard && Within(span, id.seqno)
  {
    if id.shard == shard && Within(span, id.seqno) {
      assert InRange(s, shard, from, to, span.value.0) && InRange(s, shard, from, to, span.value.1);
    }
  }

  /** With a span read from the same store, writing is deleting. */
  lemma FreshSpanDeletes(s: Store, s': Store, shard: Shard, from: Key, to: Key, span: Span)
    requires Spans(s, shard, from, to, span)
    ensures Erased(s, s', shard, from, to, span) <==> Deleted(s, s', shard, from, to)
  {
    forall id
      ensures Goes(s, shard, from, to, id) <==> id.shard == shard && Within(span, id.seqno)
    {
      SpanGoes(s, shard, from, to, span, id);
    }
  }

  // --- contiguity ---

  /** The stored seqnos of a shard have no gap. */
  ghost predicate Contiguous(infos: map<Id, DiffInfo>, shard: Shard) {
    forall lo: nat, n: nat, hi: nat ::
      Id(shard, lo) in infos && Id(shard, hi) in infos && lo <= n <= hi ==> Id(shard, n) in infos
  }

  ghost predicate GapFree(infos: map<Id, DiffInfo>) {
    forall shard :: Contiguous(infos, shard)
  }

  /** What a key range names of a shard reaches one end of what is stored: the lowest seqnos, or the highest,
    or it names nothing above zero at all. */
  ghost predicate ReachesEnd(s: Store, shard: Shard, from: Key, to: Key) {
    || (forall x: nat :: InRange(s, shard, from, to, x) ==> x == 0)
    || (forall m: nat :: Id(shard, m) in s.infos ==> exists lo: nat :: InRange(s, shard, from, to, lo) && lo <= m)
    || (forall m: nat :: Id(shard, m) in s.infos ==> exists hi: nat :: InRange(s, shard, from, to, hi) && m <= hi)
  }

  /** The shard without the diffs that go. */
  ghost predicate Thinned(s: Store, infos: map<Id, DiffInfo>, shard: Shard, from: Key, to: Key) {
    forall n: nat :: Id(shard, n) in infos <==> Id(shard, n) in s.infos && !Goes(s, shard, from, to, Id(shard, n))
  }

  lemma ThinnedContiguous(s: Store, infos: map<Id, DiffInfo>, shard: Shard, from: Key, to: Key)
    requires Contiguous(s.infos, shard) && Thinned(s, infos, shard, from, to) && ReachesEnd(s, shard, from, to)
    ensures Contiguous(infos, shard)
  {
    forall lo: nat, n: nat, hi: nat | Id(shard, lo) in infos && Id(shard, hi) in infos && lo <= n <= hi
      ensures Id(shard, n) in infos
    {
      assert Id(shard, n) in s.infos;
    }
  }

  lemma ThinnedGap(s: Store, infos: map<Id, DiffInfo>, shard: Shard, from: Key, to: Key)
    requires Contiguous(s.infos, shard) && Thinned(s, infos, shard, from, to) && !ReachesEnd(s, shard, from, to)
    ensures !Contiguous(infos, shard)
  {
    var x: nat :| InRange(s, shard, from, to, x) && x != 0;
    var a: nat :| Id(shard, a) in s.infos && forall lo: nat :: InRange(s, shard, from, to, lo) ==> a < lo;
    var b: nat :| Id(shard, b) in s.infos && forall hi: nat :: InRange(s, shard, from, to, hi) ==> hi < b;
    assert Id(shard, a) in infos && Id(shard, b) in infos;
    assert Goes(s, shard, from, to, Id(shard, x));
    assert Id(shard, x) !in infos;
  }

  /** Deleting keeps a gap-free shard gap-free exactly when what it names reaches one end of what is stored. */
  lemma DeleteContiguousIff(s: Store, s': Store, shard: Shard, from: Key, to: Key)
    requires Contiguous(s.infos, shard) && Deleted(s, s', shard, from, to)
    ensures Contiguous(s'.infos, shard) <==> ReachesEnd(s, shard, from, to)
  {
    if ReachesEnd(s, shard, from, to) {
      ThinnedContiguous(s, s'.infos, shard, from, to);
    } else {
      ThinnedGap(s, s'.infos, shard, from, to);
    }
  }

  /** A span reaches one end of what is stored of the shard, or takes nothing. */
  ghost predicate SpanReachesEnd(infos: map<Id, DiffInfo>, shard: Shard, span: Span) {
    || span.None? || span.value.1 == 0
    || (forall m: nat :: Id(shard, m) in infos ==> span.value.0 <= m)
    || (forall m: nat :: Id(shard, m) in infos ==> m <= span.value.1)
  }

  /** Writing out any span, read from whatever store, keeps a gap-free shard gap-free exactly when it reaches one end. */
  lemma EraseContiguousIff(s: Store, s': Store, shard: Shard, from: Key, to: Key, span: Span)
    requires Contiguous(s.infos, shard) && Erased(s, s', shard, from, to, span)
    requires span.Some? ==> span.value.0 <= span.value.1
    ensures Contiguous(s'.infos, shard) <==> SpanReachesEnd(s.infos, shard, span)
  {
    if SpanReachesEnd(s.infos, shard, span) {
      EraseContiguous(s, s', shard, from, to, span);
    } else {
      var a: nat :| Id(shard, a) in s.infos && a < span.value.0;
      var b: nat :| Id(shard, b) in s.infos && span.value.1 < b;
      assert Id(shard, a) in s'.infos && Id(shard, b) in s'.infos && Id(shard, span.value.0) !in s'.infos;
    }
  }

  lemma EraseContiguous(s: Store, s': Store, shard: Shard, from: Key, to: Key, span: Span)
    requires Contiguous(s.infos, shard) && Erased(s, s', shard, from, to, span)
    requires SpanReachesEnd(s.infos, shard, span)
    ensures Contiguous(s'.infos, shard)
  {
    forall lo: nat, n: nat, hi: nat | Id(shard, lo) in s'.infos && Id(shard, hi) in s'.infos && lo <= n <= hi
      ensures Id(shard, n) in s'.infos
    {
      assert Id(shard, n) in s.infos;
    }
  }

  // --- stores whose diffs came in order ---

  /** Later diffs of a shard reach higher keys. */
  ghost predicate Ordered(s: Store) {
    forall a, b :: a in s.infos && b in s.infos && a.shard == b.shard && a.seqno < b.seqno ==>
      s.infos[a].maxMessage < s.infos[b].maxMessage
  }

  /** Tails and infos name each other. */
  ghost predicate Matched(s: Store) {
    && (forall id :: id in s.infos ==> HasTail(s, id))
    && (forall t :: t in s.tails ==> HasInfo(s, t))
  }

  ghost predicate HasTail(s: Store, id: Id)
    requires id in s.infos
  {
    var t := TailKey(id.shard, s.infos[id].maxMessage);
    t in s.tails && s.tails[t] == id.seqno && 0 < id.seqno
  }

  ghost predicate HasInfo(s: Store, t: TailKey)
    requires t in s.tails
  {
    var id := Id(t.shard, s.tails[t]);
    id in s.infos && s.infos[id].maxMessage == t.key
  }

  /** Under both, a delete takes exactly the diffs whose last key is in the range. */
  lemma GoesByKey(s: Store, shard: Shard, from: Key, to: Key, id: Id)
    requires Ordered(s) && Matched(s) && id in s.infos
    ensures Goes(s, shard, from, to, id) <==> id.shard == shard && from <= s.infos[id].maxMessage <= to
  {
    if Goes(s, shard, from, to, id) {
      var lo: nat :| InRange(s, shard, from, to, lo) && lo <= id.seqno;
      var hi: nat :| InRange(s, shard, from, to, hi) && id.seqno <= hi;
      NamedInRange(s, shard, from, to, lo);
      NamedInRange(s, shard, from, to, hi);
      assert lo < id.seqno || Id(shard, lo) == id;
      assert id.seqno < hi || Id(shard, hi) == id;
    }
    if id.shard == shard && from <= s.infos[id].maxMessage <= to {
      assert HasTail(s, id);
      var t := TailKey(shard, s.infos[id].maxMessage);
      assert t in s.tails && s.tails[t] == id.seqno;
      assert InRange(s, shard, from, to, id.seqno);
    }
  }

  lemma NamedInRange(s: Store, shard: Shard, from: Key, to: Key, n: nat)
    requires Matched(s) && InRange(s, shard, from, to, n)
    ensures Id(shard, n) in s.infos && from <= s.infos[Id(shard, n)].maxMessage <= to
  {
    var t :| t in s.tails && t.shard == shard && from <= t.key <= to && s.tails[t] == n;
    assert HasInfo(s, t);
  }
}
