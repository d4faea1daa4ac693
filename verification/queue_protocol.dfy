/** Applying, committing and clearing diffs. */
module QueueProtocol {
  import Worklists
  import opened Wrappers
  import opened QueueStore

  /** A diff to apply; `first` is the key of its first message, `maxMessage` comes with its statistics. */
  datatype Diff = Diff(id: Id, hash: nat, first: Option<Key>, maxMessage: Key, processedTo: map<Shard, Key>)

  datatype Outcome = Written | Known | Failed

  // --- apply ---

  function Write(s: Store, d: Diff): Store {
    s.(infos := s.infos[d.id := DiffInfo(d.hash, d.maxMessage, d.processedTo)],
       tails := s.tails[TailKey(d.id.shard, d.maxMessage) := d.id.seqno])
  }

  /** The latest stored diff of the shard, where the zone lets the check see it. */
  ghost predicate Latest(s: Store, d: Diff, zone: Option<Zone>, n: nat) {
    zone.Some? && IsLast(s.infos, d.id.shard, n) && Visible(s, Id(d.id.shard, n), zone.value)
  }

  predicate AbovePointer(s: Store, d: Diff) {
    d.first.Some? && d.id.shard in s.pointers ==> s.pointers[d.id.shard].key < d.first.value
  }

  /** When a diff is new, in sequence and above the commit pointer. */
  ghost predicate Acceptable(s: Store, d: Diff, zone: Option<Zone>) {
    d.id !in s.infos && AbovePointer(s, d) && forall n: nat :: Latest(s, d, zone, n) ==> d.id.seqno == n + 1
  }

  /** When a diff is the stored one, or is not above the latest one. */
  ghost predicate Repeated(s: Store, d: Diff, zone: Option<Zone>) {
    if d.id in s.infos then s.infos[d.id].hash == d.hash
    else exists n: nat :: Latest(s, d, zone, n) && d.id.seqno <= n
  }

  ghost predicate ApplyStep(s: Store, s': Store, d: Diff, zone: Option<Zone>, o: Outcome) {
    && (o == Written <==> Acceptable(s, d, zone))
    && (o == Known <==> Repeated(s, d, zone))
    && s' == if o == Written then Write(s, d) else s
  }

  /** Store `s'` has the diff with all it says, and nothing else changed. */
  ghost predicate Stored(s: Store, s': Store, d: Diff) {
    && s'.pointers == s.pointers && s'.lastMc == s.lastMc
    && d.id in s'.infos && TailKey(d.id.shard, d.maxMessage) in s'.tails
    && s'.infos[d.id].hash == d.hash && s'.infos[d.id].maxMessage == d.maxMessage && s'.infos[d.id].processedTo == d.processedTo
    && s'.tails[TailKey(d.id.shard, d.maxMessage)] == d.id.seqno
    && (forall id :: id != d.id ==> (id in s'.infos <==> id in s.infos) && (id in s.infos ==> s'.infos[id] == s.infos[id]))
    && (forall t :: t != TailKey(d.id.shard, d.maxMessage) ==>
          (t in s'.tails <==> t in s.tails) && (t in s.tails ==> s'.tails[t] == s.tails[t]))
  }

  /** A diff fails when another one is stored under its id, when it leaves a gap after the latest one,
    or when its first message is not above what is committed. */
  ghost predicate Refused(s: Store, d: Diff, zone: Option<Zone>) {
    if d.id in s.infos then s.infos[d.id].hash != d.hash
    else && (forall n: nat :: Latest(s, d, zone, n) ==> n < d.id.seqno)
         && (|| (exists n: nat :: Latest(s, d, zone, n) && n + 1 < d.id.seqno)
             || (d.first.Some? && d.id.shard in s.pointers && d.first.value <= s.pointers[d.id.shard].key))
  }

  lemma ApplyOutcome(s: Store, s': Store, d: Diff, zone: Option<Zone>, o: Outcome)
    requires ApplyStep(s, s', d, zone, o)
    ensures o == Failed <==> Refused(s, d, zone)
    ensures if o == Written then Stored(s, s', d) else s' == s
  {
    if n: nat :| Latest(s, d, zone, n) {
      LatestIsUnique(s, d, zone, n);
    }
  }

  lemma LatestIsUnique(s: Store, d: Diff, zone: Option<Zone>, n: nat)
    requires Latest(s, d, zone, n)
    ensures forall m: nat :: Latest(s, d, zone, m) ==> m == n
  {
  }

  method Apply(s: Store, d: Diff, zone: Option<Zone>) returns (s': Store, o: Outcome)
    ensures ApplyStep(s, s', d, zone, o)
    ensures o == Failed <==> Refused(s, d, zone)
    ensures if o == Written then Stored(s, s', d) else s' == s
  {
    s', o := Decide(s, d, zone);
    ApplyOutcome(s, s', d, zone, o);
  }

  method Decide(s: Store, d: Diff, zone: Option<Zone>) returns (s': Store, o: Outcome)
    ensures ApplyStep(s, s', d, zone, o)
  {
    if d.id in s.infos {
      return s, if s.infos[d.id].hash == d.hash then Known else Failed;
    }
    if zone.Some? {
      var last := LastApplied(s.infos, d.id.shard);
      if last.Some? && Visible(s, Id(d.id.shard, last.value), zone.value) {
        assert Latest(s, d, zone, last.value);
        LatestIsUnique(s, d, zone, last.value);
        if d.id.seqno <= last.value {
          return s, Known;
        }
        if d.id.seqno != last.value + 1 {
          return s, Failed;
        }
      }
    }
    if AbovePointer(s, d) {
      return Write(s, d), Written;
    }
    return s, Failed;
  }

  /** A new seqno next to a stored one of its shard, or the shard's first. */
  ghost predicate Adjoins(infos: map<Id, DiffInfo>, id: Id) {
    || NoneOf(infos, id.shard)
    || (id.seqno > 0 && Id(id.shard, id.seqno - 1) in infos)
    || Id(id.shard, id.seqno + 1) in infos
  }

  /** Writing a diff keeps a gap-free shard gap-free exactly when its seqno adjoins what is stored. */
  lemma WriteContiguousIff(s: Store, d: Diff)
    requires Contiguous(s.infos, d.id.shard) && d.id !in s.infos
    ensures Contiguous(Write(s, d).infos, d.id.shard) <==> Adjoins(s.infos, d.id)
  {
    if Adjoins(s.infos, d.id) {
      WriteContiguous(s, d);
    } else {
      WriteGap(s, d);
    }
  }

  lemma WriteContiguous(s: Store, d: Diff)
    requires Contiguous(s.infos, d.id.shard) && d.id !in s.infos && Adjoins(s.infos, d.id)
    ensures Contiguous(Write(s, d).infos, d.id.shard)
  {
    var (shard, after) := (d.id.shard, Write(s, d).infos);
    forall lo: nat, n: nat, hi: nat | Id(shard, lo) in after && Id(shard, hi) in after && lo <= n <= hi
      ensures Id(shard, n) in after
    {
      assert d.id == Id(shard, d.id.seqno);
      assert Id(shard, lo) == d.id || Id(shard, lo) in s.infos;
      assert Id(shard, hi) == d.id || Id(shard, hi) in s.infos;
    }
  }

  lemma WriteGap(s: Store, d: Diff)
    requires d.id !in s.infos && !Adjoins(s.infos, d.id)
    ensures !Contiguous(Write(s, d).infos, d.id.shard)
  {
    var (shard, k, after) := (d.id.shard, d.id.seqno, Write(s, d).infos);
    var m: nat :| Id(shard, m) in s.infos;
    assert d.id == Id(shard, k) && m != k;
    assert Id(shard, m) in after && Id(shard, k) in after;
    if m < k {
      assert m <= k - 1 <= k && Id(shard, k - 1) !in after;
    } else {
      assert k <= k + 1 <= m && Id(shard, k + 1) !in after;
    }
  }

  /** The check over both zones lets only diffs through that adjoin. */
  lemma CheckedAdjoins(s: Store, d: Diff)
    requires Acceptable(s, d, Some(Both))
    ensures Adjoins(s.infos, d.id)
  {
    LastExists(s.infos, d.id.shard);
    if !NoneOf(s.infos, d.id.shard) {
      var last: nat :| IsLast(s.infos, d.id.shard, last);
      assert Latest(s, d, Some(Both), last);
    }
  }

  /** With the check over both zones, applying leaves no gap in any shard. */
  lemma ApplyContiguous(s: Store, s': Store, d: Diff, o: Outcome, shard: Shard)
    requires ApplyStep(s, s', d, Some(Both), o) && Contiguous(s.infos, shard)
    ensures Contiguous(s'.infos, shard)
  {
    if o == Written && shard == d.id.shard {
      CheckedAdjoins(s, d);
      WriteContiguous(s, d);
    }
  }

  /** Applying the same diff again changes nothing and only repeats a failure. */
  lemma ApplyTwice(s: Store, s1: Store, s2: Store, d: Diff, zone: Option<Zone>, o1: Outcome, o2: Outcome)
    requires ApplyStep(s, s1, d, zone, o1) && ApplyStep(s1, s2, d, zone, o2)
    ensures s2 == s1 && o2 == if o1 == Failed then Failed else Known
  {
  }

  lemma LastExists(infos: map<Id, DiffInfo>, shard: Shard)
    ensures NoneOf(infos, shard) || exists n: nat :: IsLast(infos, shard, n)
  {
    var ids := set id | id in infos && id.shard == shard :: id.seqno;
    assert forall id :: id in infos && id.shard == shard ==> id.seqno in ids;
    if ids == {} {
      assert forall m: nat :: Id(shard, m).shard == shard;
    } else {
      var n := Greatest(ids);
      var id :| id in infos && id.shard == shard && id.seqno == n;
      assert id == Id(shard, n);
      forall m: nat | Id(shard, m) in infos
        ensures m <= n
      {
        assert Id(shard, m).seqno in ids;
      }
      assert IsLast(infos, shard, n);
    }
  }

  lemma Greatest(ids: set<nat>) returns (n: nat)
    requires ids != {}
    ensures n in ids && forall m :: m in ids ==> m <= n
    decreases |ids|
  {
    var x :| x in ids;
    if ids == {x} {
      n := x;
    } else {
      var m := Greatest(ids - {x});
      n := if m < x then x else m;
      assert forall y :: y in ids ==> y == x || y in ids - {x};
    }
  }

  // --- clear ---

  /** Where clearing a shard starts: after its commit pointer, or at the bottom when nothing was ever committed. */
  function ClearFrom(s: Store, topShards: set<Shard>, shard: Shard): Option<Key> {
    if s.pointers != map[] then
      if shard in s.pointers then Some(NextKey(s.pointers[shard].key)) else None
    else if shard in topShards then Some(0) else None
  }

  ghost predicate GoesAway(s: Store, topShards: set<Shard>, shards: set<Shard>, id: Id) {
    && id.shard in shards && ClearFrom(s, topShards, id.shard).Some?
    && Goes(s, id.shard, ClearFrom(s, topShards, id.shard).value, MAX_KEY, id)
  }

  predicate TailGoes(s: Store, topShards: set<Shard>, shards: set<Shard>, t: TailKey) {
    && t.shard in shards && ClearFrom(s, topShards, t.shard).Some?
    && ClearFrom(s, topShards, t.shard).value <= t.key
  }

  /** The given shards are cleared, the others untouched. */
  ghost predicate Cleared(s: Store, s': Store, topShards: set<Shard>, shards: set<Shard>) {
    && s'.pointers == s.pointers && s'.lastMc == s.lastMc
    && (forall t :: t in s'.tails <==> t in s.tails && !TailGoes(s, topShards, shards, t))
    && (forall t :: t in s'.tails ==> s'.tails[t] == s.tails[t])
    && (forall id :: id in s'.infos <==> id in s.infos && !GoesAway(s, topShards, shards, id))
    && (forall id :: id in s'.infos ==> s'.infos[id] == s.infos[id])
  }

  function Named(s: Store, topShards: set<Shard>): set<Shard> {
    if s.pointers != map[] then s.pointers.Keys else topShards
  }

  /** Where a clear leaves a key alone: in shards that are not named, or at or below the commit pointer of their shard. */
  ghost predicate Spared(s: Store, topShards: set<Shard>, shard: Shard, key: Key) {
    if s.pointers == map[] then shard !in topShards
    else shard !in s.pointers || (key <= s.pointers[shard].key && key < MAX_KEY)
  }

  /** The tails that a clear takes name seqnos on both sides of the diff, and not zero alone. */
  ghost predicate Enclosed(s: Store, s': Store, id: Id) {
    exists lo, hi, x :: TailLost(s, s', id.shard, lo) && TailLost(s, s', id.shard, hi) && TailLost(s, s', id.shard, x)
      && s.tails[lo] <= id.seqno <= s.tails[hi] && 0 < s.tails[x]
  }

  ghost predicate TailLost(s: Store, s': Store, shard: Shard, t: TailKey) {
    t in s.tails && t !in s'.tails && t.shard == shard
  }

  /** A whole clear, with any keys: what it takes of the tails, and the diffs that these enclose. */
  ghost predicate ClearedOut(s: Store, s': Store, topShards: set<Shard>) {
    && s'.pointers == s.pointers && s'.lastMc == s.lastMc
    && (forall t :: t in s'.tails <==> t in s.tails && Spared(s, topShards, t.shard, t.key))
    && (forall t :: t in s'.tails ==> s'.tails[t] == s.tails[t])
    && (forall id :: id in s'.infos <==> id in s.infos && !Enclosed(s, s', id))
    && (forall id :: id in s'.infos ==> s'.infos[id] == s.infos[id])
  }

  lemma SparedTails(s: Store, topShards: set<Shard>, t: TailKey)
    ensures TailGoes(s, topShards, Named(s, topShards), t) <==> !Spared(s, topShards, t.shard, t.key)
  {
  }

  lemma LostAt(s: Store, s': Store, topShards: set<Shard>, shard: Shard, t: TailKey)
    requires Cleared(s, s', topShards, Named(s, topShards)) && shard in Named(s, topShards)
    ensures TailLost(s, s', shard, t) <==>
      t in s.tails && t.shard == shard && ClearFrom(s, topShards, shard).value <= t.key <= MAX_KEY
  {
  }

  lemma EnclosedIsGoing(s: Store, s': Store, topShards: set<Shard>, id: Id, from: Key)
    requires Cleared(s, s', topShards, Named(s, topShards)) && id.shard in Named(s, topShards)
    requires ClearFrom(s, topShards, id.shard) == Some(from) && Enclosed(s, s', id)
    ensures Goes(s, id.shard, from, MAX_KEY, id)
  {
    var shard := id.shard;
    var lo, hi, x :| TailLost(s, s', shard, lo) && TailLost(s, s', shard, hi) && TailLost(s, s', shard, x)
      && s.tails[lo] <= id.seqno <= s.tails[hi] && 0 < s.tails[x];
    LostAt(s, s', topShards, shard, lo);
    LostAt(s, s', topShards, shard, hi);
    LostAt(s, s', topShards, shard, x);
    GoesBetween(s, from, id, lo, hi, x);
  }

  lemma GoesBetween(s: Store, from: Key, id: Id, lo: TailKey, hi: TailKey, x: TailKey)
    requires lo in s.tails && lo.shard == id.shard && from <= lo.key && s.tails[lo] <= id.seqno
    requires hi in s.tails && hi.shard == id.shard && from <= hi.key && id.seqno <= s.tails[hi]
    requires x in s.tails && x.shard == id.shard && from <= x.key && 0 < s.tails[x]
    ensures Goes(s, id.shard, from, MAX_KEY, id)
  {
    assert InRange(s, id.shard, from, MAX_KEY, s.tails[lo]) && InRange(s, id.shard, from, MAX_KEY, s.tails[hi]);
    assert InRange(s, id.shard, from, MAX_KEY, s.tails[x]);
  }

  lemma IsEnclosed(s: Store, s': Store, id: Id, lo: TailKey, hi: TailKey, x: TailKey)
    requires TailLost(s, s', id.shard, lo) && TailLost(s, s', id.shard, hi) && TailLost(s, s', id.shard, x)
    requires s.tails[lo] <= id.seqno <= s.tails[hi] && 0 < s.tails[x]
    ensures Enclosed(s, s', id)
  {
  }

  lemma LostTail(s: Store, s': Store, topShards: set<Shard>, id: Id, from: Key, side: nat) returns (t: TailKey)
    requires Cleared(s, s', topShards, Named(s, topShards)) && id.shard in Named(s, topShards)
    requires ClearFrom(s, topShards, id.shard) == Some(from) && Goes(s, id.shard, from, MAX_KEY, id)
    ensures TailLost(s, s', id.shard, t)
    ensures if side == 0 then s.tails[t] <= id.seqno else if side == 1 then id.seqno <= s.tails[t] else 0 < s.tails[t]
  {
    t := TailNaming(s, id.shard, from, id, side);
    LostAt(s, s', topShards, id.shard, t);
  }

  lemma GoingIsEnclosed(s: Store, s': Store, topShards: set<Shard>, id: Id, from: Key)
    requires Cleared(s, s', topShards, Named(s, topShards)) && id.shard in Named(s, topShards)
    requires ClearFrom(s, topShards, id.shard) == Some(from) && Goes(s, id.shard, from, MAX_KEY, id)
    ensures Enclosed(s, s', id)
  {
    var lo := LostTail(s, s', topShards, id, from, 0);
    var hi := LostTail(s, s', topShards, id, from, 1);
    var x := LostTail(s, s', topShards, id, from, 2);
    IsEnclosed(s, s', id, lo, hi, x);
  }

  /** A tail of the range whose seqno is at or below that of a diff that goes, at or above it, or above zero. */
  lemma TailNaming(s: Store, shard: Shard, from: Key, id: Id, side: nat) returns (t: TailKey)
    requires Goes(s, shard, from, MAX_KEY, id)
    ensures t in s.tails && t.shard == shard && from <= t.key <= MAX_KEY
    ensures if side == 0 then s.tails[t] <= id.seqno else if side == 1 then id.seqno <= s.tails[t] else 0 < s.tails[t]
  {
    var n: nat :| InRange(s, shard, from, MAX_KEY, n)
      && if side == 0 then n <= id.seqno else if side == 1 then id.seqno <= n else 0 < n;
    t :| t in s.tails && t.shard == shard && from <= t.key <= MAX_KEY && s.tails[t] == n;
  }

  lemma NoneLost(s: Store, s': Store, topShards: set<Shard>, id: Id)
    requires Cleared(s, s', topShards, Named(s, topShards)) && id.shard !in Named(s, topShards)
    ensures !Enclosed(s, s', id)
  {
  }

  lemma ClearedIsOut(s: Store, s': Store, topShards: set<Shard>)
    requires Cleared(s, s', topShards, Named(s, topShards))
    ensures ClearedOut(s, s', topShards)
  {
    forall t
      ensures TailGoes(s, topShards, Named(s, topShards), t) <==> !Spared(s, topShards, t.shard, t.key)
    {
      SparedTails(s, topShards, t);
    }
    forall id
      ensures GoesAway(s, topShards, Named(s, topShards), id) <==> Enclosed(s, s', id)
    {
      if id.shard in Named(s, topShards) {
        var from := ClearFrom(s, topShards, id.shard).value;
        if Goes(s, id.shard, from, MAX_KEY, id) {
          GoingIsEnclosed(s, s', topShards, id, from);
        } else if Enclosed(s, s', id) {
          EnclosedIsGoing(s, s', topShards, id, from);
        }
      } else {
        NoneLost(s, s', topShards, id);
      }
    }
  }

  lemma GoesAwayByKey(s: Store, topShards: set<Shard>, id: Id)
    requires Ordered(s) && Matched(s) && id in s.infos
    ensures GoesAway(s, topShards, Named(s, topShards), id) <==> !Spared(s, topShards, id.shard, s.infos[id].maxMessage)
  {
    SparedTails(s, topShards, TailKey(id.shard, s.infos[id].maxMessage));
    if id.shard in Named(s, topShards) {
      GoesByKey(s, id.shard, ClearFrom(s, topShards, id.shard).value, MAX_KEY, id);
    }
  }

  /** With rising keys a diff stays exactly when its last key is spared. */
  lemma ClearByKey(s: Store, s': Store, topShards: set<Shard>, id: Id)
    requires Ordered(s) && Matched(s) && Cleared(s, s', topShards, Named(s, topShards)) && id in s.infos
    ensures id in s'.infos <==> Spared(s, topShards, id.shard, s.infos[id].maxMessage)
  {
    GoesAwayByKey(s, topShards, id);
  }

  lemma SameRange(s: Store, s': Store, shard: Shard, from: Key)
    requires forall t: TailKey :: t.shard == shard ==> (t in s'.tails <==> t in s.tails)
    requires forall t: TailKey :: t.shard == shard && t in s.tails ==> s'.tails[t] == s.tails[t]
    ensures forall n: nat :: InRange(s', shard, from, MAX_KEY, n) <==> InRange(s, shard, from, MAX_KEY, n)
    ensures forall id :: Goes(s', shard, from, MAX_KEY, id) <==> Goes(s, shard, from, MAX_KEY, id)
  {
    forall n: nat
      ensures InRange(s', shard, from, MAX_KEY, n) <==> InRange(s, shard, from, MAX_KEY, n)
    {
      if InRange(s, shard, from, MAX_KEY, n) {
        var t :| t in s.tails && t.shard == shard && from <= t.key <= MAX_KEY && s.tails[t] == n;
        assert t in s'.tails && s'.tails[t] == n;
      }
      if InRange(s', shard, from, MAX_KEY, n) {
        var t :| t in s'.tails && t.shard == shard && from <= t.key <= MAX_KEY && s'.tails[t] == n;
        assert t in s.tails && s.tails[t] == n;
      }
    }
  }

  lemma GoesAwayOneMore(s: Store, topShards: set<Shard>, done: set<Shard>, shard: Shard, id: Id)
    requires ClearFrom(s, topShards, shard).Some?
    ensures GoesAway(s, topShards, done + {shard}, id) <==>
      GoesAway(s, topShards, done, id) || Goes(s, shard, ClearFrom(s, topShards, shard).value, MAX_KEY, id)
  {
  }

  lemma ClearedOneMore(s: Store, s1: Store, s2: Store, topShards: set<Shard>, done: set<Shard>, shard: Shard)
    requires Cleared(s, s1, topShards, done) && shard !in done && ClearFrom(s, topShards, shard).Some?
    requires Deleted(s1, s2, shard, ClearFrom(s, topShards, shard).value, MAX_KEY)
    ensures Cleared(s, s2, topShards, done + {shard})
  {
    var from := ClearFrom(s, topShards, shard).value;
    SameRange(s, s1, shard, from);
    forall id
      ensures id in s2.infos <==> id in s.infos && !GoesAway(s, topShards, done + {shard}, id)
    {
      GoesAwayOneMore(s, topShards, done, shard, id);
      assert Goes(s1, shard, from, MAX_KEY, id) <==> Goes(s, shard, from, MAX_KEY, id);
    }
    forall t
      ensures t in s2.tails <==> t in s.tails && !TailGoes(s, topShards, done + {shard}, t)
    {
      assert TailGoes(s, topShards, done + {shard}, t) <==>
        TailGoes(s, topShards, done, t) || (t.shard == shard && from <= t.key <= MAX_KEY);
    }
  }

  method ClearShard(s: Store, s1: Store, topShards: set<Shard>, ghost done: set<Shard>, shard: Shard) returns (s2: Store)
    requires Cleared(s, s1, topShards, done) && shard !in done && shard in Named(s, topShards)
    ensures Cleared(s, s2, topShards, done + {shard})
  {
    var from := ClearFrom(s, topShards, shard);
    ghost var span;
    s2, span := Delete(s1, shard, from.value, MAX_KEY);
    ClearedOneMore(s, s1, s2, topShards, done, shard);
  }

  /** Removes what lies above the commit pointers; with no partitions given there is nothing to clear. */
  method Clear(s: Store, partitions: set<nat>, topShards: set<Shard>) returns (s': Store)
    ensures partitions == {} ==> s' == s
    ensures partitions != {} ==> Cleared(s, s', topShards, Named(s, topShards)) && ClearedOut(s, s', topShards)
  {
    s' := s;
    if partitions == {} {
      return;
    }
    s' := ClearShards(s, topShards, Named(s, topShards));
  }

  method ClearShards(s: Store, topShards: set<Shard>, shards: set<Shard>) returns (s': Store)
    requires shards == Named(s, topShards)
    ensures Cleared(s, s', topShards, shards) && ClearedOut(s, s', topShards)
  {
    s' := s;
    ClearedNone(s, topShards);
    var todo := shards;
    Worklists.NoneDone(shards);
    while todo != {}
      invariant todo <= shards && Cleared(s, s', topShards, shards - todo)
      decreases |todo|
    {
      var shard :| shard in todo;
      Worklists.OneMore(shards, todo, shard);
      s' := ClearShard(s, s', topShards, shards - todo, shard);
      todo := todo - {shard};
    }
    Worklists.AllDone(shards);
    ClearedIsOut(s, s', topShards);
  }

  lemma ClearedNone(s: Store, topShards: set<Shard>)
    ensures Cleared(s, s, topShards, {})
  {
  }

  /** Clearing keeps a gap-free shard gap-free exactly when what it names of the shard reaches one end. */
  lemma ClearContiguousIff(s: Store, s': Store, topShards: set<Shard>, shards: set<Shard>, shard: Shard)
    requires Contiguous(s.infos, shard) && Cleared(s, s', topShards, shards)
    ensures Contiguous(s'.infos, shard) <==> ClearReachesEnd(s, topShards, shards, shard)
  {
    var from := ClearFrom(s, topShards, shard);
    if shard in shards && from.Some? {
      assert Thinned(s, s'.infos, shard, from.value, MAX_KEY);
      if ReachesEnd(s, shard, from.value, MAX_KEY) {
        ThinnedContiguous(s, s'.infos, shard, from.value, MAX_KEY);
      } else {
        ThinnedGap(s, s'.infos, shard, from.value, MAX_KEY);
      }
    } else {
      assert forall n: nat :: Id(shard, n) in s'.infos <==> Id(shard, n) in s.infos;
    }
  }

  ghost predicate ClearReachesEnd(s: Store, topShards: set<Shard>, shards: set<Shard>, shard: Shard) {
    var from := ClearFrom(s, topShards, shard);
    shard in shards && from.Some? ==> ReachesEnd(s, shard, from.value, MAX_KEY)
  }
}
