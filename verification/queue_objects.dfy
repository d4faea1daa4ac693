/** The queue object, its collections and the runs that its calls make. */
module QueueObjects {
  import Worklists
  import opened Wrappers
  import opened QueueStore
  import QueueProtocol
  import opened QueueCommits
  import opened QueueRuns
  import opened Sequences

  // --- collecting ---

  lemma DeletedSorted(s: Store, s': Store, shard: Shard, end: Key)
    requires Sorted(s) && Deleted(s, s', shard, 0, end)
    ensures Sorted(s')
  {
    var gone := (x: Shard, k: Key) => x == shard && k <= end;
    forall id | id in s.infos
      ensures id in s'.infos <==> !gone(id.shard, s.infos[id].maxMessage)
    {
      GoesByKey(s, shard, 0, end, id);
    }
    TrimmedSorted(s, s', gone);
  }

  /** Nothing but diffs at or below a bound of their shard is gone. */
  ghost predicate Swept(s: Store, s': Store, snapshot: GcRange) {
    && s'.pointers == s.pointers && s'.lastMc == s.lastMc
    && (forall id :: id in s'.infos ==> id in s.infos && s'.infos[id] == s.infos[id])
    && (forall id :: id in s.infos && id !in s'.infos ==> BelowBound(s.infos[id].maxMessage, id.shard, snapshot))
  }

  ghost predicate BelowBound(key: Key, shard: Shard, snapshot: GcRange) {
    exists spot :: spot in snapshot && spot.shard == shard && key <= snapshot[spot].endKey
  }

  lemma SweptOneMore(s: Store, s1: Store, s2: Store, snapshot: GcRange, spot: Spot)
    requires Sorted(s1) && Swept(s, s1, snapshot) && spot in snapshot
    requires Deleted(s1, s2, spot.shard, 0, snapshot[spot].endKey)
    ensures Swept(s, s2, snapshot)
  {
    forall id | id in s1.infos && id !in s2.infos
      ensures BelowBound(s.infos[id].maxMessage, id.shard, snapshot)
    {
      GoesByKey(s1, spot.shard, 0, snapshot[spot].endKey, id);
    }
  }

  /** Nothing at or below the key is left of a shard. */
  ghost predicate CleanTo(s: Store, shard: Shard, key: Key) {
    forall id :: id in s.infos && id.shard == shard ==> key < s.infos[id].maxMessage
  }

  ghost predicate Cleaned(s: Store, watermarks: GcRange, snapshot: GcRange, done: set<Spot>) {
    forall spot :: spot in done && spot in snapshot && CanDelete(watermarks, spot, snapshot[spot]) ==>
      CleanTo(s, spot.shard, snapshot[spot].endKey)
  }

  lemma DeletedIsClean(s: Store, s': Store, shard: Shard, end: Key)
    requires Sorted(s) && Deleted(s, s', shard, 0, end)
    ensures CleanTo(s', shard, end)
  {
    forall id | id in s'.infos && id.shard == shard
      ensures end < s'.infos[id].maxMessage
    {
      GoesByKey(s, shard, 0, end, id);
    }
  }

  lemma StaysClean(s: Store, s': Store, shard: Shard, key: Key)
    requires forall id :: id in s'.infos ==> id in s.infos && s'.infos[id] == s.infos[id]
    requires CleanTo(s, shard, key)
    ensures CleanTo(s', shard, key)
  {
  }

  lemma CleanedOneMore(s: Store, s': Store, watermarks: GcRange, snapshot: GcRange, done: set<Spot>, spot: Spot)
    requires Sorted(s) && Cleaned(s, watermarks, snapshot, done) && spot in snapshot
    requires Deleted(s, s', spot.shard, 0, snapshot[spot].endKey)
    ensures Cleaned(s', watermarks, snapshot, done + {spot})
  {
    forall x | x in done + {spot} && x in snapshot && CanDelete(watermarks, x, snapshot[x])
      ensures CleanTo(s', x.shard, snapshot[x].endKey)
    {
      if x in done {
        StaysClean(s, s', x.shard, snapshot[x].endKey);
      } else {
        DeletedIsClean(s, s', spot.shard, snapshot[spot].endKey);
      }
    }
  }

  /** The watermarks after the spots of `done` have been looked at. */
  ghost predicate Marked(before: GcRange, snapshot: GcRange, done: set<Spot>, after: GcRange) {
    && (forall spot :: spot in after <==> spot in before || (spot in snapshot && spot in done))
    && (forall spot :: spot in after ==>
          if spot in snapshot && spot in done && CanDelete(before, spot, snapshot[spot])
          then after[spot] == snapshot[spot] else spot in before && after[spot] == before[spot])
  }

  /** A moved watermark of `done` has passed the tail. */
  ghost predicate Passed(marks: GcRange, snapshot: GcRange, done: set<Spot>, t: TailKey) {
    exists spot :: spot in done && spot in snapshot && CanDelete(marks, spot, snapshot[spot])
      && spot.shard == t.shard && t.key <= snapshot[spot].endKey
  }

  /** Exactly the tails that were passed are gone; what stays is as it was. */
  ghost predicate Trailed(marks: GcRange, snapshot: GcRange, done: set<Spot>, s: Store, s': Store) {
    && s'.pointers == s.pointers && s'.lastMc == s.lastMc
    && (forall t :: t in s'.tails <==> t in s.tails && !Passed(marks, snapshot, done, t))
    && (forall t :: t in s'.tails ==> s'.tails[t] == s.tails[t])
    && (forall id :: id in s'.infos ==> id in s.infos && s'.infos[id] == s.infos[id])
  }

  /** A collection over the spots of `done`: watermarks rise and what they pass is gone; with rising keys nothing else is
    and no gap appears. */
  ghost predicate Sweep(snapshot: GcRange, done: set<Spot>, s: Store, marks: GcRange, s': Store, marks': GcRange) {
    && Trailed(marks, snapshot, done, s, s') && Marked(marks, snapshot, done, marks')
    && (Sorted(s) ==> Sorted(s') && Swept(s, s', snapshot) && Cleaned(s', marks, snapshot, done))
  }

  lemma SweepNone(snapshot: GcRange, s: Store, marks: GcRange)
    ensures Sweep(snapshot, {}, s, marks, s, marks)
  {
  }

  lemma PassedOneMore(marks: GcRange, snapshot: GcRange, done: set<Spot>, spot: Spot, t: TailKey)
    requires spot in snapshot && CanDelete(marks, spot, snapshot[spot])
    ensures Passed(marks, snapshot, done + {spot}, t) <==>
      Passed(marks, snapshot, done, t) || (t.shard == spot.shard && t.key <= snapshot[spot].endKey)
  {
    if t.shard == spot.shard && t.key <= snapshot[spot].endKey {
      assert spot in done + {spot};
    }
    if Passed(marks, snapshot, done, t) {
      var x :| x in done && x in snapshot && CanDelete(marks, x, snapshot[x])
        && x.shard == t.shard && t.key <= snapshot[x].endKey;
      assert x in done + {spot};
    }
  }

  lemma TrailedOneMore(marks: GcRange, snapshot: GcRange, done: set<Spot>, s: Store, s1: Store, s2: Store, spot: Spot)
    requires Trailed(marks, snapshot, done, s, s1) && spot in snapshot && CanDelete(marks, spot, snapshot[spot])
    requires Deleted(s1, s2, spot.shard, 0, snapshot[spot].endKey)
    ensures Trailed(marks, snapshot, done + {spot}, s, s2)
  {
    forall t
      ensures t in s2.tails <==> t in s.tails && !Passed(marks, snapshot, done + {spot}, t)
    {
      PassedOneMore(marks, snapshot, done, spot, t);
    }
    StillAsBefore(s, s1, s2);
  }

  lemma StillAsBefore(s: Store, s1: Store, s2: Store)
    requires forall id :: id in s1.infos ==> id in s.infos && s1.infos[id] == s.infos[id]
    requires forall id :: id in s2.infos ==> id in s1.infos && s2.infos[id] == s1.infos[id]
    requires forall t :: t in s1.tails ==> t in s.tails && s1.tails[t] == s.tails[t]
    requires forall t :: t in s2.tails ==> t in s1.tails && s2.tails[t] == s1.tails[t]
    ensures forall id :: id in s2.infos ==> id in s.infos && s2.infos[id] == s.infos[id]
    ensures forall t :: t in s2.tails ==> t in s.tails && s2.tails[t] == s.tails[t]
  {
  }

  lemma SweepSkip(snapshot: GcRange, done: set<Spot>, s: Store, marks: GcRange, s1: Store, spot: Spot)
    requires Trailed(marks, snapshot, done, s, s1) && spot in snapshot && !CanDelete(marks, spot, snapshot[spot])
    ensures Trailed(marks, snapshot, done + {spot}, s, s1)
    ensures Cleaned(s1, marks, snapshot, done) ==> Cleaned(s1, marks, snapshot, done + {spot})
  {
    forall t: TailKey
      ensures Passed(marks, snapshot, done + {spot}, t) <==> Passed(marks, snapshot, done, t)
    {
    }
  }

  lemma SweepDeletes(snapshot: GcRange, done: set<Spot>, s: Store, marks: GcRange, s1: Store, s2: Store, spot: Spot)
    requires Trailed(marks, snapshot, done, s, s1) && spot in snapshot && CanDelete(marks, spot, snapshot[spot])
    requires Sorted(s) ==> Sorted(s1) && Swept(s, s1, snapshot) && Cleaned(s1, marks, snapshot, done)
    requires Deleted(s1, s2, spot.shard, 0, snapshot[spot].endKey)
    ensures Trailed(marks, snapshot, done + {spot}, s, s2)
    ensures Sorted(s) ==> Sorted(s2) && Swept(s, s2, snapshot) && Cleaned(s2, marks, snapshot, done + {spot})
  {
    TrailedOneMore(marks, snapshot, done, s, s1, s2, spot);
    if Sorted(s) {
      DeletedSorted(s1, s2, spot.shard, snapshot[spot].endKey);
      SweptOneMore(s, s1, s2, snapshot, spot);
      CleanedOneMore(s1, s2, marks, snapshot, done, spot);
    }
  }

  /** One spot of a collection: read and written in one go if its watermark is behind. */
  ghost predicate SpotSwept(snapshot: GcRange, marks: GcRange, spot: Spot, s1: Store, s2: Store) {
    && spot in snapshot
    && if CanDelete(marks, spot, snapshot[spot])
       then exists span :: ReadAndErased(s1, s2, spot.shard, snapshot[spot].endKey, span)
       else s2 == s1
  }

  ghost predicate ReadAndErased(s: Store, s': Store, shard: Shard, end: Key, span: Span) {
    Spans(s, shard, 0, end, span) && Erased(s, s', shard, 0, end, span)
  }

  method SweepSpot(snapshot: GcRange, ghost done: set<Spot>, ghost s: Store, ghost marks: GcRange,
                   s1: Store, marks1: GcRange, spot: Spot) returns (s2: Store, marks2: GcRange)
    requires Sweep(snapshot, done, s, marks, s1, marks1) && spot in snapshot && spot !in done
    ensures Sweep(snapshot, done + {spot}, s, marks, s2, marks2)
    ensures SpotSwept(snapshot, marks, spot, s1, s2)
  {
    s2, marks2 := s1, marks1;
    MarkedAt(marks, snapshot, done, marks1, spot);
    MarkedOneMore(marks, snapshot, done, marks1, spot);
    if CanDelete(marks1, spot, snapshot[spot]) {
      ghost var span;
      s2, span := Delete(s1, spot.shard, 0, snapshot[spot].endKey);
      assert ReadAndErased(s1, s2, spot.shard, snapshot[spot].endKey, span);
      SweepDeletes(snapshot, done, s, marks, s1, s2, spot);
      marks2 := marks1[spot := snapshot[spot]];
    } else {
      SweepSkip(snapshot, done, s, marks, s1, spot);
    }
  }

  lemma MarkedAt(marks: GcRange, snapshot: GcRange, done: set<Spot>, marks1: GcRange, spot: Spot)
    requires Marked(marks, snapshot, done, marks1) && spot in snapshot && spot !in done
    ensures CanDelete(marks1, spot, snapshot[spot]) <==> CanDelete(marks, spot, snapshot[spot])
  {
  }

  lemma MarkedOneMore(marks: GcRange, snapshot: GcRange, done: set<Spot>, marks1: GcRange, spot: Spot)
    requires Marked(marks, snapshot, done, marks1) && spot in snapshot && spot !in done
    ensures Marked(marks, snapshot, done + {spot},
                   if CanDelete(marks1, spot, snapshot[spot]) then marks1[spot := snapshot[spot]] else marks1)
  {
  }

  // --- a collection spot by spot ---

  lemma EnumeratesOneMore(order: seq<Spot>, spots: set<Spot>, spot: Spot)
    requires Enumerates(order, spots) && spot !in spots
    ensures Enumerates(order + [spot], spots + {spot})
  {
    assert forall i :: 0 <= i < |order| ==> order[i] in order;
  }

  ghost predicate Traced(snapshot: GcRange, marks: GcRange, order: seq<Spot>, stores: seq<Store>) {
    |stores| == |order| + 1 && forall i :: 0 <= i < |order| ==> TracedAt(snapshot, marks, order, stores, i)
  }

  ghost predicate TracedAt(snapshot: GcRange, marks: GcRange, order: seq<Spot>, stores: seq<Store>, i: int) {
    0 <= i < |order| && i + 1 < |stores| && SpotSwept(snapshot, marks, order[i], stores[i], stores[i + 1])
  }

  lemma TracedOneMore(snapshot: GcRange, marks: GcRange, order: seq<Spot>, stores: seq<Store>, spot: Spot, s: Store)
    requires Traced(snapshot, marks, order, stores) && SpotSwept(snapshot, marks, spot, stores[|order|], s)
    ensures Traced(snapshot, marks, order + [spot], stores + [s])
  {
    var (o, t) := (order + [spot], stores + [s]);
    forall i | 0 <= i < |o|
      ensures TracedAt(snapshot, marks, o, t, i)
    {
      if i < |order| {
        assert TracedAt(snapshot, marks, order, stores, i);
      }
    }
  }

  /** The diff goes with the collection of one spot: it lies between two seqnos that the tails up to the bound name
    when that spot is its turn. */
  ghost predicate GoesAt(snapshot: GcRange, marks: GcRange, order: seq<Spot>, stores: seq<Store>, i: int, id: Id) {
    && 0 <= i < |order| && i < |stores| && order[i] in snapshot && CanDelete(marks, order[i], snapshot[order[i]])
    && id in stores[i].infos && Goes(stores[i], order[i].shard, 0, snapshot[order[i]].endKey, id)
  }

  lemma SpotTells(snapshot: GcRange, marks: GcRange, order: seq<Spot>, stores: seq<Store>, id: Id, i: nat)
    requires TracedAt(snapshot, marks, order, stores, i)
    ensures id in stores[i + 1].infos <==> id in stores[i].infos && !GoesAt(snapshot, marks, order, stores, i, id)
  {
    var spot := order[i];
    if CanDelete(marks, spot, snapshot[spot]) {
      var span :| ReadAndErased(stores[i], stores[i + 1], spot.shard, snapshot[spot].endKey, span);
      SpanGoes(stores[i], spot.shard, 0, snapshot[spot].endKey, span, id);
    }
  }

  ghost predicate NeverGoes(snapshot: GcRange, marks: GcRange, order: seq<Spot>, stores: seq<Store>, id: Id, n: nat) {
    forall i :: i < n ==> !GoesAt(snapshot, marks, order, stores, i, id)
  }

  lemma NeverGoesOneMore(snapshot: GcRange, marks: GcRange, order: seq<Spot>, stores: seq<Store>, id: Id, n: nat)
    ensures NeverGoes(snapshot, marks, order, stores, id, n + 1) <==>
      NeverGoes(snapshot, marks, order, stores, id, n) && !GoesAt(snapshot, marks, order, stores, n, id)
  {
  }

  /** What a collection leaves of the diff infos, with any keys. */
  lemma {:induction false} TraceTells(snapshot: GcRange, marks: GcRange, order: seq<Spot>, stores: seq<Store>, id: Id, n: nat)
    requires Traced(snapshot, marks, order, stores) && n <= |order| && id in stores[0].infos
    ensures id in stores[n].infos <==> NeverGoes(snapshot, marks, order, stores, id, n)
  {
    if n > 0 {
      TraceTells(snapshot, marks, order, stores, id, n - 1);
      assert TracedAt(snapshot, marks, order, stores, n - 1);
      SpotTells(snapshot, marks, order, stores, id, n - 1);
      NeverGoesOneMore(snapshot, marks, order, stores, id, n - 1);
    }
  }

  /** A collection that has done the spots of `done`, in the given order. */
  ghost predicate Collection(snapshot: GcRange, done: set<Spot>, s: Store, marks: GcRange, s': Store, marks': GcRange,
                             order: seq<Spot>, stores: seq<Store>)
  {
    && Sweep(snapshot, done, s, marks, s', marks')
    && Enumerates(order, done) && Traced(snapshot, marks, order, stores)
    && stores[0] == s && stores[|order|] == s'
  }

  lemma CollectionOneMore(snapshot: GcRange, done: set<Spot>, s: Store, marks: GcRange, s1: Store, marks1: GcRange,
                          order: seq<Spot>, stores: seq<Store>, spot: Spot, s2: Store, marks2: GcRange)
    requires Collection(snapshot, done, s, marks, s1, marks1, order, stores) && spot !in done
    requires Sweep(snapshot, done + {spot}, s, marks, s2, marks2) && SpotSwept(snapshot, marks, spot, s1, s2)
    ensures Collection(snapshot, done + {spot}, s, marks, s2, marks2, order + [spot], stores + [s2])
  {
    EnumeratesOneMore(order, done, spot);
    TracedOneMore(snapshot, marks, order, stores, spot, s2);
  }

  method SweepAll(snapshot: GcRange, s: Store, marks: GcRange)
    returns (s': Store, marks': GcRange, ghost order: seq<Spot>, ghost stores: seq<Store>)
    ensures Collection(snapshot, snapshot.Keys, s, marks, s', marks', order, stores)
  {
    s', marks', order, stores := s, marks, [], [s];
    var todo := snapshot.Keys;
    Worklists.NoneDone(snapshot.Keys);
    SweepNone(snapshot, s, marks);
    while todo != {}
      invariant todo <= snapshot.Keys
      invariant Collection(snapshot, snapshot.Keys - todo, s, marks, s', marks', order, stores)
      decreases |todo|
    {
      var spot :| spot in todo;
      Worklists.OneMore(snapshot.Keys, todo, spot);
      ghost var (s1, marks1) := (s', marks');
      s', marks' := SweepSpot(snapshot, snapshot.Keys - todo, s, marks, s', marks', spot);
      CollectionOneMore(snapshot, snapshot.Keys - todo, s, marks, s1, marks1, order, stores, spot, s', marks');
      order, stores := order + [spot], stores + [s'];
      todo := todo - {spot};
    }
    Worklists.AllDone(snapshot.Keys);
  }

  lemma CollectionTells(snapshot: GcRange, s: Store, marks: GcRange, s': Store, marks': GcRange,
                        order: seq<Spot>, stores: seq<Store>)
    requires Collection(snapshot, snapshot.Keys, s, marks, s', marks', order, stores)
    ensures Rises(marks, marks')
    ensures forall id :: id in s.infos ==>
      (id in s'.infos <==> NeverGoes(snapshot, marks, order, stores, id, |order|))
  {
    forall id | id in s.infos
      ensures id in s'.infos <==> NeverGoes(snapshot, marks, order, stores, id, |order|)
    {
      TraceTells(snapshot, marks, order, stores, id, |order|);
    }
  }

  // --- the object ---

  function SpotsOf(gc: map<Shard, GcEndKey>, partitions: set<Partition>): set<Spot> {
    set p, shard | p in partitions && shard in gc :: Spot(p, shard)
  }

  /** The bounds after the spots of `done` have been overwritten. */
  ghost predicate Handed(before: GcRange, gc: map<Shard, GcEndKey>, done: set<Spot>, after: GcRange) {
    && (forall spot :: spot in after <==> spot in before || (spot in done && spot.shard in gc))
    && (forall spot :: spot in after ==>
          after[spot] == if spot in done && spot.shard in gc then gc[spot.shard] else before[spot])
  }

  /** Overwrites the bound of every committed shard in every partition. */
  method HandOver(before: GcRange, gc: map<Shard, GcEndKey>, partitions: set<Partition>) returns (after: GcRange)
    ensures Handed(before, gc, SpotsOf(gc, partitions), after)
  {
    after := before;
    var spots := SpotsOf(gc, partitions);
    var todo := spots;
    while todo != {}
      invariant todo <= spots && Handed(before, gc, spots - todo, after)
      decreases |todo|
    {
      var spot :| spot in todo;
      after := after[spot := gc[spot.shard]];
      todo := todo - {spot};
    }
  }

  /** In every given partition the bound of each committed shard is overwritten, and no other. */
  ghost predicate HandedOut(before: GcRange, gc: map<Shard, GcEndKey>, partitions: set<Partition>, after: GcRange) {
    && (forall spot :: spot in after <==> spot in before || (spot.partition in partitions && spot.shard in gc))
    && (forall spot :: spot in after ==>
          after[spot] == if spot.partition in partitions && spot.shard in gc then gc[spot.shard] else before[spot])
  }

  lemma HandedIsOut(before: GcRange, gc: map<Shard, GcEndKey>, partitions: set<Partition>, after: GcRange)
    requires Handed(before, gc, SpotsOf(gc, partitions), after)
    ensures HandedOut(before, gc, partitions, after)
  {
    forall spot ensures spot in SpotsOf(gc, partitions) <==> spot.partition in partitions && spot.shard in gc {
      assert spot == Spot(spot.partition, spot.shard);
    }
  }

  /** Each watermark is the higher one of what it was and the bound of its spot. */
  ghost predicate Raised(before: GcRange, snapshot: GcRange, after: GcRange) {
    && (forall spot :: spot in after <==> spot in before || spot in snapshot)
    && (forall spot :: spot in after ==>
          && (spot in before ==> before[spot].endKey <= after[spot].endKey)
          && (spot in snapshot ==> snapshot[spot].endKey <= after[spot].endKey)
          && (after[spot] == if spot in before && (spot in snapshot ==> after[spot].endKey == before[spot].endKey)
                             then before[spot] else snapshot[spot]))
  }

  /** A tail goes when a bound of its shard that its watermark had not reached lies at or above it. */
  ghost predicate TailPassed(before: GcRange, snapshot: GcRange, t: TailKey) {
    exists spot :: PassedBy(before, snapshot, spot, t)
  }

  ghost predicate PassedBy(before: GcRange, snapshot: GcRange, spot: Spot, t: TailKey) {
    && spot in snapshot && spot.shard == t.shard && t.key <= snapshot[spot].endKey
    && (spot in before ==> before[spot].endKey < snapshot[spot].endKey)
  }

  lemma SweepTells(snapshot: GcRange, s: Store, marks: GcRange, s': Store, marks': GcRange)
    requires Sweep(snapshot, snapshot.Keys, s, marks, s', marks')
    ensures Raised(marks, snapshot, marks')
    ensures forall t :: t in s'.tails <==> t in s.tails && !TailPassed(marks, snapshot, t)
  {
    forall t ensures Passed(marks, snapshot, snapshot.Keys, t) <==> TailPassed(marks, snapshot, t) {
      if Passed(marks, snapshot, snapshot.Keys, t) {
        var spot :| spot in snapshot.Keys && spot in snapshot && CanDelete(marks, spot, snapshot[spot])
          && spot.shard == t.shard && t.key <= snapshot[spot].endKey;
        assert PassedBy(marks, snapshot, spot, t);
      }
    }
  }

  /** A call without partitions clears nothing. */
  ghost predicate ClearedBy(s: Store, s': Store, partitions: set<Partition>, topShards: set<Shard>) {
    if partitions == {} then s' == s
    else && QueueProtocol.Cleared(s, s', topShards, QueueProtocol.Named(s, topShards))
         && QueueProtocol.ClearedOut(s, s', topShards)
  }

  class QueueImpl {
    var store: Store
    var deleteUntil: GcRange
    var watermarks: GcRange

    constructor ()
      ensures store == EMPTY && deleteUntil == map[] && watermarks == map[]
    {
      store, deleteUntil, watermarks := EMPTY, map[], map[];
    }

    method ApplyDiff(d: QueueProtocol.Diff, zone: Option<Zone>) returns (o: QueueProtocol.Outcome)
      modifies this`store
      ensures QueueProtocol.ApplyStep(old(store), store, d, zone, o)
      ensures o == QueueProtocol.Failed <==> QueueProtocol.Refused(old(store), d, zone)
      ensures if o == QueueProtocol.Written then QueueProtocol.Stored(old(store), store, d) else store == old(store)
    {
      store, o := QueueProtocol.Apply(store, d, zone);
    }

    method CommitDiff(blocks: seq<TopBlock>, partitions: set<Partition>) returns (o: Outcome, ghost gc: map<Shard, GcEndKey>)
      modifies this`store, this`deleteUntil
      ensures CommitStep(old(store), store, blocks, gc, o)
      ensures Handed(old(deleteUntil), gc, SpotsOf(gc, partitions), deleteUntil)
      ensures HandedOut(old(deleteUntil), gc, partitions, deleteUntil)
    {
      var s, ranges, outcome := QueueCommits.Commit(store, blocks);
      store, o, gc := s, outcome, ranges;
      ghost var before := deleteUntil;
      deleteUntil := HandOver(deleteUntil, ranges, partitions);
      HandedIsOut(before, ranges, partitions, deleteUntil);
    }

    method ClearUncommitted(partitions: set<Partition>, topShards: set<Shard>)
      modifies this`store
      ensures ClearedBy(old(store), store, partitions, topShards)
    {
      store := QueueProtocol.Clear(store, partitions, topShards);
    }

    /** One collection over a copy of the bounds, in some order. */
    method GcTask(snapshot: GcRange) returns (ghost order: seq<Spot>, ghost stores: seq<Store>)
      modifies this`store, this`watermarks
      ensures Collection(snapshot, snapshot.Keys, old(store), old(watermarks), store, watermarks, order, stores)
      ensures Rises(old(watermarks), watermarks) && Raised(old(watermarks), snapshot, watermarks)
      ensures forall t :: t in store.tails <==> t in old(store).tails && !TailPassed(old(watermarks), snapshot, t)
      ensures forall id :: id in old(store).infos ==>
        (id in store.infos <==> NeverGoes(snapshot, old(watermarks), order, stores, id, |order|))
    {
      ghost var (s, marks) := (store, watermarks);
      store, watermarks, order, stores := SweepAll(snapshot, store, watermarks);
      CollectionTells(snapshot, s, marks, store, watermarks, order, stores);
      SweepTells(snapshot, s, marks, store, watermarks);
    }
  }

  // --- the object's calls are a run ---

  datatype Request =
    | ApplyDiff(diff: QueueProtocol.Diff, zone: Option<Zone>)
    | CommitDiff(blocks: seq<TopBlock>, partitions: set<Partition>)
    | ClearUncommitted(partitions: set<Partition>, topShards: set<Shard>)
    | Collect

  /** Which call a step begins, if any. */
  function CallOf(step: Step): seq<Request> {
    match step
    case Apply(diff, zone) => [ApplyDiff(diff, zone)]
    case Commit(blocks, partitions) => [CommitDiff(blocks, partitions)]
    case Clear(partitions, topShards) => [ClearUncommitted(partitions, topShards)]
    case Tick => [Collect]
    case _ => []
  }

  /** The calls behind a sequence of steps. */
  function Calls(steps: seq<Step>): seq<Request> {
    if steps == [] then [] else Calls(steps[..|steps| - 1]) + CallOf(steps[|steps| - 1])
  }

  lemma CallsOn(steps: seq<Step>, step: Step)
    ensures Calls(steps + [step]) == Calls(steps) + CallOf(step)
  {
    assert (steps + [step])[..|steps|] == steps;
  }

  ghost predicate Path(states: seq<System>, steps: seq<Step>) {
    |states| == |steps| + 1 && forall i :: 0 <= i < |steps| ==> StepAt(states, steps, i)
  }

  /** The steps lead from one system to the other. */
  ghost predicate Leads(x: System, y: System, steps: seq<Step>) {
    exists states :: PathFrom(states, steps, x, y)
  }

  ghost predicate PathFrom(states: seq<System>, steps: seq<Step>, x: System, y: System) {
    Path(states, steps) && states[0] == x && states[|steps|] == y
  }

  lemma LeadsNowhere(x: System)
    ensures Leads(x, x, [])
  {
    assert PathFrom([x], [], x, x);
  }

  lemma LeadsOn(x: System, y: System, z: System, steps: seq<Step>, step: Step)
    requires Leads(x, y, steps) && Next(y, z, step)
    ensures Leads(x, z, steps + [step])
  {
    var states :| PathFrom(states, steps, x, y);
    var (s, t) := (states + [z], steps + [step]);
    forall i | 0 <= i < |t|
      ensures StepAt(s, t, i)
    {
      if i < |steps| {
        assert StepAt(states, steps, i);
      }
    }
    assert PathFrom(s, t, x, z);
  }

  lemma LeadsFromStart(y: System, steps: seq<Step>)
    requires Leads(START, y, steps)
    ensures exists states :: Run(states, steps) && states[|steps|] == y
  {
    var states :| PathFrom(states, steps, START, y);
    assert Run(states, steps);
  }

  /** The object between two calls, as a state of the system. */
  ghost predicate Shows(q: QueueImpl, x: System)
    reads q
  {
    x.store == q.store && x.deleteUntil == q.deleteUntil && x.watermarks == q.watermarks && x.pending == {} && x.plan.None?
  }

  /** The spots whose bounds are still to be handed over. */
  function SpotsLeft(pending: set<Bound>): set<Spot> {
    set b | b in pending :: b.spot
  }

  lemma BoundSpots(gc: map<Shard, GcEndKey>, partitions: set<Partition>)
    ensures SpotsLeft(BoundsOf(gc, partitions)) == SpotsOf(gc, partitions)
  {
    forall spot | spot in SpotsOf(gc, partitions)
      ensures spot in SpotsLeft(BoundsOf(gc, partitions))
    {
      assert Bound(spot, gc[spot.shard]) in BoundsOf(gc, partitions);
    }
  }

  lemma HandedBound(before: GcRange, gc: map<Shard, GcEndKey>, done: set<Spot>, after: GcRange, b: Bound)
    requires Handed(before, gc, done, after) && b.spot.shard in gc && b.end == gc[b.spot.shard]
    ensures Handed(before, gc, done + {b.spot}, after[b.spot := b.end])
  {
  }

  lemma LeftWithout(pending: set<Bound>, b: Bound, gc: map<Shard, GcEndKey>, partitions: set<Partition>)
    requires pending <= BoundsOf(gc, partitions) && b in pending
    ensures SpotsLeft(pending - {b}) == SpotsLeft(pending) - {b.spot}
  {
    forall c | c in pending && c.spot == b.spot
      ensures c == b
    {
    }
    forall spot | spot in SpotsLeft(pending) && spot != b.spot
      ensures spot in SpotsLeft(pending - {b})
    {
      var c :| c in pending && c.spot == spot;
      assert c in pending - {b};
    }
  }

  /** The bounds of a commit handed over one by one, in any order, end where one sweep over them ends. */
  lemma {:induction false} PublishAll(start: System, x: System, steps: seq<Step>, before: GcRange,
                                      gc: map<Shard, GcEndKey>, partitions: set<Partition>)
    returns (y: System, steps': seq<Step>)
    requires Leads(start, x, steps) && x.pending <= BoundsOf(gc, partitions)
    requires Handed(before, gc, SpotsOf(gc, partitions) - SpotsLeft(x.pending), x.deleteUntil)
    ensures Leads(start, y, steps') && y.pending == {}
    ensures y.store == x.store && y.watermarks == x.watermarks && y.plan == x.plan
    ensures Handed(before, gc, SpotsOf(gc, partitions), y.deleteUntil)
    ensures Calls(steps') == Calls(steps)
    decreases |x.pending|
  {
    if x.pending == {} {
      y, steps' := x, steps;
      assert SpotsOf(gc, partitions) - SpotsLeft(x.pending) == SpotsOf(gc, partitions);
    } else {
      var b :| b in x.pending;
      var z := x.(pending := x.pending - {b}, deleteUntil := x.deleteUntil[b.spot := b.end], published := x.published + {b});
      LeadsOn(start, x, z, steps, Publish(b));
      CallsOn(steps, Publish(b));
      HandedBound(before, gc, SpotsOf(gc, partitions) - SpotsLeft(x.pending), x.deleteUntil, b);
      LeftWithout(x.pending, b, gc, partitions);
      SpotBack(SpotsOf(gc, partitions), SpotsLeft(x.pending), b.spot);
      y, steps' := PublishAll(start, z, steps + [Publish(b)], before, gc, partitions);
    }
  }

  lemma SpotBack(all: set<Spot>, left: set<Spot>, spot: Spot)
    requires spot in all && spot in left
    ensures all - left + {spot} == all - (left - {spot})
  {
  }

  lemma HandedOnce(before: GcRange, gc: map<Shard, GcEndKey>, spots: set<Spot>, a: GcRange, b: GcRange)
    requires Handed(before, gc, spots, a) && Handed(before, gc, spots, b)
    ensures a == b
  {
    assert a.Keys == b.Keys;
  }

  lemma MarkedOnce(before: GcRange, snapshot: GcRange, done: set<Spot>, a: GcRange, b: GcRange)
    requires Marked(before, snapshot, done, a) && Marked(before, snapshot, done, b)
    ensures a == b
  {
    assert a.Keys == b.Keys;
  }

  function SpotsIn(order: seq<Spot>): set<Spot> {
    set spot | spot in order
  }

  /** The system while a collection that began with these watermarks has done the first spots of the order. */
  ghost predicate Amid(x: System, snapshot: GcRange, marks: GcRange, order: seq<Spot>, stores: seq<Store>, n: nat) {
    && Traced(snapshot, marks, order, stores) && n <= |order|
    && x.store == stores[n] && x.snapshot == snapshot && x.plan.None? && x.pending == {}
    && Marked(marks, snapshot, SpotsIn(order[..n]), x.watermarks)
  }

  lemma OneSpotLeads(start: System, x: System, steps: seq<Step>, snapshot: GcRange, marks: GcRange,
                     order: seq<Spot>, stores: seq<Store>, n: nat)
    returns (y: System, steps': seq<Step>)
    requires Leads(start, x, steps) && Amid(x, snapshot, marks, order, stores, n) && n < |order|
    requires Enumerates(order, snapshot.Keys)
    ensures Leads(start, y, steps') && Amid(y, snapshot, marks, order, stores, n + 1) && y.deleteUntil == x.deleteUntil
    ensures Calls(steps') == Calls(steps)
  {
    var spot := order[n];
    var done := SpotsIn(order[..n]);
    assert TracedAt(snapshot, marks, order, stores, n);
    assert spot !in done;
    assert order[..n + 1] == order[..n] + [spot];
    assert SpotsIn(order[..n + 1]) == done + {spot};
    MarkedAt(marks, snapshot, done, x.watermarks, spot);
    MarkedOneMore(marks, snapshot, done, x.watermarks, spot);
    if CanDelete(marks, spot, snapshot[spot]) {
      var span :| ReadAndErased(stores[n], stores[n + 1], spot.shard, snapshot[spot].endKey, span);
      y, steps' := SpotErased(start, x, steps, spot, span, stores[n + 1]);
    } else {
      y, steps' := x, steps;
    }
  }

  lemma SpotErased(start: System, x: System, steps: seq<Step>, spot: Spot, span: Span, s: Store)
    returns (y: System, steps': seq<Step>)
    requires Leads(start, x, steps) && x.plan.None? && spot in x.snapshot && CanDelete(x.watermarks, spot, x.snapshot[spot])
    requires ReadAndErased(x.store, s, spot.shard, x.snapshot[spot].endKey, span)
    ensures Leads(start, y, steps')
    ensures y == x.(store := s, watermarks := x.watermarks[spot := x.snapshot[spot]])
    ensures Calls(steps') == Calls(steps)
  {
    CallsOn(steps, Read(spot));
    CallsOn(steps + [Read(spot)], Step.Write);
    var z := x.(plan := Some(Plan(spot, x.snapshot[spot], span)));
    LeadsOn(start, x, z, steps, Read(spot));
    y := x.(store := s, watermarks := x.watermarks[spot := x.snapshot[spot]]);
    assert y == z.(store := s, plan := None, watermarks := z.watermarks[spot := x.snapshot[spot]]);
    steps' := steps + [Read(spot)];
    LeadsOn(start, z, y, steps', Write);
    steps' := steps' + [Write];
  }

  /** A whole collection is a sequence of reads and writes. */
  lemma {:induction false} CollectionLeads(start: System, x: System, steps: seq<Step>, snapshot: GcRange, marks: GcRange,
                                           order: seq<Spot>, stores: seq<Store>, n: nat)
    returns (y: System, steps': seq<Step>)
    requires Leads(start, x, steps) && Amid(x, snapshot, marks, order, stores, n) && Enumerates(order, snapshot.Keys)
    ensures Leads(start, y, steps') && Amid(y, snapshot, marks, order, stores, |order|) && y.deleteUntil == x.deleteUntil
    ensures Calls(steps') == Calls(steps)
    decreases |order| - n
  {
    if n == |order| {
      y, steps' := x, steps;
    } else {
      y, steps' := OneSpotLeads(start, x, steps, snapshot, marks, order, stores, n);
      y, steps' := CollectionLeads(start, y, steps', snapshot, marks, order, stores, n + 1);
    }
  }

  method PerformCommit(q: QueueImpl, blocks: seq<TopBlock>, partitions: set<Partition>,
                       ghost start: System, ghost x: System, ghost steps: seq<Step>)
    returns (ghost y: System, ghost steps': seq<Step>)
    requires Shows(q, x) && Leads(start, x, steps)
    modifies q
    ensures Shows(q, y) && Leads(start, y, steps') && Calls(steps') == Calls(steps) + [CommitDiff(blocks, partitions)]
  {
    CallsOn(steps, Commit(blocks, partitions));
    ghost var before := q.deleteUntil;
    ghost var gc;
    var o;
    o, gc := q.CommitDiff(blocks, partitions);
    ghost var z := x.(store := q.store, pending := BoundsOf(gc, partitions));
    LeadsOn(start, x, z, steps, Commit(blocks, partitions));
    BoundSpots(gc, partitions);
    HandedNone(before, gc, SpotsOf(gc, partitions) - SpotsLeft(z.pending));
    y, steps' := PublishAll(start, z, steps + [Commit(blocks, partitions)], before, gc, partitions);
    HandedOnce(before, gc, SpotsOf(gc, partitions), y.deleteUntil, q.deleteUntil);
  }

  lemma HandedNone(before: GcRange, gc: map<Shard, GcEndKey>, spots: set<Spot>)
    requires spots == {}
    ensures Handed(before, gc, spots, before)
  {
  }

  method PerformCollect(q: QueueImpl, ghost start: System, ghost x: System, ghost steps: seq<Step>)
    returns (ghost y: System, ghost steps': seq<Step>)
    requires Shows(q, x) && Leads(start, x, steps)
    modifies q
    ensures Shows(q, y) && Leads(start, y, steps') && Calls(steps') == Calls(steps) + [Collect]
  {
    CallsOn(steps, Tick);
    var snapshot := q.deleteUntil;
    ghost var (s, marks) := (q.store, q.watermarks);
    ghost var order, stores := q.GcTask(snapshot);
    ghost var z := x.(snapshot := snapshot);
    LeadsOn(start, x, z, steps, Tick);
    AmidStart(z, snapshot, marks, order, stores);
    y, steps' := CollectionLeads(start, z, steps + [Tick], snapshot, marks, order, stores, 0);
    AmidEnd(y, snapshot, marks, order, stores, q.watermarks);
  }

  lemma AmidStart(x: System, snapshot: GcRange, marks: GcRange, order: seq<Spot>, stores: seq<Store>)
    requires Traced(snapshot, marks, order, stores) && x.store == stores[0] && x.snapshot == snapshot
    requires x.plan.None? && x.pending == {} && x.watermarks == marks
    ensures Amid(x, snapshot, marks, order, stores, 0)
  {
    assert SpotsIn(order[..0]) == {};
  }

  lemma AmidEnd(x: System, snapshot: GcRange, marks: GcRange, order: seq<Spot>, stores: seq<Store>, marks': GcRange)
    requires Amid(x, snapshot, marks, order, stores, |order|) && Enumerates(order, snapshot.Keys)
    requires Marked(marks, snapshot, snapshot.Keys, marks')
    ensures x.watermarks == marks'
  {
    assert order[..|order|] == order;
    assert SpotsIn(order) == snapshot.Keys;
    MarkedOnce(marks, snapshot, snapshot.Keys, x.watermarks, marks');
  }

  method PerformApply(q: QueueImpl, diff: QueueProtocol.Diff, zone: Option<Zone>,
                      ghost start: System, ghost x: System, ghost steps: seq<Step>)
    returns (ghost y: System, ghost steps': seq<Step>)
    requires Shows(q, x) && Leads(start, x, steps)
    modifies q
    ensures Shows(q, y) && Leads(start, y, steps') && Calls(steps') == Calls(steps) + [ApplyDiff(diff, zone)]
  {
    var o := q.ApplyDiff(diff, zone);
    y, steps' := x.(store := q.store), steps + [Apply(diff, zone)];
    LeadsOn(start, x, y, steps, Apply(diff, zone));
    CallsOn(steps, Apply(diff, zone));
  }

  lemma LeadsClear(start: System, x: System, steps: seq<Step>, partitions: set<Partition>, topShards: set<Shard>,
                   before: Store, s: Store)
    requires Leads(start, x, steps) && x.pending == {} && x.store == before
    requires ClearedBy(before, s, partitions, topShards)
    ensures Leads(start, x.(store := s), steps + [Clear(partitions, topShards)])
    ensures Calls(steps + [Clear(partitions, topShards)]) == Calls(steps) + [ClearUncommitted(partitions, topShards)]
  {
    LeadsOn(start, x, x.(store := s), steps, Clear(partitions, topShards));
    CallsOn(steps, Clear(partitions, topShards));
  }

  method PerformClear(q: QueueImpl, partitions: set<Partition>, topShards: set<Shard>,
                      ghost start: System, ghost x: System, ghost steps: seq<Step>)
    returns (ghost y: System, ghost steps': seq<Step>)
    requires Shows(q, x) && Leads(start, x, steps)
    modifies q
    ensures Shows(q, y) && Leads(start, y, steps') && Calls(steps') == Calls(steps) + [ClearUncommitted(partitions, topShards)]
  {
    ghost var before := q.store;
    q.ClearUncommitted(partitions, topShards);
    y, steps' := x.(store := q.store), steps + [Clear(partitions, topShards)];
    LeadsClear(start, x, steps, partitions, topShards, before, q.store);
  }

  /** One call on the object is a sequence of steps of the system. */
  method Perform(q: QueueImpl, request: Request, ghost start: System, ghost x: System, ghost steps: seq<Step>)
    returns (ghost y: System, ghost steps': seq<Step>)
    requires Shows(q, x) && Leads(start, x, steps)
    modifies q
    ensures Shows(q, y) && Leads(start, y, steps') && Calls(steps') == Calls(steps) + [request]
  {
    match request {
      case ApplyDiff(diff, zone) =>
        y, steps' := PerformApply(q, diff, zone, start, x, steps);
      case CommitDiff(blocks, partitions) =>
        y, steps' := PerformCommit(q, blocks, partitions, start, x, steps);
      case ClearUncommitted(partitions, topShards) =>
        y, steps' := PerformClear(q, partitions, topShards, start, x, steps);
      case Collect =>
        y, steps' := PerformCollect(q, start, x, steps);
    }
  }

  /** Any calls on a new object form a run with these very calls, so whatever holds in every state of every run holds between them. */
  method PerformAll(requests: seq<Request>) returns (q: QueueImpl, ghost states: seq<System>, ghost steps: seq<Step>)
    ensures fresh(q) && Run(states, steps) && Shows(q, states[|steps|]) && Calls(steps) == requests
  {
    q := new QueueImpl();
    ghost var x := START;
    steps := [];
    LeadsNowhere(START);
    for i := 0 to |requests|
      invariant fresh(q) && Shows(q, x) && Leads(START, x, steps) && Calls(steps) == requests[..i]
    {
      x, steps := Perform(q, requests[i], START, x, steps);
    }
    LeadsFromStart(x, steps);
    states :| Run(states, steps) && states[|steps|] == x;
  }
}
