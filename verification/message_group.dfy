/** A group of messages under construction: grouped queues, slots and the index of slots by size. */
module MessageGroups {
  import opened Messages
  import opened Sequences
  import opened Slots
  import opened Filling
  import opened Wrappers

  /** Inserting into an insertion-ordered set. */
  function Insert(bucket: seq<SlotId>, id: SlotId): seq<SlotId> {
    if id in bucket then bucket else bucket + [id]
  }

  function Retain(bucket: seq<SlotId>, drop: set<SlotId>): seq<SlotId> {
    if bucket == [] then []
    else if bucket[0] in drop then Retain(bucket[1..], drop)
    else [bucket[0]] + Retain(bucket[1..], drop)
  }

  function Bucket(index: SlotIndex, c: nat): seq<SlotId> {
    if c in index then index[c] else []
  }

  function Dropped(remove: map<nat, set<SlotId>>, c: nat): set<SlotId> {
    if c in remove then remove[c] else {}
  }

  lemma {:induction false} RetainMembers(bucket: seq<SlotId>, drop: set<SlotId>)
    ensures forall id :: id in Retain(bucket, drop) <==> id in bucket && id !in drop
    ensures Distinct(bucket) ==> Distinct(Retain(bucket, drop))
  {
    if bucket != [] {
      RetainMembers(bucket[1..], drop);
    }
  }

  /** Listing a slot under one more size, and dropping stale ids, keep the index usable. */
  lemma KnownInsert(index: SlotIndex, slots: SlotMap, c: nat, id: SlotId)
    requires Known(index, slots) && id in slots
    ensures Known(index[c := Insert(Bucket(index, c), id)], slots)
  {
  }

  /** All the slots in `listed` are found under their current size. */
  ghost predicate Listed(index: SlotIndex, slots: SlotMap, listed: set<SlotId>) {
    forall id :: id in listed ==>
      id in slots && slots[id].Size() >= 0 && slots[id].Size() in index && id in index[slots[id].Size()]
  }

  lemma ListedInsert(index: SlotIndex, slots: SlotMap, listed: set<SlotId>, c: nat, id: SlotId)
    requires Listed(index, slots, listed) && id in slots && slots[id].Size() == c
    ensures Listed(index[c := Insert(Bucket(index, c), id)], slots, listed + {id})
  {
  }

  function Pruned(index: SlotIndex, remove: map<nat, set<SlotId>>): SlotIndex {
    map c | c in index.Keys + remove.Keys :: Retain(Bucket(index, c), Dropped(remove, c))
  }

  /** Removing ids from buckets of sizes their slots no longer have keeps the index covering. */
  lemma PrunedCovers(index: SlotIndex, remove: map<nat, set<SlotId>>, slots: SlotMap)
    requires Known(index, slots) && Covers(index, slots)
    requires forall c, id :: c in remove && id in remove[c] && id in slots ==> slots[id].Size() != c
    ensures Known(Pruned(index, remove), slots) && Covers(Pruned(index, remove), slots)
  {
    var pruned := Pruned(index, remove);
    forall c | c in pruned ensures Distinct(pruned[c]) {
      RetainMembers(Bucket(index, c), Dropped(remove, c));
    }
    forall c, id | c in pruned && id in pruned[c] ensures id in slots {
      RetainMembers(Bucket(index, c), Dropped(remove, c));
    }
    forall id | id in slots
      ensures slots[id].Size() >= 0 && slots[id].Size() in pruned && id in pruned[slots[id].Size()]
    {
      RetainMembers(Bucket(index, slots[id].Size()), Dropped(remove, slots[id].Size()));
    }
  }

  /** Ids below `n` are done: listed under their new size. */
  ghost predicate Reindexed(index: SlotIndex, slots: SlotMap, updates: map<SlotId, Update>, n: nat) {
    && Known(index, slots)
    && Listed(index, slots, set i | i in slots && (i !in updates || i < n))
  }

  /** Only ids whose slot had that size before are taken out of a bucket. */
  ghost predicate Outdated(remove: map<nat, set<SlotId>>, updates: map<SlotId, Update>) {
    forall c, i :: c in remove && i in remove[c] ==> i in updates && updates[i].OldCount() == c
  }

  lemma ReindexedNext(index: SlotIndex, slots: SlotMap, updates: map<SlotId, Update>, id: SlotId, c: nat)
    requires Reindexed(index, slots, updates, id)
    requires id in slots && c == slots[id].Size()
    ensures Reindexed(index[c := Insert(Bucket(index, c), id)], slots, updates, id + 1)
  {
    var listed := set i | i in slots && (i !in updates || i < id);
    var listed' := set i | i in slots && (i !in updates || i < id + 1);
    KnownInsert(index, slots, c, id);
    ListedInsert(index, slots, listed, c, id);
    assert listed' <= listed + {id};
  }

  lemma ReindexedSkip(index: SlotIndex, slots: SlotMap, updates: map<SlotId, Update>, id: SlotId)
    requires Reindexed(index, slots, updates, id) && id !in updates
    ensures Reindexed(index, slots, updates, id + 1)
  {
    var listed := set i | i in slots && (i !in updates || i < id);
    var listed' := set i | i in slots && (i !in updates || i < id + 1);
    assert listed' <= listed;
  }

  function Removing(remove: map<nat, set<SlotId>>, c: nat, id: SlotId): map<nat, set<SlotId>> {
    remove[c := if c in remove then remove[c] + {id} else {}]
  }

  lemma OutdatedNext(remove: map<nat, set<SlotId>>, updates: map<SlotId, Update>, c: nat, id: SlotId)
    requires Outdated(remove, updates) && id in updates && updates[id].OldCount() == c
    ensures Outdated(Removing(remove, c, id), updates)
  {
  }

  /** A slot below `n` that had size `c` before and is not the first such one: only these are taken out of the bucket. */
  ghost predicate Later(updates: map<SlotId, Update>, n: nat, c: nat, i: SlotId) {
    i in updates && i < n && c > 0 && updates[i].OldCount() == c && EarlierOne(updates, i, c)
  }

  ghost predicate EarlierOne(updates: map<SlotId, Update>, n: nat, c: nat) {
    exists j :: j in updates && j < n && updates[j].OldCount() == c
  }

  ghost predicate RemovesLater(remove: map<nat, set<SlotId>>, updates: map<SlotId, Update>, n: nat) {
    && (forall c :: c in remove <==> c > 0 && EarlierOne(updates, n, c))
    && (forall c, i :: c in remove ==> (i in remove[c] <==> Later(updates, n, c, i)))
  }

  lemma EarlierNext(updates: map<SlotId, Update>, id: SlotId, c: nat)
    ensures EarlierOne(updates, id + 1, c) <==> EarlierOne(updates, id, c) || (id in updates && updates[id].OldCount() == c)
  {
    if id in updates && updates[id].OldCount() == c {
      assert id in updates && id < id + 1;
    }
  }

  lemma RemovesNext(remove: map<nat, set<SlotId>>, updates: map<SlotId, Update>, c: nat, id: SlotId)
    requires RemovesLater(remove, updates, id) && id in updates && updates[id].OldCount() == c && c > 0
    ensures RemovesLater(Removing(remove, c, id), updates, id + 1)
  {
    forall x: nat
      ensures EarlierOne(updates, id + 1, x) <==> EarlierOne(updates, id, x) || x == c
    {
      EarlierNext(updates, id, x);
    }
    forall x: nat, i
      ensures Later(updates, id + 1, x, i) <==> Later(updates, id, x, i) || (i == id && x == c && EarlierOne(updates, id, c))
    {
    }
  }

  lemma RemovesSkip(remove: map<nat, set<SlotId>>, updates: map<SlotId, Update>, id: SlotId)
    requires RemovesLater(remove, updates, id) && (id in updates ==> updates[id].OldCount() == 0)
    ensures RemovesLater(remove, updates, id + 1)
  {
    forall x: nat | x > 0
      ensures EarlierOne(updates, id + 1, x) <==> EarlierOne(updates, id, x)
    {
      EarlierNext(updates, id, x);
    }
  }

  ghost predicate NewHere(updates: map<SlotId, Update>, n: nat, c: nat, i: SlotId) {
    i in updates && i < n && updates[i].NewCount() == c
  }

  /** Buckets so far: what they held, and the slots below `n` under their new size. */
  ghost predicate Gained(index0: SlotIndex, index: SlotIndex, updates: map<SlotId, Update>, n: nat) {
    forall c: nat, i :: i in Bucket(index, c) <==> i in Bucket(index0, c) || NewHere(updates, n, c, i)
  }

  lemma GainedNext(index0: SlotIndex, index: SlotIndex, updates: map<SlotId, Update>, id: SlotId, c: nat)
    requires Gained(index0, index, updates, id) && id in updates && updates[id].NewCount() == c
    ensures Gained(index0, index[c := Insert(Bucket(index, c), id)], updates, id + 1)
  {
  }

  lemma GainedSkip(index0: SlotIndex, index: SlotIndex, updates: map<SlotId, Update>, id: SlotId)
    requires Gained(index0, index, updates, id) && id !in updates
    ensures Gained(index0, index, updates, id + 1)
  {
  }

  /** Id `x` stands before `y` in a bucket that was `before`: in the old order, old ids before new ones, new ones ascending. */
  ghost predicate InFront(before: seq<SlotId>, x: SlotId, y: SlotId) {
    if y in before then exists i, j :: 0 <= i < j < |before| && before[i] == x && before[j] == y
    else x in before || x < y
  }

  ghost predicate Orderly(before: seq<SlotId>, bucket: seq<SlotId>) {
    forall i, j :: 0 <= i < j < |bucket| ==> InFront(before, bucket[i], bucket[j])
  }

  /** New ids are below `n`, so the next one comes last. */
  ghost predicate OrderlyBelow(before: seq<SlotId>, bucket: seq<SlotId>, n: nat) {
    && Orderly(before, bucket)
    && (forall x :: x in before ==> x in bucket)
    && (forall x :: x in bucket ==> x in before || x < n)
  }

  lemma OrderlyStart(before: seq<SlotId>, n: nat)
    ensures OrderlyBelow(before, before, n)
  {
    forall i, j | 0 <= i < j < |before| ensures InFront(before, before[i], before[j]) {
    }
  }

  lemma OrderlyNext(before: seq<SlotId>, bucket: seq<SlotId>, id: SlotId)
    requires OrderlyBelow(before, bucket, id)
    ensures OrderlyBelow(before, Insert(bucket, id), id + 1)
  {
    if id !in bucket {
      forall i, j | 0 <= i < j < |bucket + [id]| ensures InFront(before, (bucket + [id])[i], (bucket + [id])[j]) {
        if j < |bucket| {
          assert InFront(before, bucket[i], bucket[j]);
        } else {
          assert bucket[i] in bucket;
        }
      }
    }
  }

  lemma {:induction false} RetainOrderly(before: seq<SlotId>, bucket: seq<SlotId>, drop: set<SlotId>)
    requires Orderly(before, bucket)
    ensures Orderly(before, Retain(bucket, drop))
  {
    if bucket != [] {
      var rest := bucket[1..];
      forall i, j | 0 <= i < j < |rest| ensures InFront(before, rest[i], rest[j]) {
        assert InFront(before, bucket[i + 1], bucket[j + 1]);
      }
      RetainOrderly(before, rest, drop);
      if bucket[0] !in drop {
        RetainMembers(rest, drop);
        forall j | 0 <= j < |Retain(rest, drop)| ensures InFront(before, bucket[0], Retain(rest, drop)[j]) {
          assert Retain(rest, drop)[j] in rest;
          var k :| 0 <= k < |rest| && rest[k] == Retain(rest, drop)[j];
          assert InFront(before, bucket[0], bucket[k + 1]);
        }
      }
    }
  }

  ghost predicate AllOrderly(index0: SlotIndex, index: SlotIndex, n: nat) {
    forall c: nat :: OrderlyBelow(Bucket(index0, c), Bucket(index, c), n)
  }

  lemma AllOrderlyNext(index0: SlotIndex, index: SlotIndex, id: SlotId, c: nat)
    requires AllOrderly(index0, index, id)
    ensures AllOrderly(index0, index[c := Insert(Bucket(index, c), id)], id + 1)
  {
    forall x: nat ensures OrderlyBelow(Bucket(index0, x), Bucket(index[c := Insert(Bucket(index, c), id)], x), id + 1) {
      assert OrderlyBelow(Bucket(index0, x), Bucket(index, x), id);
      OrderlyNext(Bucket(index0, x), Bucket(index, x), id);
    }
  }

  lemma AllOrderlySkip(index0: SlotIndex, index: SlotIndex, id: SlotId)
    requires AllOrderly(index0, index, id)
    ensures AllOrderly(index0, index, id + 1)
  {
    forall c: nat ensures OrderlyBelow(Bucket(index0, c), Bucket(index, c), id + 1) {
      assert OrderlyBelow(Bucket(index0, c), Bucket(index, c), id);
    }
  }

  lemma PrunedOrderly(index0: SlotIndex, index: SlotIndex, remove: map<nat, set<SlotId>>, n: nat, c: nat)
    requires AllOrderly(index0, index, n)
    ensures Orderly(Bucket(index0, c), Bucket(Pruned(index, remove), c))
  {
    assert OrderlyBelow(Bucket(index0, c), Bucket(index, c), n);
    RetainOrderly(Bucket(index0, c), Bucket(index, c), Dropped(remove, c));
  }

  /** The whole update, bucket by bucket: changed slots join the bucket of their new size, and all but the first of those
    that left a size leave its bucket. */
  ghost predicate Updated(index0: SlotIndex, index: SlotIndex, updates: map<SlotId, Update>, n: nat) {
    forall c: nat, i :: i in Bucket(index, c) <==>
      (i in Bucket(index0, c) || NewHere(updates, n, c, i)) && !Later(updates, n, c, i)
  }

  lemma UpdatedEnd(index0: SlotIndex, index: SlotIndex, remove: map<nat, set<SlotId>>, updates: map<SlotId, Update>, n: nat)
    requires Gained(index0, index, updates, n) && RemovesLater(remove, updates, n)
    ensures Updated(index0, Pruned(index, remove), updates, n)
  {
    var pruned := Pruned(index, remove);
    forall c: nat, i
      ensures i in Bucket(pruned, c) <==> (i in Bucket(index0, c) || NewHere(updates, n, c, i)) && !Later(updates, n, c, i)
    {
      RetainMembers(Bucket(index, c), Dropped(remove, c));
      assert i in Bucket(index, c) <==> i in Bucket(index0, c) || NewHere(updates, n, c, i);
      assert i in Dropped(remove, c) <==> Later(updates, n, c, i);
    }
  }

  lemma ReindexedStart(index: SlotIndex, slots0: SlotMap, slots: SlotMap, updates: map<SlotId, Update>)
    requires Tracked(slots0, slots, updates) && NoEmptySlot(slots)
    requires Known(index, slots0) && Covers(index, slots0)
    ensures Reindexed(index, slots, updates, 0)
  {
  }

  lemma ReindexedEnd(index: SlotIndex, remove: map<nat, set<SlotId>>, slots0: SlotMap, slots: SlotMap,
                     updates: map<SlotId, Update>, n: nat)
    requires Tracked(slots0, slots, updates) && Below(slots, n)
    requires Reindexed(index, slots, updates, n) && Outdated(remove, updates)
    ensures Known(Pruned(index, remove), slots) && Covers(Pruned(index, remove), slots)
  {
    forall c, id | c in remove && id in remove[c] && id in slots ensures slots[id].Size() != c {
      assert Records(updates[id], slots0, slots, id);
    }
    PrunedCovers(index, remove, slots);
  }

  /** What tracking says about one id. */
  lemma TrackedUpdate(slots0: SlotMap, slots: SlotMap, updates: map<SlotId, Update>, id: SlotId)
    requires Tracked(slots0, slots, updates) && NoEmptySlot(slots0) && id in updates
    ensures id in slots && Records(updates[id], slots0, slots, id)
    ensures updates[id].OldCount() >= 0
    ensures updates[id].OldCount() == 0 ==> updates[id].oldInts == 0 && updates[id].oldExts == 0
  {
    assert Records(updates[id], slots0, slots, id);
  }

  lemma TrackedRest(slots0: SlotMap, slots: SlotMap, updates: map<SlotId, Update>, id: SlotId)
    requires Tracked(slots0, slots, updates) && id !in updates
    ensures IntsOf(slots0, id) == IntsOf(slots, id) && ExtsOf(slots0, id) == ExtsOf(slots, id)
  {
  }

  lemma SumNext(slots: SlotMap, id: SlotId)
    ensures SumInts(slots, id + 1) == SumInts(slots, id) + IntsOf(slots, id)
    ensures SumExts(slots, id + 1) == SumExts(slots, id) + ExtsOf(slots, id)
  {
  }

  /** The contents of a message group. */
  datatype Group = Group(
    msgs: Queues,
    slots: SlotMap,
    lastSlotId: Option<SlotId>,
    index: SlotIndex,
    intCount: int,
    extCount: int)

  /**
   * Every grouped account sits in one slot, slots count their accounts' messages, totals are sums over slots,
   * listed ids exist and every slot is listed under its current size.
   */
  ghost predicate GroupOk(g: Group, home: map<AccountId, SlotId>) {
    && Packed(g.msgs, g.slots, home)
    && NoEmptySlot(g.slots)
    && Below(g.slots, Limit(g.lastSlotId))
    && Known(g.index, g.slots)
    && Covers(g.index, g.slots)
    && g.intCount == SumInts(g.slots, Limit(g.lastSlotId))
    && g.extCount == SumExts(g.slots, Limit(g.lastSlotId))
  }

  // --- merging two groups ---

  /** How far a merge got: `to` numbers the slots of `o` copied so far, `from` is its inverse. */
  ghost predicate Renumbered(g: SlotMap, o: SlotMap, slots: SlotMap, to: map<SlotId, SlotId>, from: map<SlotId, SlotId>) {
    && (forall id :: id in g ==> id in slots && slots[id] == g[id] && id !in from)
    && (forall i :: i in to ==> i in o && to[i] in slots && slots[to[i]] == o[i] && to[i] in from && from[to[i]] == i)
    && (forall n :: n in from ==> from[n] in to && to[from[n]] == n)
    && (forall n :: n in slots ==> n in g || n in from)
  }

  lemma RenumberNext(g: SlotMap, o: SlotMap, slots: SlotMap, to: map<SlotId, SlotId>, from: map<SlotId, SlotId>,
                     i: SlotId, n: SlotId)
    requires Renumbered(g, o, slots, to, from) && i in o && i !in to && n !in slots && n !in from
    ensures Renumbered(g, o, slots[n := o[i]], to[i := n], from[n := i])
  {
  }

  lemma CoversInsert(index: SlotIndex, slots: SlotMap, n: SlotId, slot: Slot)
    requires Covers(index, slots) && n !in slots && slot.Size() >= 0
    ensures Covers(index[slot.Size() := Insert(Bucket(index, slot.Size()), n)], slots[n := slot])
  {
  }

  lemma KnownGrow(index: SlotIndex, slots: SlotMap, n: SlotId, slot: Slot)
    requires Known(index, slots)
    ensures Known(index, slots[n := slot])
  {
  }

  lemma SumPush(slots: SlotMap, n: SlotId, slot: Slot)
    requires Below(slots, n)
    ensures SumInts(slots[n := slot], n + 1) == SumInts(slots, n) + slot.intCount
    ensures SumExts(slots[n := slot], n + 1) == SumExts(slots, n) + slot.extCount
  {
    SumFrame(slots, slots[n := slot], n);
  }

  lemma {:induction false} SumTake(slots: SlotMap, n: nat, id: SlotId)
    requires id in slots && id < n
    ensures SumInts(slots - {id}, n) == SumInts(slots, n) - slots[id].intCount
    ensures SumExts(slots - {id}, n) == SumExts(slots, n) - slots[id].extCount
  {
    if id == n - 1 {
      SumFrame(slots - {id}, slots, id);
    } else {
      SumTake(slots, n - 1, id);
    }
  }

  lemma PushCount(slots: SlotMap, n: SlotId, slot: Slot)
    requires n !in slots
    ensures |slots[n := slot]| == |slots| + 1
  {
    var after := slots[n := slot];
    assert after.Keys == slots.Keys + {n};
    assert |after| == |after.Keys| && |slots| == |slots.Keys|;
  }

  lemma TakeCount(slots: SlotMap, id: SlotId)
    requires id in slots
    ensures |slots - {id}| == |slots| - 1
  {
    var after := slots - {id};
    assert slots.Keys == after.Keys + {id};
    assert |after| == |after.Keys| && |slots| == |slots.Keys|;
  }

  lemma {:induction false} SumNone(slots: SlotMap, n: nat)
    requires slots == map[]
    ensures SumInts(slots, n) == 0 && SumExts(slots, n) == 0
  {
    if n > 0 {
      SumNone(slots, n - 1);
    }
  }

  /** The slots side of a merge: copied slots get fresh ids and are listed. */
  ghost predicate Merging(g: Group, o: Group, slots: SlotMap, index: SlotIndex, next: SlotId, rest: SlotMap) {
    && NoEmptySlot(slots) && Below(slots, next)
    && Known(index, slots) && Covers(index, slots)
    && |slots| + |rest| == |g.slots| + |o.slots|
    && MergeSums(g, o, slots, next, rest)
  }

  ghost predicate MergeSums(g: Group, o: Group, slots: SlotMap, next: SlotId, rest: SlotMap) {
    && SumInts(slots, next) + SumInts(rest, Limit(o.lastSlotId)) == g.intCount + o.intCount
    && SumExts(slots, next) + SumExts(rest, Limit(o.lastSlotId)) == g.extCount + o.extCount
  }

  lemma MergeSumsNext(g: Group, o: Group, slots: SlotMap, next: SlotId, rest: SlotMap, id: SlotId)
    requires MergeSums(g, o, slots, next, rest) && Below(slots, next)
    requires id in rest && id < Limit(o.lastSlotId)
    ensures MergeSums(g, o, slots[next := rest[id]], next + 1, rest - {id})
  {
    SumPush(slots, next, rest[id]);
    SumTake(rest, Limit(o.lastSlotId), id);
  }

  lemma MergeIndexNext(slots: SlotMap, index: SlotIndex, next: SlotId, slot: Slot)
    requires Known(index, slots) && Covers(index, slots) && next !in slots && slot.Size() >= 0
    ensures Known(index[slot.Size() := Insert(Bucket(index, slot.Size()), next)], slots[next := slot])
    ensures Covers(index[slot.Size() := Insert(Bucket(index, slot.Size()), next)], slots[next := slot])
  {
    KnownGrow(index, slots, next, slot);
    KnownInsert(index, slots[next := slot], slot.Size(), next);
    CoversInsert(index, slots, next, slot);
  }

  lemma MergeNext(g: Group, o: Group, slots: SlotMap, index: SlotIndex, next: SlotId, rest: SlotMap, id: SlotId)
    requires Merging(g, o, slots, index, next, rest)
    requires id in rest && rest[id].Size() > 0 && id < Limit(o.lastSlotId)
    ensures Merging(g, o, slots[next := rest[id]], index[rest[id].Size() := Insert(Bucket(index, rest[id].Size()), next)],
                    next + 1, rest - {id})
  {
    assert next !in slots;
    MergeIndexNext(slots, index, next, rest[id]);
    MergeSumsNext(g, o, slots, next, rest, id);
    PushCount(slots, next, rest[id]);
    TakeCount(rest, id);
  }

  /** Slot `n` is found under size `c` if it was before, or if it was copied and has that size. */
  ghost predicate ListsAt(g: Group, slots: SlotMap, index: SlotIndex, c: nat, n: SlotId) {
    n in Bucket(index, c) <==> n in Bucket(g.index, c) || (n in slots && n !in g.slots && slots[n].Size() == c)
  }

  /** Copied slots are numbered in turn from the last id on, and listed under their size only. */
  ghost predicate Placed(g: Group, slots: SlotMap, index: SlotIndex, next: SlotId) {
    && |g.slots| <= |slots| && next == Limit(g.lastSlotId) + (|slots| - |g.slots|)
    && (forall n :: n in slots && n !in g.slots ==> Limit(g.lastSlotId) <= n < next)
    && (forall c: nat, n: SlotId :: ListsAt(g, slots, index, c, n))
  }

  lemma ListsNext(g: Group, slots: SlotMap, index: SlotIndex, next: SlotId, slot: Slot, c: nat, n: SlotId)
    requires ListsAt(g, slots, index, c, n) && next !in slots && slot.Size() >= 0 && next !in g.slots
    ensures ListsAt(g, slots[next := slot], index[slot.Size() := Insert(Bucket(index, slot.Size()), next)], c, n)
  {
  }

  lemma PlaceNext(g: Group, slots: SlotMap, index: SlotIndex, next: SlotId, slot: Slot)
    requires Placed(g, slots, index, next) && Below(slots, next) && slot.Size() >= 0 && Below(g.slots, next)
    ensures Placed(g, slots[next := slot], index[slot.Size() := Insert(Bucket(index, slot.Size()), next)], next + 1)
  {
    assert next !in slots && next !in g.slots;
    PushCount(slots, next, slot);
    var slots', index' := slots[next := slot], index[slot.Size() := Insert(Bucket(index, slot.Size()), next)];
    forall c: nat, n: SlotId ensures ListsAt(g, slots', index', c, n) {
      assert ListsAt(g, slots, index, c, n);
      ListsNext(g, slots, index, next, slot, c, n);
    }
  }

  /** What is still to be copied. */
  ghost predicate Uncopied(o: SlotMap, to: map<SlotId, SlotId>, rest: SlotMap) {
    && (forall id :: id in rest ==> id in o && rest[id] == o[id] && id !in to)
    && (forall id :: id in o ==> id in rest || id in to)
    && (forall id :: id in to ==> id in o)
  }

  lemma UncopiedNext(o: SlotMap, to: map<SlotId, SlotId>, rest: SlotMap, id: SlotId, n: SlotId)
    requires Uncopied(o, to, rest) && id in rest
    ensures Uncopied(o, to[id := n], rest - {id})
  {
  }

  lemma UncopiedEnd(o: SlotMap, to: map<SlotId, SlotId>)
    requires Uncopied(o, to, map[])
    ensures to.Keys == o.Keys
  {
  }

  function MergedQueues(g: Queues, o: Queues): Queues {
    g + o
  }

  ghost function MergedHome(home: map<AccountId, SlotId>, ohome: map<AccountId, SlotId>, to: map<SlotId, SlotId>):
    map<AccountId, SlotId>
    requires forall a :: a in ohome ==> ohome[a] in to
  {
    home + map a | a in ohome :: to[ohome[a]]
  }

  lemma MergedLeft(g: Queues, o: Queues, slot: Slot)
    requires SlotLoaded(g, slot) && g.Keys !! o.Keys && forall a :: a in slot.accounts ==> a in g
    ensures SlotLoaded(MergedQueues(g, o), slot)
  {
    TotalFrame(slot.accounts, g, MergedQueues(g, o));
  }

  lemma MergedRight(g: Queues, o: Queues, slot: Slot)
    requires SlotLoaded(o, slot) && forall a :: a in slot.accounts ==> a in o
    ensures SlotLoaded(MergedQueues(g, o), slot)
  {
    TotalFrame(slot.accounts, o, MergedQueues(g, o));
  }

  lemma MergedAt(g: Queues, o: Queues, gs: SlotMap, os: SlotMap, home: map<AccountId, SlotId>,
                 ohome: map<AccountId, SlotId>, n: SlotId)
    requires Homed(g, gs, home) && Loaded(g, gs) && Homed(o, os, ohome) && Loaded(o, os) && g.Keys !! o.Keys
    ensures n in gs ==> SlotLoaded(MergedQueues(g, o), gs[n])
    ensures n in os ==> SlotLoaded(MergedQueues(g, o), os[n])
  {
    if n in gs {
      MergedLeft(g, o, gs[n]);
    }
    if n in os {
      MergedRight(g, o, os[n]);
    }
  }

  lemma MergedLoaded(g: Queues, o: Queues, gs: SlotMap, os: SlotMap, home: map<AccountId, SlotId>,
                     ohome: map<AccountId, SlotId>, slots: SlotMap, to: map<SlotId, SlotId>, from: map<SlotId, SlotId>)
    requires Homed(g, gs, home) && Loaded(g, gs) && Homed(o, os, ohome) && Loaded(o, os) && g.Keys !! o.Keys
    requires Renumbered(gs, os, slots, to, from)
    ensures Loaded(MergedQueues(g, o), slots)
  {
    forall n | n in slots ensures SlotLoaded(MergedQueues(g, o), slots[n]) {
      if n in gs {
        MergedAt(g, o, gs, os, home, ohome, n);
      } else {
        MergedAt(g, o, gs, os, home, ohome, from[n]);
      }
    }
  }

  lemma MergedNoEmpty(g: Queues, o: Queues)
    requires NoEmptyQueue(g) && NoEmptyQueue(o)
    ensures NoEmptyQueue(MergedQueues(g, o))
  {
  }

  lemma MergedPacked(g: Queues, o: Queues, gs: SlotMap, os: SlotMap, home: map<AccountId, SlotId>,
                     ohome: map<AccountId, SlotId>, slots: SlotMap, to: map<SlotId, SlotId>, from: map<SlotId, SlotId>)
    requires Packed(g, gs, home) && Packed(o, os, ohome) && g.Keys !! o.Keys
    requires Renumbered(gs, os, slots, to, from) && to.Keys == os.Keys
    ensures forall a :: a in ohome ==> ohome[a] in to
    ensures Packed(MergedQueues(g, o), slots, MergedHome(home, ohome, to))
  {
    MergedHomed(g, o, gs, os, home, ohome, slots, to, from);
    MergedLoaded(g, o, gs, os, home, ohome, slots, to, from);
    MergedNoEmpty(g, o);
  }

  lemma MergedHomeOf(g: Queues, o: Queues, gs: SlotMap, os: SlotMap, home: map<AccountId, SlotId>,
                     ohome: map<AccountId, SlotId>, slots: SlotMap, to: map<SlotId, SlotId>, from: map<SlotId, SlotId>,
                     n: SlotId, a: AccountId)
    requires Homed(g, gs, home) && Homed(o, os, ohome) && g.Keys !! o.Keys
    requires Renumbered(gs, os, slots, to, from) && to.Keys == os.Keys
    requires n in slots && a in slots[n].accounts
    ensures a in MergedHome(home, ohome, to) && MergedHome(home, ohome, to)[a] == n
  {
    if n in gs {
      assert a in home && home[a] == n;
    } else {
      assert a in ohome && ohome[a] == from[n];
    }
  }

  lemma MergedHomeHolds(g: Queues, o: Queues, gs: SlotMap, os: SlotMap, home: map<AccountId, SlotId>,
                        ohome: map<AccountId, SlotId>, slots: SlotMap, to: map<SlotId, SlotId>, from: map<SlotId, SlotId>,
                        a: AccountId)
    requires Homed(g, gs, home) && Homed(o, os, ohome)
    requires Renumbered(gs, os, slots, to, from) && to.Keys == os.Keys
    requires a in MergedHome(home, ohome, to)
    ensures MergedHome(home, ohome, to)[a] in slots && a in slots[MergedHome(home, ohome, to)[a]].accounts
  {
    if a in ohome {
      assert ohome[a] in os && a in os[ohome[a]].accounts;
    } else {
      assert home[a] in gs;
    }
  }

  lemma MergedKeys(g: Queues, o: Queues, home: map<AccountId, SlotId>, ohome: map<AccountId, SlotId>, to: map<SlotId, SlotId>)
    requires home.Keys == g.Keys && ohome.Keys == o.Keys && forall a :: a in ohome ==> ohome[a] in to
    ensures MergedHome(home, ohome, to).Keys == MergedQueues(g, o).Keys
  {
  }

  lemma MergedHomesOf(g: Queues, o: Queues, gs: SlotMap, os: SlotMap, home: map<AccountId, SlotId>,
                      ohome: map<AccountId, SlotId>, slots: SlotMap, to: map<SlotId, SlotId>, from: map<SlotId, SlotId>)
    requires Homed(g, gs, home) && Homed(o, os, ohome) && g.Keys !! o.Keys
    requires Renumbered(gs, os, slots, to, from) && to.Keys == os.Keys
    ensures var h := MergedHome(home, ohome, to);
      forall n, a :: n in slots && a in slots[n].accounts ==> a in h && h[a] == n
  {
    forall n, a | n in slots && a in slots[n].accounts
      ensures a in MergedHome(home, ohome, to) && MergedHome(home, ohome, to)[a] == n
    {
      MergedHomeOf(g, o, gs, os, home, ohome, slots, to, from, n, a);
    }
  }

  lemma MergedHomesHold(g: Queues, o: Queues, gs: SlotMap, os: SlotMap, home: map<AccountId, SlotId>,
                        ohome: map<AccountId, SlotId>, slots: SlotMap, to: map<SlotId, SlotId>, from: map<SlotId, SlotId>)
    requires Homed(g, gs, home) && Homed(o, os, ohome)
    requires Renumbered(gs, os, slots, to, from) && to.Keys == os.Keys
    ensures var h := MergedHome(home, ohome, to);
      forall a :: a in h ==> h[a] in slots && a in slots[h[a]].accounts
  {
    forall a | a in MergedHome(home, ohome, to)
      ensures MergedHome(home, ohome, to)[a] in slots && a in slots[MergedHome(home, ohome, to)[a]].accounts
    {
      MergedHomeHolds(g, o, gs, os, home, ohome, slots, to, from, a);
    }
  }

  lemma MergedHomed(g: Queues, o: Queues, gs: SlotMap, os: SlotMap, home: map<AccountId, SlotId>,
                    ohome: map<AccountId, SlotId>, slots: SlotMap, to: map<SlotId, SlotId>, from: map<SlotId, SlotId>)
    requires Homed(g, gs, home) && Homed(o, os, ohome) && g.Keys !! o.Keys
    requires Renumbered(gs, os, slots, to, from) && to.Keys == os.Keys
    ensures Homed(MergedQueues(g, o), slots, MergedHome(home, ohome, to))
  {
    MergedKeys(g, o, home, ohome, to);
    MergedHomesOf(g, o, gs, os, home, ohome, slots, to, from);
    MergedHomesHold(g, o, gs, os, home, ohome, slots, to, from);
  }

  lemma MergeStart(g: Group, o: Group, home: map<AccountId, SlotId>, ohome: map<AccountId, SlotId>)
    requires GroupOk(g, home) && GroupOk(o, ohome)
    ensures Merging(g, o, g.slots, g.index, Limit(g.lastSlotId), o.slots)
    ensures NoEmptySlot(o.slots) && Below(o.slots, Limit(o.lastSlotId))
  {
  }

  /** How far a merge got: the slots in `rest` are still to be copied. */
  ghost predicate MergeAt(g: Group, o: Group, slots: SlotMap, index: SlotIndex, next: SlotId, rest: SlotMap,
                          to: map<SlotId, SlotId>, from: map<SlotId, SlotId>)
  {
    && Merging(g, o, slots, index, next, rest)
    && Renumbered(g.slots, o.slots, slots, to, from) && Uncopied(o.slots, to, rest)
    && Placed(g, slots, index, next)
  }

  lemma MergeBegin(g: Group, o: Group)
    requires Merging(g, o, g.slots, g.index, Limit(g.lastSlotId), o.slots)
    ensures MergeAt(g, o, g.slots, g.index, Limit(g.lastSlotId), o.slots, map[], map[])
  {
    forall c: nat, n: SlotId ensures ListsAt(g, g.slots, g.index, c, n) {
    }
  }

  lemma MergeStep(g: Group, o: Group, slots: SlotMap, index: SlotIndex, next: SlotId, rest: SlotMap,
                  to: map<SlotId, SlotId>, from: map<SlotId, SlotId>, id: SlotId)
    requires MergeAt(g, o, slots, index, next, rest, to, from) && id in rest
    requires NoEmptySlot(o.slots) && Below(o.slots, Limit(o.lastSlotId))
    ensures rest[id].Size() > 0
    ensures MergeAt(g, o, slots[next := rest[id]], index[rest[id].Size() := Insert(Bucket(index, rest[id].Size()), next)],
                    next + 1, rest - {id}, to[id := next], from[next := id])
  {
    assert next !in slots && next !in g.slots;
    MergeNext(g, o, slots, index, next, rest, id);
    RenumberNext(g.slots, o.slots, slots, to, from, id, next);
    UncopiedNext(o.slots, to, rest, id, next);
    PlaceNext(g, slots, index, next, rest[id]);
  }

  /** Copies slot `id` under the id `next` and lists it. */
  method CopySlot(slots: SlotMap, index: SlotIndex, next: SlotId, rest: SlotMap, id: SlotId,
                  ghost g: Group, ghost o: Group, ghost to: map<SlotId, SlotId>, ghost from: map<SlotId, SlotId>)
    returns (slots': SlotMap, index': SlotIndex, rest': SlotMap, ghost to': map<SlotId, SlotId>, ghost from': map<SlotId, SlotId>)
    requires MergeAt(g, o, slots, index, next, rest, to, from) && id in rest
    requires NoEmptySlot(o.slots) && Below(o.slots, Limit(o.lastSlotId))
    ensures MergeAt(g, o, slots', index', next + 1, rest', to', from') && |rest'| < |rest|
  {
    TakeCount(rest, id);
    MergeStep(g, o, slots, index, next, rest, to, from, id);
    var slot := rest[id];
    index' := index[slot.Size() := Insert(Bucket(index, slot.Size()), next)];
    slots', rest' := slots[next := slot], rest - {id};
    to', from' := to[id := next], from[next := id];
  }

  /** Merges the slots of `o` into those of `g`, in no particular order. */
  method MergeSlots(g: Group, o: Group)
    returns (slots: SlotMap, last: Option<SlotId>, index: SlotIndex, rest: SlotMap,
             ghost to: map<SlotId, SlotId>, ghost from: map<SlotId, SlotId>)
    requires Merging(g, o, g.slots, g.index, Limit(g.lastSlotId), o.slots)
    requires NoEmptySlot(o.slots) && Below(o.slots, Limit(o.lastSlotId))
    ensures MergeAt(g, o, slots, index, Limit(last), rest, to, from) && |rest| == 0
  {
    slots, last, index, rest, to, from := g.slots, g.lastSlotId, g.index, o.slots, map[], map[];
    MergeBegin(g, o);
    while |rest| > 0
      invariant MergeAt(g, o, slots, index, Limit(last), rest, to, from)
      decreases |rest|
    {
      var id :| id in rest;
      var next := Limit(last);
      slots, index, rest, to, from := CopySlot(slots, index, next, rest, id, g, o, to, from);
      last := Some(next);
    }
  }

  /** Group `r` holds the slots and messages of both; `to` gives the new id of each slot of `o`, in turn after those of `g`. */
  ghost predicate Merged(g: Group, o: Group, r: Group, to: map<SlotId, SlotId>) {
    && r.msgs == g.msgs + o.msgs
    && |r.slots| == |g.slots| + |o.slots|
    && (forall id :: id in g.slots ==> id in r.slots && r.slots[id] == g.slots[id])
    && (forall i :: i in o.slots ==> i in to && to[i] in r.slots && to[i] !in g.slots && r.slots[to[i]] == o.slots[i])
    && r.intCount == g.intCount + o.intCount
    && r.extCount == g.extCount + o.extCount
    && Placed(g, r.slots, r.index, Limit(r.lastSlotId))
  }

  method MergeGroups(g: Group, o: Group, ghost home: map<AccountId, SlotId>, ghost ohome: map<AccountId, SlotId>)
    returns (r: Group, ghost rhome: map<AccountId, SlotId>, ghost to: map<SlotId, SlotId>)
    requires GroupOk(g, home) && GroupOk(o, ohome) && g.msgs.Keys !! o.msgs.Keys
    ensures r.msgs == g.msgs + o.msgs && |r.slots| == |g.slots| + |o.slots|
    ensures GroupOk(r, rhome) && Merged(g, o, r, to)
  {
    MergeStart(g, o, home, ohome);
    var slots, last, index;
    ghost var from;
    var rest;
    slots, last, index, rest, to, from := MergeSlots(g, o);
    assert rest == map[];
    r := Group(MergedQueues(g.msgs, o.msgs), slots, last, index, g.intCount + o.intCount, g.extCount + o.extCount);
    UncopiedEnd(o.slots, to);
    MergeOk(g, o, home, ohome, r, to, from);
    rhome := MergedHome(home, ohome, to);
  }

  lemma MergeOk(g: Group, o: Group, home: map<AccountId, SlotId>, ohome: map<AccountId, SlotId>,
                r: Group, to: map<SlotId, SlotId>, from: map<SlotId, SlotId>)
    requires GroupOk(g, home) && GroupOk(o, ohome) && g.msgs.Keys !! o.msgs.Keys
    requires Merging(g, o, r.slots, r.index, Limit(r.lastSlotId), map[])
    requires Placed(g, r.slots, r.index, Limit(r.lastSlotId))
    requires Renumbered(g.slots, o.slots, r.slots, to, from) && to.Keys == o.slots.Keys
    requires r.msgs == MergedQueues(g.msgs, o.msgs)
    requires r.intCount == g.intCount + o.intCount && r.extCount == g.extCount + o.extCount
    ensures forall a :: a in ohome ==> ohome[a] in to
    ensures GroupOk(r, MergedHome(home, ohome, to)) && Merged(g, o, r, to)
  {
    MergedTotals(g, o, r);
    MergedPacked(g.msgs, o.msgs, g.slots, o.slots, home, ohome, r.slots, to, from);
    MergeReport(g, o, r, to, from);
  }

  lemma MergedTotals(g: Group, o: Group, r: Group)
    requires Merging(g, o, r.slots, r.index, Limit(r.lastSlotId), map[])
    ensures SumInts(r.slots, Limit(r.lastSlotId)) == g.intCount + o.intCount
    ensures SumExts(r.slots, Limit(r.lastSlotId)) == g.extCount + o.extCount
  {
    SumNone(map[], Limit(o.lastSlotId));
  }

  lemma MergeReport(g: Group, o: Group, r: Group, to: map<SlotId, SlotId>, from: map<SlotId, SlotId>)
    requires Merging(g, o, r.slots, r.index, Limit(r.lastSlotId), map[])
    requires Placed(g, r.slots, r.index, Limit(r.lastSlotId))
    requires Renumbered(g.slots, o.slots, r.slots, to, from) && to.Keys == o.slots.Keys
    requires r.msgs == MergedQueues(g.msgs, o.msgs)
    requires r.intCount == g.intCount + o.intCount && r.extCount == g.extCount + o.extCount
    ensures Merged(g, o, r, to)
  {
  }

  class MessageGroup {
    var contents: Group
    // which slot each grouped account sits in
    ghost var home: map<AccountId, SlotId>

    ghost predicate Valid()
      reads this
    {
      GroupOk(contents, home)
    }

    constructor ()
      ensures Valid() && contents == Group(map[], map[], None, map[], 0, 0)
    {
      contents, home := Group(map[], map[], None, map[], 0, 0), map[];
    }

    /** True only when no slot is missing and none has room: an empty bucket left below `slotVertSize` may hide this. */
    method CheckIsFilled(slotsCount: nat, slotVertSize: nat) returns (r: bool)
      requires Valid()
      ensures r <==> |contents.slots| >= slotsCount && forall c :: c in contents.index ==> c >= slotVertSize
      ensures r ==> forall id :: id in contents.slots ==> contents.slots[id].Size() >= slotVertSize
    {
      if slotsCount > |contents.slots| {
        return false;
      }
      if exists c :: c in contents.index && c < slotVertSize {
        return false;
      }
      return true;
    }

    /** Takes over all slots and messages of a group on other accounts; `to` gives the new id of each slot. */
    method Add(other: MessageGroup) returns (ghost to: map<SlotId, SlotId>)
      requires Valid() && other.Valid() && this != other
      // the source panics on an account both groups hold
      requires contents.msgs.Keys !! other.contents.msgs.Keys
      modifies this
      ensures Valid()
      ensures Merged(old(contents), other.contents, contents, to)
    {
      var r;
      ghost var h;
      r, h, to := MergeGroups(contents, other.contents, home, other.home);
      contents, home := r, h;
    }
  }

  /**
   * Applies the deferred index updates of a fill that started from `slots0`.
   * The first slot recorded under an old size is left in its old bucket; later ones are removed.
   */
  method ApplyIndexUpdates(index0: SlotIndex, slots: SlotMap, ints0: int, exts0: int, n: nat, updates: map<SlotId, Update>,
                           ghost slots0: SlotMap, ghost limit0: nat)
    returns (index: SlotIndex, ints: int, exts: int)
    requires Tracked(slots0, slots, updates)
    requires NoEmptySlot(slots0) && NoEmptySlot(slots)
    requires Below(slots0, limit0) && Below(slots, n) && limit0 <= n
    requires Known(index0, slots0) && Covers(index0, slots0)
    requires ints0 == SumInts(slots0, limit0) && exts0 == SumExts(slots0, limit0)
    ensures Known(index, slots) && Covers(index, slots)
    ensures Updated(index0, index, updates, n)
    ensures forall c: nat :: Orderly(Bucket(index0, c), Bucket(index, c))
    ensures ints == SumInts(slots, n) && exts == SumExts(slots, n)
  {
    var remove: map<nat, set<SlotId>> := map[];
    SumBeyond(slots0, limit0, n);
    ReindexedStart(index0, slots0, slots, updates);
    IndexingStart(index0, slots0, slots, updates, ints0, exts0, n);
    index, ints, exts := index0, ints0, exts0;
    for id := 0 to n
      invariant Indexing(index0, slots0, slots, updates, n, id, index, remove, ints, exts)
    {
      index, remove, ints, exts := ApplyIndexUpdate(index0, slots0, slots, updates, n, id, index, remove, ints, exts);
    }
    ReindexedEnd(index, remove, slots0, slots, updates, n);
    UpdatedEnd(index0, index, remove, updates, n);
    forall c: nat ensures Orderly(Bucket(index0, c), Bucket(Pruned(index, remove), c)) {
      PrunedOrderly(index0, index, remove, n, c);
    }
    index := Pruned(index, remove);
  }

  /** The slots below `id` are done. */
  ghost predicate Indexing(index0: SlotIndex, slots0: SlotMap, slots: SlotMap, updates: map<SlotId, Update>, n: nat, id: nat,
                           index: SlotIndex, remove: map<nat, set<SlotId>>, ints: int, exts: int)
  {
    && Reindexed(index, slots, updates, id) && Outdated(remove, updates)
    && Gained(index0, index, updates, id) && RemovesLater(remove, updates, id) && AllOrderly(index0, index, id)
    && ints + SumInts(slots0, id) == SumInts(slots0, n) + SumInts(slots, id)
    && exts + SumExts(slots0, id) == SumExts(slots0, n) + SumExts(slots, id)
  }

  lemma IndexingStart(index0: SlotIndex, slots0: SlotMap, slots: SlotMap, updates: map<SlotId, Update>,
                      ints: int, exts: int, n: nat)
    requires Reindexed(index0, slots, updates, 0) && ints == SumInts(slots0, n) && exts == SumExts(slots0, n)
    ensures Indexing(index0, slots0, slots, updates, n, 0, index0, map[], ints, exts)
  {
    forall c: nat ensures OrderlyBelow(Bucket(index0, c), Bucket(index0, c), 0) {
      OrderlyStart(Bucket(index0, c), 0);
    }
  }

  /** One slot, if it has changed. */
  method ApplyIndexUpdate(ghost index0: SlotIndex, ghost slots0: SlotMap, ghost slots: SlotMap, updates: map<SlotId, Update>,
                          ghost n: nat, id: SlotId, index: SlotIndex, remove: map<nat, set<SlotId>>, ints: int, exts: int)
    returns (index': SlotIndex, remove': map<nat, set<SlotId>>, ints': int, exts': int)
    requires Tracked(slots0, slots, updates) && NoEmptySlot(slots0)
    requires Indexing(index0, slots0, slots, updates, n, id, index, remove, ints, exts)
    ensures Indexing(index0, slots0, slots, updates, n, id + 1, index', remove', ints', exts')
  {
    index', remove', ints', exts' := index, remove, ints, exts;
    SumNext(slots0, id);
    SumNext(slots, id);
    if id !in updates {
      TrackedRest(slots0, slots, updates, id);
      ReindexedSkip(index, slots, updates, id);
      GainedSkip(index0, index, updates, id);
      RemovesSkip(remove, updates, id);
      AllOrderlySkip(index0, index, id);
      return;
    }
    TrackedUpdate(slots0, slots, updates, id);
    var u := updates[id];
    ReindexedNext(index, slots, updates, id, u.NewCount());
    GainedNext(index0, index, updates, id, u.NewCount());
    AllOrderlyNext(index0, index, id, u.NewCount());
    // the old bucket is only noted here and pruned after the loop
    if u.OldCount() == 0 {
      RemovesSkip(remove, updates, id);
    } else {
      RemovesNext(remove, updates, u.OldCount(), id);
      OutdatedNext(remove, updates, u.OldCount(), id);
      remove' := Removing(remove, u.OldCount(), id);
      ints', exts' := ints - u.oldInts, exts - u.oldExts;
    }
    index' := index[u.NewCount() := Insert(Bucket(index, u.NewCount()), id)];
    ints', exts' := ints' + u.newInts, exts' + u.newExts;
  }

  // --- the index said by slots alone ---

  /** The slot is new or took messages, and had size `c` before. */
  ghost predicate Grew(slots0: SlotMap, slots: SlotMap, i: SlotId, c: int) {
    i in slots && IntsOf(slots0, i) + ExtsOf(slots0, i) == c && c < slots[i].Size()
  }

  ghost predicate FoundAt(index0: SlotIndex, slots0: SlotMap, slots: SlotMap, index: SlotIndex, c: nat, i: SlotId) {
    i in Bucket(index, c) <==>
      && (i in Bucket(index0, c) || (i in slots && slots[i].Size() == c && exists d :: Grew(slots0, slots, i, d)))
      && !(c > 0 && Grew(slots0, slots, i, c) && exists j: SlotId :: j < i && Grew(slots0, slots, j, c))
  }

  /** Slots that grew are found under their new size, and all but the first of those that left a size are no longer found
    under it; otherwise the buckets are as they were, with new ids behind the old ones. */
  ghost predicate IndexFollows(index0: SlotIndex, slots0: SlotMap, slots: SlotMap, index: SlotIndex) {
    && (forall c: nat, i: SlotId :: FoundAt(index0, slots0, slots, index, c, i))
    && (forall c: nat :: Orderly(Bucket(index0, c), Bucket(index, c)))
  }

  lemma GrewIsUpdate(slots0: SlotMap, slots: SlotMap, updates: map<SlotId, Update>, n: nat, i: SlotId, c: int)
    requires Tracked(slots0, slots, updates) && Below(slots, n)
    ensures Grew(slots0, slots, i, c) <==> i in updates && i < n && updates[i].OldCount() == c
    ensures i in updates ==> updates[i].NewCount() == slots[i].Size()
  {
    if i in updates {
      assert Records(updates[i], slots0, slots, i);
      assert IntsOf(slots, i) + ExtsOf(slots, i) == slots[i].Size();
    } else if i in slots {
      TrackedRest(slots0, slots, updates, i);
      assert IntsOf(slots, i) + ExtsOf(slots, i) == slots[i].Size();
    }
  }

  lemma LaterIs(slots0: SlotMap, slots: SlotMap, updates: map<SlotId, Update>, n: nat, c: nat, i: SlotId)
    requires Tracked(slots0, slots, updates) && Below(slots, n)
    ensures Later(updates, n, c, i) <==>
      c > 0 && Grew(slots0, slots, i, c) && exists j: SlotId :: j < i && Grew(slots0, slots, j, c)
  {
    GrewIsUpdate(slots0, slots, updates, n, i, c);
    if Later(updates, n, c, i) {
      var j :| j in updates && j < i && updates[j].OldCount() == c;
      GrewIsUpdate(slots0, slots, updates, n, j, c);
    }
    if Grew(slots0, slots, i, c) && exists j: SlotId :: j < i && Grew(slots0, slots, j, c) {
      var j: SlotId :| j < i && Grew(slots0, slots, j, c);
      GrewIsUpdate(slots0, slots, updates, n, j, c);
    }
  }

  lemma NewHereIs(slots0: SlotMap, slots: SlotMap, updates: map<SlotId, Update>, n: nat, c: nat, i: SlotId)
    requires Tracked(slots0, slots, updates) && Below(slots, n)
    ensures NewHere(updates, n, c, i) <==> i in slots && slots[i].Size() == c && exists d :: Grew(slots0, slots, i, d)
  {
    if i in updates {
      GrewIsUpdate(slots0, slots, updates, n, i, updates[i].OldCount());
    }
    if d :| Grew(slots0, slots, i, d) {
      GrewIsUpdate(slots0, slots, updates, n, i, d);
    }
  }

  lemma FoundIs(index0: SlotIndex, slots0: SlotMap, slots: SlotMap, index: SlotIndex, updates: map<SlotId, Update>, n: nat,
                c: nat, i: SlotId)
    requires Updated(index0, index, updates, n) && Tracked(slots0, slots, updates) && Below(slots, n)
    ensures FoundAt(index0, slots0, slots, index, c, i)
  {
    LaterIs(slots0, slots, updates, n, c, i);
    NewHereIs(slots0, slots, updates, n, c, i);
  }

  lemma FollowsIs(index0: SlotIndex, slots0: SlotMap, slots: SlotMap, index: SlotIndex, updates: map<SlotId, Update>, n: nat)
    requires Updated(index0, index, updates, n) && Tracked(slots0, slots, updates) && Below(slots, n)
    requires forall c: nat :: Orderly(Bucket(index0, c), Bucket(index, c))
    ensures IndexFollows(index0, slots0, slots, index)
  {
    forall c: nat, i: SlotId ensures FoundAt(index0, slots0, slots, index, c, i) {
      FoundIs(index0, slots0, slots, index, updates, n, c, i);
    }
  }
}
