/** Whole runs of the internal queue: applies, commits, clears and the garbage collector, interleaved. */
module QueueRuns {
  import opened Wrappers
  import opened QueueStore
  import QueueProtocol
  import opened QueueCommits

  type Partition = nat

  datatype Spot = Spot(partition: Partition, shard: Shard)

  type GcRange = map<Spot, GcEndKey>

  datatype Bound = Bound(spot: Spot, end: GcEndKey)

  /** What the collector has read and not yet written: its bound and the span of seqnos below it. */
  datatype Plan = Plan(spot: Spot, end: GcEndKey, span: Span)

  /** `pending` are the bounds of a commit still to be handed over, `snapshot` what the running collection works on,
    `plan` the deletion it is in the middle of, `published` every bound ever handed over. */
  datatype System = System(
    store: Store,
    pending: set<Bound>,
    deleteUntil: GcRange,
    snapshot: GcRange,
    plan: Option<Plan>,
    watermarks: GcRange,
    published: set<Bound>)

  const START := System(EMPTY, {}, map[], map[], None, map[], {})

  datatype Step =
    | Apply(diff: QueueProtocol.Diff, zone: Option<Zone>)
    | Commit(blocks: seq<TopBlock>, partitions: set<Partition>)
    | Publish(bound: Bound)
    | Clear(partitions: set<Partition>, topShards: set<Shard>)
    | Tick
    | Read(spot: Spot)
    | Write

  function BoundsOf(gc: map<Shard, GcEndKey>, partitions: set<Partition>): set<Bound> {
    set p, shard | p in partitions && shard in gc :: Bound(Spot(p, shard), gc[shard])
  }

  predicate CanDelete(watermarks: GcRange, spot: Spot, end: GcEndKey) {
    spot in watermarks ==> watermarks[spot].endKey < end.endKey
  }

  /** A spot whose watermark has not reached its bound is planned for deletion, from a snapshot of the tails. */
  ghost predicate Planned(x: System, y: System, spot: Spot) {
    && spot in x.snapshot
    && var end := x.snapshot[spot];
       if CanDelete(x.watermarks, spot, end) then
         y.plan.Some? && y.plan.value.spot == spot && y.plan.value.end == end
         && Spans(x.store, spot.shard, 0, end.endKey, y.plan.value.span)
         && y == x.(plan := y.plan)
       else y == x
  }

  /** The batch is written, on whatever is stored by then. It may fail; the watermark moves all the same. */
  ghost predicate Collected(x: System, y: System)
    requires x.plan.Some?
  {
    var plan := x.plan.value;
    && (y.store == x.store || Erased(x.store, y.store, plan.spot.shard, 0, plan.end.endKey, plan.span))
    && y == x.(store := y.store, plan := None, watermarks := x.watermarks[plan.spot := plan.end])
  }

  ghost predicate Next(x: System, y: System, step: Step) {
    match step
    case Apply(d, zone) =>
      && x.pending == {}
      && (exists o :: QueueProtocol.ApplyStep(x.store, y.store, d, zone, o))
      && y == x.(store := y.store)
    case Commit(blocks, partitions) =>
      && x.pending == {}
      && (exists gc, o :: CommitStep(x.store, y.store, blocks, gc, o) && y.pending == BoundsOf(gc, partitions))
      && y == x.(store := y.store, pending := y.pending)
    case Publish(b) =>
      && b in x.pending
      && y == x.(pending := x.pending - {b}, deleteUntil := x.deleteUntil[b.spot := b.end], published := x.published + {b})
    case Clear(partitions, topShards) =>
      && x.pending == {}
      && (if partitions == {} then y.store == x.store
          else QueueProtocol.Cleared(x.store, y.store, topShards, QueueProtocol.Named(x.store, topShards)))
      && y == x.(store := y.store)
    case Tick => x.plan.None? && y == x.(snapshot := x.deleteUntil)
    case Read(spot) => x.plan.None? && Planned(x, y, spot)
    case Write => x.plan.Some? && Collected(x, y)
  }

  // --- runs ---

  ghost predicate Run(states: seq<System>, steps: seq<Step>) {
    && |states| == |steps| + 1 && states[0] == START
    && forall i :: 0 <= i < |steps| ==> StepAt(states, steps, i)
  }

  ghost predicate StepAt(states: seq<System>, steps: seq<Step>, i: nat) {
    i < |steps| && i + 1 < |states| && Next(states[i], states[i + 1], steps[i])
  }

  // --- bounds and watermarks ---

  ghost predicate Published(r: GcRange, published: set<Bound>) {
    forall spot :: spot in r ==> Bound(spot, r[spot]) in published
  }

  ghost predicate AllPublished(x: System) {
    && Published(x.deleteUntil, x.published) && Published(x.snapshot, x.published) && Published(x.watermarks, x.published)
    && (x.plan.Some? ==> Bound(x.plan.value.spot, x.plan.value.end) in x.published)
  }

  lemma NextPublished(x: System, y: System, step: Step)
    requires AllPublished(x) && Next(x, y, step)
    ensures AllPublished(y)
  {
  }

  /** In every state of every run all bounds in use and all watermarks are published bounds. */
  lemma {:induction false} RunPublished(states: seq<System>, steps: seq<Step>, i: nat)
    requires Run(states, steps) && i < |states|
    ensures AllPublished(states[i])
  {
    if i > 0 {
      RunPublished(states, steps, i - 1);
      assert StepAt(states, steps, i - 1);
      NextPublished(states[i - 1], states[i], steps[i - 1]);
    }
  }

  /** A watermark never falls and never changes without rising. */
  ghost predicate Rises(before: GcRange, after: GcRange) {
    forall spot :: spot in before ==>
      spot in after && (after[spot] == before[spot] || before[spot].endKey < after[spot].endKey)
  }

  /** What was planned is still above its watermark, and its span is one. */
  ghost predicate PlanOk(x: System) {
    x.plan.Some? ==>
      && CanDelete(x.watermarks, x.plan.value.spot, x.plan.value.end)
      && (x.plan.value.span.Some? ==> x.plan.value.span.value.0 <= x.plan.value.span.value.1)
  }

  lemma NextPlanOk(x: System, y: System, step: Step)
    requires PlanOk(x) && Next(x, y, step)
    ensures PlanOk(y)
  {
  }

  lemma {:induction false} RunPlanOk(states: seq<System>, steps: seq<Step>, i: nat)
    requires Run(states, steps) && i < |states|
    ensures PlanOk(states[i])
  {
    if i > 0 {
      RunPlanOk(states, steps, i - 1);
      assert StepAt(states, steps, i - 1);
      NextPlanOk(states[i - 1], states[i], steps[i - 1]);
    }
  }

  lemma NextRises(x: System, y: System, step: Step)
    requires PlanOk(x) && Next(x, y, step)
    ensures Rises(x.watermarks, y.watermarks)
  {
  }

  lemma {:induction false} RunRises(states: seq<System>, steps: seq<Step>, i: nat, j: nat)
    requires Run(states, steps) && i <= j < |states|
    ensures Rises(states[i].watermarks, states[j].watermarks)
    decreases j
  {
    if i < j {
      RunRises(states, steps, i, j - 1);
      assert StepAt(states, steps, j - 1);
      RunPlanOk(states, steps, j - 1);
      NextRises(states[j - 1], states[j], steps[j - 1]);
    }
  }

  /** Where a published bound comes from: the commit that handed it over. */
  ghost predicate Issued(states: seq<System>, steps: seq<Step>, i: nat, b: Bound) {
    && i < |steps| && i + 1 < |states| && steps[i].Commit? && b.spot.partition in steps[i].partitions
    && IsLeast(states[i].store, steps[i].blocks, |steps[i].blocks|, b.spot.shard, b.end)
  }

  lemma NewBound(x: System, y: System, step: Step, b: Bound)
    requires Next(x, y, step) && b !in x.pending && b !in x.published && (b in y.pending || b in y.published)
    ensures step.Commit? && b.spot.partition in step.partitions
    ensures IsLeast(x.store, step.blocks, |step.blocks|, b.spot.shard, b.end)
  {
    assert step.Commit?;
    var gc, o :| CommitStep(x.store, y.store, step.blocks, gc, o) && y.pending == BoundsOf(gc, step.partitions);
    assert b in BoundsOf(gc, step.partitions);
  }

  /** Every bound on its way or handed over was the least processed key that the changed top blocks
    of some earlier commit named for its shard. */
  lemma {:induction false} BoundsAreLeast(states: seq<System>, steps: seq<Step>, n: nat, b: Bound)
    requires Run(states, steps) && n < |states| && (b in states[n].pending || b in states[n].published)
    ensures exists i: nat :: i < n && Issued(states, steps, i, b)
  {
    var (x, y, step) := (states[n - 1], states[n], steps[n - 1]);
    if b in x.pending || b in x.published {
      BoundsAreLeast(states, steps, n - 1, b);
      var i: nat :| i < n - 1 && Issued(states, steps, i, b);
      assert i < n && Issued(states, steps, i, b);
    } else {
      assert StepAt(states, steps, n - 1);
      NewBound(x, y, step, b);
      assert Issued(states, steps, n - 1, b);
    }
  }

  // --- what is stored ---

  /** A diff that stays in the store is never rewritten, whatever else happens. */
  lemma StoredDiffsStay(x: System, y: System, step: Step, id: Id)
    requires Next(x, y, step) && id in x.store.infos && id in y.store.infos
    ensures y.store.infos[id] == x.store.infos[id]
  {
    if step.Apply? {
      var o :| QueueProtocol.ApplyStep(x.store, y.store, step.diff, step.zone, o);
    }
  }

  ghost predicate StoredThrough(states: seq<System>, id: Id, i: nat, j: nat) {
    i <= j < |states| && forall k :: i <= k <= j ==> id in states[k].store.infos
  }

  lemma {:induction false} RunKeepsDiff(states: seq<System>, steps: seq<Step>, id: Id, i: nat, j: nat)
    requires Run(states, steps) && StoredThrough(states, id, i, j)
    ensures states[j].store.infos[id] == states[i].store.infos[id]
    decreases j - i
  {
    if i < j {
      RunKeepsDiff(states, steps, id, i, j - 1);
      assert StepAt(states, steps, j - 1);
      StoredDiffsStay(states[j - 1], states[j], steps[j - 1], id);
    }
  }

  /** A diff that is stored with this hash, or that is not above the visible latest one, changes nothing at all. */
  lemma RepeatChangesNothing(x: System, y: System, d: QueueProtocol.Diff, zone: Option<Zone>)
    requires Next(x, y, Apply(d, zone)) && QueueProtocol.Repeated(x.store, d, zone)
    ensures y == x
  {
    var o :| QueueProtocol.ApplyStep(x.store, y.store, d, zone, o);
  }

  /** Over any run: a diff once stored can be applied again at any later time, with any check, without effect,
    as long as it was not deleted in between; another hash for its seqno has no effect either. */
  lemma ReapplyInRun(states: seq<System>, steps: seq<Step>, d: QueueProtocol.Diff, i: nat, j: nat)
    requires Run(states, steps) && StoredThrough(states, d.id, i, j) && j < |steps|
    requires steps[j].Apply? && steps[j].diff.id == d.id
    ensures states[j + 1] == states[j] && states[j + 1].store.infos[d.id] == states[i].store.infos[d.id]
  {
    RunKeepsDiff(states, steps, d.id, i, j);
    assert StepAt(states, steps, j);
    var o :| QueueProtocol.ApplyStep(states[j].store, states[j + 1].store, steps[j].diff, steps[j].zone, o);
  }

  /** What a step writes is new and lies above the shard's commit pointer. */
  lemma WrittenAbovePointer(x: System, y: System, d: QueueProtocol.Diff, zone: Option<Zone>)
    requires Next(x, y, Apply(d, zone)) && y.store != x.store
    ensures d.id !in x.store.infos && QueueProtocol.AbovePointer(x.store, d) && y.store == QueueProtocol.Write(x.store, d)
  {
    var o :| QueueProtocol.ApplyStep(x.store, y.store, d, zone, o);
  }

  /** With the check over both zones it also follows the latest diff of its shard. */
  lemma WrittenInSequence(x: System, y: System, d: QueueProtocol.Diff, last: nat)
    requires Next(x, y, Apply(d, Some(Both))) && y.store != x.store && IsLast(x.store.infos, d.id.shard, last)
    ensures d.id == Id(d.id.shard, last + 1) && IsLast(y.store.infos, d.id.shard, last + 1)
  {
    var o :| QueueProtocol.ApplyStep(x.store, y.store, d, Some(Both), o);
    assert QueueProtocol.Latest(x.store, d, Some(Both), last);
  }

  ghost predicate PointersRise(before: Store, after: Store) {
    forall shard :: shard in before.pointers ==>
      shard in after.pointers && before.pointers[shard].key <= after.pointers[shard].key
  }

  lemma NextPointersRise(x: System, y: System, step: Step)
    requires Next(x, y, step)
    ensures PointersRise(x.store, y.store)
  {
    match step
    case Commit(blocks, partitions) =>
      var gc, o :| CommitStep(x.store, y.store, blocks, gc, o) && y.pending == BoundsOf(gc, partitions);
      forall shard | shard in x.store.pointers
        ensures shard in y.store.pointers && x.store.pointers[shard].key <= y.store.pointers[shard].key
      {
        PointersNeverFall(x.store, y.store, blocks, gc, o, shard);
      }
    case _ =>
      assert y.store.pointers == x.store.pointers;
  }

  /** Over any run no commit pointer falls. */
  lemma {:induction false} RunPointersRise(states: seq<System>, steps: seq<Step>, i: nat, j: nat)
    requires Run(states, steps) && i <= j < |states|
    ensures PointersRise(states[i].store, states[j].store)
    decreases j
  {
    if i < j {
      RunPointersRise(states, steps, i, j - 1);
      assert StepAt(states, steps, j - 1);
      NextPointersRise(states[j - 1], states[j], steps[j - 1]);
    }
  }

  // --- gaps ---

  /** What keeps a step from leaving a gap: a written diff adjoins what is stored, a deletion reaches one end of it,
    whatever was stored when the collector read it. */
  ghost predicate LeavesNoGap(x: System, y: System, step: Step) {
    match step
    case Apply(d, zone) => QueueProtocol.Acceptable(x.store, d, zone) ==> QueueProtocol.Adjoins(x.store.infos, d.id)
    case Clear(partitions, topShards) =>
      partitions != {} ==> ClearLeavesNoGap(x.store, topShards)
    case Write =>
      x.plan.Some? && y.store != x.store ==>
        SpanReachesEnd(x.store.infos, x.plan.value.spot.shard, x.plan.value.span)
    case _ => true
  }

  ghost predicate ClearLeavesNoGap(s: Store, topShards: set<Shard>) {
    forall shard :: QueueProtocol.ClearReachesEnd(s, topShards, QueueProtocol.Named(s, topShards), shard)
  }

  lemma ApplyGapFreeIff(s: Store, s': Store, d: QueueProtocol.Diff, zone: Option<Zone>, o: QueueProtocol.Outcome)
    requires GapFree(s.infos) && QueueProtocol.ApplyStep(s, s', d, zone, o)
    ensures GapFree(s'.infos) <==> (QueueProtocol.Acceptable(s, d, zone) ==> QueueProtocol.Adjoins(s.infos, d.id))
  {
    if o == QueueProtocol.Written {
      assert Contiguous(s.infos, d.id.shard);
      QueueProtocol.WriteContiguousIff(s, d);
      forall shard | shard != d.id.shard
        ensures Contiguous(s'.infos, shard)
      {
        assert Contiguous(s.infos, shard);
      }
    }
  }

  lemma ClearGapFreeIff(s: Store, s': Store, topShards: set<Shard>)
    requires GapFree(s.infos) && QueueProtocol.Cleared(s, s', topShards, QueueProtocol.Named(s, topShards))
    ensures GapFree(s'.infos) <==> ClearLeavesNoGap(s, topShards)
  {
    forall shard
      ensures Contiguous(s'.infos, shard) <==>
        QueueProtocol.ClearReachesEnd(s, topShards, QueueProtocol.Named(s, topShards), shard)
    {
      QueueProtocol.ClearContiguousIff(s, s', topShards, QueueProtocol.Named(s, topShards), shard);
    }
  }

  lemma EraseGapFreeIff(s: Store, s': Store, shard: Shard, end: Key, span: Span)
    requires GapFree(s.infos) && Erased(s, s', shard, 0, end, span) && (span.Some? ==> span.value.0 <= span.value.1)
    ensures GapFree(s'.infos) <==> SpanReachesEnd(s.infos, shard, span)
  {
    assert Contiguous(s.infos, shard);
    EraseContiguousIff(s, s', shard, 0, end, span);
    forall x | x != shard
      ensures Contiguous(s'.infos, x)
    {
      assert Contiguous(s.infos, x);
    }
  }

  lemma NextGapFreeIff(x: System, y: System, step: Step)
    requires GapFree(x.store.infos) && PlanOk(x) && Next(x, y, step)
    ensures GapFree(y.store.infos) <==> LeavesNoGap(x, y, step)
  {
    match step
    case Apply(d, zone) =>
      var o :| QueueProtocol.ApplyStep(x.store, y.store, d, zone, o);
      ApplyGapFreeIff(x.store, y.store, d, zone, o);
    case Clear(partitions, topShards) =>
      if partitions != {} {
        ClearGapFreeIff(x.store, y.store, topShards);
      }
    case Write =>
      if y.store != x.store {
        var plan := x.plan.value;
        EraseGapFreeIff(x.store, y.store, plan.spot.shard, plan.end.endKey, plan.span);
      }
    case _ =>
  }

  ghost predicate GapFreeUpTo(states: seq<System>, n: nat) {
    n < |states| && forall i :: 0 <= i <= n ==> GapFree(states[i].store.infos)
  }

  ghost predicate NoGapLeftUpTo(states: seq<System>, steps: seq<Step>, n: nat) {
    |states| == |steps| + 1 && n <= |steps| && forall i :: 0 <= i < n ==> NoGapLeftAt(states, steps, i)
  }

  ghost predicate NoGapLeftAt(states: seq<System>, steps: seq<Step>, i: nat) {
    i < |steps| && i + 1 < |states| && LeavesNoGap(states[i], states[i + 1], steps[i])
  }

  lemma GapFreeOneMore(states: seq<System>, n: nat)
    requires 0 < n < |states|
    ensures GapFreeUpTo(states, n) <==> GapFreeUpTo(states, n - 1) && GapFree(states[n].store.infos)
    ensures GapFreeUpTo(states, n - 1) ==> GapFree(states[n - 1].store.infos)
  {
  }

  lemma NoGapLeftOneMore(states: seq<System>, steps: seq<Step>, n: nat)
    requires |states| == |steps| + 1 && 0 < n <= |steps|
    ensures NoGapLeftUpTo(states, steps, n) <==>
      NoGapLeftUpTo(states, steps, n - 1) && NoGapLeftAt(states, steps, n - 1)
  {
  }

  /** Any run at all, with any checks and any keys, stays free of gaps exactly as long as every written diff adjoins
    what is stored and every clear and every write of the collector reaches one end of it. */
  lemma {:induction false} RunGapFreeIff(states: seq<System>, steps: seq<Step>, n: nat)
    requires Run(states, steps) && n < |states|
    ensures GapFreeUpTo(states, n) <==> NoGapLeftUpTo(states, steps, n)
  {
    if n == 0 {
      assert GapFree(states[0].store.infos);
    } else {
      RunGapFreeIff(states, steps, n - 1);
      assert StepAt(states, steps, n - 1);
      GapFreeOneMore(states, n);
      NoGapLeftOneMore(states, steps, n);
      if GapFreeUpTo(states, n - 1) {
        RunPlanOk(states, steps, n - 1);
        NextGapFreeIff(states[n - 1], states[n], steps[n - 1]);
        assert GapFree(states[n].store.infos) <==> NoGapLeftAt(states, steps, n - 1);
      }
    }
  }

  // --- diffs with rising keys ---

  ghost predicate Sorted(s: Store) {
    Ordered(s) && Matched(s) && GapFree(s.infos)
  }

  /** The diff's last key is above those of the stored diffs of its shard. */
  ghost predicate InOrder(s: Store, d: QueueProtocol.Diff) {
    && 0 < d.id.seqno
    && forall id :: id in s.infos && id.shard == d.id.shard ==> s.infos[id].maxMessage < d.maxMessage
  }

  /** Diffs are checked over both zones, and those that get written carry rising keys; repeated, late and refused ones
    may carry any. */
  ghost predicate KeysRise(s: Store, step: Step) {
    step.Apply? ==> step.zone == Some(Both) && (QueueProtocol.Acceptable(s, step.diff, Some(Both)) ==> InOrder(s, step.diff))
  }

  lemma WriteOrdered(s: Store, d: QueueProtocol.Diff)
    requires Ordered(s) && InOrder(s, d) && QueueProtocol.Acceptable(s, d, Some(Both))
    ensures Ordered(QueueProtocol.Write(s, d))
  {
    var shard := d.id.shard;
    QueueProtocol.LastExists(s.infos, shard);
    if !NoneOf(s.infos, shard) {
      var last: nat :| IsLast(s.infos, shard, last);
      assert QueueProtocol.Latest(s, d, Some(Both), last);
    }
    forall id | id in s.infos && id.shard == shard
      ensures id.seqno < d.id.seqno
    {
      assert id == Id(shard, id.seqno);
    }
  }

  lemma WriteMatched(s: Store, d: QueueProtocol.Diff)
    requires Matched(s) && InOrder(s, d) && d.id !in s.infos
    ensures Matched(QueueProtocol.Write(s, d))
  {
    var s' := QueueProtocol.Write(s, d);
    forall id | id in s'.infos
      ensures HasTail(s', id)
    {
      if id != d.id {
        assert HasTail(s, id);
      }
    }
    forall t | t in s'.tails
      ensures HasInfo(s', t)
    {
      if t != TailKey(d.id.shard, d.maxMessage) {
        assert HasInfo(s, t);
      }
    }
  }

  lemma ApplySorted(s: Store, d: QueueProtocol.Diff, o: QueueProtocol.Outcome, s': Store)
    requires Sorted(s) && QueueProtocol.ApplyStep(s, s', d, Some(Both), o)
    requires QueueProtocol.Acceptable(s, d, Some(Both)) ==> InOrder(s, d)
    ensures Sorted(s')
  {
    if o == QueueProtocol.Written {
      WriteOrdered(s, d);
      WriteMatched(s, d);
      forall shard
        ensures Contiguous(s'.infos, shard)
      {
        assert Contiguous(s.infos, shard);
        QueueProtocol.ApplyContiguous(s, s', d, o, shard);
      }
    }
  }

  /** Taking out diffs by key, from one end of a shard, keeps a sorted store sorted. */
  ghost predicate Trimmed(s: Store, s': Store, gone: (Shard, Key) -> bool) {
    && (forall id :: id in s'.infos <==> id in s.infos && !gone(id.shard, s.infos[id].maxMessage))
    && (forall id :: id in s'.infos ==> s'.infos[id] == s.infos[id])
    && (forall t :: t in s'.tails <==> t in s.tails && !gone(t.shard, t.key))
    && (forall t :: t in s'.tails ==> s'.tails[t] == s.tails[t])
  }

  ghost predicate OneSided(gone: (Shard, Key) -> bool) {
    forall shard, a: Key, b: Key, c: Key ::
      a < b < c && gone(shard, b) ==> gone(shard, a) || gone(shard, c)
  }

  lemma TrimmedMatched(s: Store, s': Store, gone: (Shard, Key) -> bool)
    requires Ordered(s) && Matched(s) && Trimmed(s, s', gone)
    ensures Ordered(s') && Matched(s')
  {
    forall id | id in s'.infos
      ensures HasTail(s', id)
    {
      assert HasTail(s, id);
    }
    forall t | t in s'.tails
      ensures HasInfo(s', t)
    {
      assert HasInfo(s, t);
    }
  }

  lemma TrimmedBetween(s: Store, s': Store, gone: (Shard, Key) -> bool, lo: Id, id: Id, hi: Id)
    requires Ordered(s) && Trimmed(s, s', gone) && OneSided(gone)
    requires lo in s'.infos && id in s.infos && hi in s'.infos
    requires lo.shard == id.shard == hi.shard && lo.seqno < id.seqno < hi.seqno
    ensures id in s'.infos
  {
    var (a, b, c) := (s.infos[lo].maxMessage, s.infos[id].maxMessage, s.infos[hi].maxMessage);
    assert a < b < c;
    assert !gone(id.shard, a) && !gone(id.shard, c);
  }

  lemma TrimmedContiguous(s: Store, s': Store, gone: (Shard, Key) -> bool, shard: Shard)
    requires Ordered(s) && Contiguous(s.infos, shard) && Trimmed(s, s', gone) && OneSided(gone)
    ensures Contiguous(s'.infos, shard)
  {
    forall lo: nat, n: nat, hi: nat
      | Id(shard, lo) in s'.infos && Id(shard, hi) in s'.infos && lo <= n <= hi
      ensures Id(shard, n) in s'.infos
    {
      if lo < n < hi {
        assert Id(shard, n) in s.infos;
        TrimmedBetween(s, s', gone, Id(shard, lo), Id(shard, n), Id(shard, hi));
      }
    }
  }

  lemma TrimmedSorted(s: Store, s': Store, gone: (Shard, Key) -> bool)
    requires Sorted(s) && Trimmed(s, s', gone) && OneSided(gone)
    ensures Sorted(s')
  {
    TrimmedMatched(s, s', gone);
    forall shard
      ensures Contiguous(s'.infos, shard)
    {
      TrimmedContiguous(s, s', gone, shard);
    }
  }

  lemma ClearedSorted(s: Store, s': Store, topShards: set<Shard>)
    requires Sorted(s) && QueueProtocol.Cleared(s, s', topShards, QueueProtocol.Named(s, topShards))
    ensures Sorted(s')
  {
    var shards := QueueProtocol.Named(s, topShards);
    var gone := (x: Shard, k: Key) => x in shards && QueueProtocol.TailGoes(s, topShards, shards, TailKey(x, k));
    forall id | id in s.infos
      ensures id in s'.infos <==> !gone(id.shard, s.infos[id].maxMessage)
    {
      var from := QueueProtocol.ClearFrom(s, topShards, id.shard);
      if from.Some? {
        GoesByKey(s, id.shard, from.value, MAX_KEY, id);
      }
    }
    forall t
      ensures t in s'.tails <==> t in s.tails && !gone(t.shard, t.key)
    {
      assert t == TailKey(t.shard, t.key);
    }
    TrimmedSorted(s, s', gone);
  }

  /** What the plan takes by seqno is what it takes by key. */
  ghost predicate PlanFits(s: Store, plan: Plan) {
    forall id :: id in s.infos && id.shard == plan.spot.shard ==>
      (Within(plan.span, id.seqno) <==> s.infos[id].maxMessage <= plan.end.endKey)
  }

  ghost predicate PlanErased(s: Store, s': Store, plan: Plan) {
    Erased(s, s', plan.spot.shard, 0, plan.end.endKey, plan.span)
  }

  lemma FittingSorted(s: Store, s': Store, plan: Plan)
    requires Sorted(s) && PlanErased(s, s', plan) && PlanFits(s, plan)
    ensures Sorted(s')
  {
    TrimmedSorted(s, s', (x: Shard, k: Key) => x == plan.spot.shard && k <= plan.end.endKey);
  }

  lemma MisfitUnmatched(s: Store, s': Store, plan: Plan)
    requires Sorted(s) && PlanErased(s, s', plan) && !PlanFits(s, plan)
    ensures !Matched(s')
  {
    var id :| id in s.infos && id.shard == plan.spot.shard
      && (Within(plan.span, id.seqno) <==> plan.end.endKey < s.infos[id].maxMessage);
    var t := TailKey(id.shard, s.infos[id].maxMessage);
    assert HasTail(s, id);
    if Within(plan.span, id.seqno) {
      assert t in s'.tails && !HasInfo(s', t);
    } else {
      assert id in s'.infos && !HasTail(s', id);
    }
  }

  /** The exact condition for a step of rising keys to keep the store gap-free and tails and infos matched:
    what the collector writes still fits what is stored. */
  lemma NextSortedIff(x: System, y: System, step: Step)
    requires Sorted(x.store) && Next(x, y, step) && KeysRise(x.store, step)
    ensures Sorted(y.store) <==> (step.Write? && y.store != x.store ==> PlanFits(x.store, x.plan.value))
  {
    match step
    case Apply(d, zone) =>
      var o :| QueueProtocol.ApplyStep(x.store, y.store, d, zone, o);
      ApplySorted(x.store, d, o, y.store);
    case Commit(blocks, partitions) =>
      assert y.store.infos == x.store.infos && y.store.tails == x.store.tails;
      SameSorted(x.store, y.store);
    case Clear(partitions, topShards) =>
      if partitions != {} {
        ClearedSorted(x.store, y.store, topShards);
      }
    case Write =>
      if y.store != x.store {
        if PlanFits(x.store, x.plan.value) {
          FittingSorted(x.store, y.store, x.plan.value);
        } else {
          MisfitUnmatched(x.store, y.store, x.plan.value);
        }
      }
    case _ =>
  }

  lemma SameSorted(s: Store, s': Store)
    requires Sorted(s) && s'.infos == s.infos && s'.tails == s.tails
    ensures Sorted(s')
  {
    forall id | id in s'.infos
      ensures HasTail(s', id)
    {
      assert HasTail(s, id);
    }
    forall t | t in s'.tails
      ensures HasInfo(s', t)
    {
      assert HasInfo(s, t);
    }
  }

  ghost predicate KeysRiseIn(states: seq<System>, steps: seq<Step>) {
    |states| == |steps| + 1 && forall i :: 0 <= i < |steps| ==> KeysRise(states[i].store, steps[i])
  }

  ghost predicate SortedUpTo(states: seq<System>, n: nat) {
    n < |states| && forall i :: 0 <= i <= n ==> Sorted(states[i].store)
  }

  ghost predicate FitsUpTo(states: seq<System>, steps: seq<Step>, n: nat) {
    |states| == |steps| + 1 && n <= |steps| && forall i :: 0 <= i < n ==> FitsAt(states, steps, i)
  }

  ghost predicate FitsAt(states: seq<System>, steps: seq<Step>, i: nat) {
    && i < |steps| && i + 1 < |states|
    && (steps[i].Write? && states[i + 1].store != states[i].store ==>
          states[i].plan.Some? && PlanFits(states[i].store, states[i].plan.value))
  }

  lemma SortedThenFits(states: seq<System>, steps: seq<Step>, i: nat)
    requires StepAt(states, steps, i) && KeysRise(states[i].store, steps[i]) && Sorted(states[i].store)
    ensures Sorted(states[i + 1].store) <==> FitsAt(states, steps, i)
  {
    NextSortedIff(states[i], states[i + 1], steps[i]);
  }

  lemma SortedOneMore(states: seq<System>, n: nat)
    requires 0 < n < |states|
    ensures SortedUpTo(states, n) <==> SortedUpTo(states, n - 1) && Sorted(states[n].store)
    ensures SortedUpTo(states, n - 1) ==> Sorted(states[n - 1].store)
  {
  }

  lemma FitsOneMore(states: seq<System>, steps: seq<Step>, n: nat)
    requires |states| == |steps| + 1 && 0 < n <= |steps|
    ensures FitsUpTo(states, steps, n) <==> FitsUpTo(states, steps, n - 1) && FitsAt(states, steps, n - 1)
  {
  }

  /** Any run with rising keys keeps seqnos without gaps and tails and infos matched exactly as long as every batch of the
    collector fits what is stored when it is written. */
  lemma {:induction false} RunSortedIff(states: seq<System>, steps: seq<Step>, n: nat)
    requires Run(states, steps) && KeysRiseIn(states, steps) && n < |states|
    ensures SortedUpTo(states, n) <==> FitsUpTo(states, steps, n)
  {
    if n == 0 {
      assert Sorted(states[0].store);
    } else {
      RunSortedIff(states, steps, n - 1);
      assert StepAt(states, steps, n - 1);
      assert KeysRise(states[n - 1].store, steps[n - 1]);
      SortedOneMore(states, n);
      FitsOneMore(states, steps, n);
      if SortedUpTo(states, n - 1) {
        SortedThenFits(states, steps, n - 1);
      }
    }
  }

  // --- when every plan fits ---

  /** Written diffs end above the commit pointer, and the collector reads up to bounds that are committed. */
  ghost predicate Tame(x: System, step: Step) {
    match step
    case Apply(d, zone) => QueueProtocol.Acceptable(x.store, d, zone) && d.id.shard in x.store.pointers ==>
      x.store.pointers[d.id.shard].key < d.maxMessage
    case Read(spot) => spot in x.snapshot ==> Reached(x.store, spot.shard, x.snapshot[spot].endKey)
    case _ => true
  }

  ghost predicate TameIn(states: seq<System>, steps: seq<Step>) {
    |states| == |steps| + 1 && forall i :: 0 <= i < |steps| ==> Tame(states[i], steps[i])
  }

  /** The commit pointer of the shard is at or above the key. */
  predicate Reached(s: Store, shard: Shard, key: Key) {
    shard in s.pointers && key <= s.pointers[shard].key
  }

  /** A plan that will still fit when it is written. */
  ghost predicate Holds(s: Store, plan: Plan) {
    && PlanFits(s, plan) && Reached(s, plan.spot.shard, plan.end.endKey)
    && (plan.span.Some? ==> Within(plan.span, plan.span.value.1) && TopStays(s, plan))
  }

  ghost predicate TopStays(s: Store, plan: Plan)
    requires plan.span.Some?
  {
    Id(plan.spot.shard, plan.span.value.1) in s.infos || plan.end.endKey == MAX_KEY
  }

  lemma ReadHolds(s: Store, plan: Plan)
    requires Sorted(s) && Spans(s, plan.spot.shard, 0, plan.end.endKey, plan.span)
    requires Reached(s, plan.spot.shard, plan.end.endKey)
    ensures Holds(s, plan)
  {
    var (shard, end) := (plan.spot.shard, plan.end.endKey);
    forall id | id in s.infos && id.shard == shard
      ensures Within(plan.span, id.seqno) <==> s.infos[id].maxMessage <= end
    {
      GoesByKey(s, shard, 0, end, id);
      SpanGoes(s, shard, 0, end, plan.span, id);
    }
    if plan.span.Some? {
      NamedInRange(s, shard, 0, end, plan.span.value.1);
      assert HasTail(s, Id(shard, plan.span.value.1));
    }
  }

  lemma ApplyHolds(s: Store, d: QueueProtocol.Diff, plan: Plan)
    requires Holds(s, plan) && QueueProtocol.Acceptable(s, d, Some(Both))
    requires d.id.shard in s.pointers ==> s.pointers[d.id.shard].key < d.maxMessage
    ensures Holds(QueueProtocol.Write(s, d), plan)
  {
    var shard := plan.spot.shard;
    if d.id.shard == shard && plan.span.Some? {
      var hi := plan.span.value.1;
      assert Id(shard, hi) in s.infos;
      QueueProtocol.LastExists(s.infos, shard);
      var last: nat :| IsLast(s.infos, shard, last);
      assert QueueProtocol.Latest(s, d, Some(Both), last);
      assert hi < d.id.seqno;
    }
  }

  /** A clear takes nothing at or below the commit pointer, unless that is the largest key. */
  lemma ClearSparesReached(s: Store, topShards: set<Shard>, shards: set<Shard>, id: Id)
    requires Ordered(s) && Matched(s) && id in s.infos && s.infos[id].maxMessage < MAX_KEY
    requires Reached(s, id.shard, s.infos[id].maxMessage)
    ensures !QueueProtocol.GoesAway(s, topShards, shards, id)
  {
    var from := NextKey(s.pointers[id.shard].key);
    assert QueueProtocol.ClearFrom(s, topShards, id.shard) == Some(from);
    assert s.infos[id].maxMessage < from;
    GoesByKey(s, id.shard, from, MAX_KEY, id);
  }

  lemma ClearKeepsReached(s: Store, s': Store, topShards: set<Shard>, shards: set<Shard>, id: Id)
    requires Ordered(s) && Matched(s) && id in s.infos && s.infos[id].maxMessage < MAX_KEY
    requires Reached(s, id.shard, s.infos[id].maxMessage)
    requires QueueProtocol.Cleared(s, s', topShards, shards)
    ensures id in s'.infos
  {
    ClearSparesReached(s, topShards, shards, id);
  }

  lemma ClearFits(s: Store, s': Store, topShards: set<Shard>, plan: Plan)
    requires PlanFits(s, plan) && Reached(s, plan.spot.shard, plan.end.endKey)
    requires QueueProtocol.Cleared(s, s', topShards, QueueProtocol.Named(s, topShards))
    ensures PlanFits(s', plan) && Reached(s', plan.spot.shard, plan.end.endKey)
  {
  }

  lemma ClearHolds(s: Store, s': Store, topShards: set<Shard>, plan: Plan)
    requires Sorted(s) && Holds(s, plan)
    requires QueueProtocol.Cleared(s, s', topShards, QueueProtocol.Named(s, topShards))
    ensures Holds(s', plan)
  {
    ClearFits(s, s', topShards, plan);
    if plan.span.Some? && plan.end.endKey < MAX_KEY {
      var id := Id(plan.spot.shard, plan.span.value.1);
      assert id in s.infos && s.infos[id].maxMessage <= plan.end.endKey;
      ClearKeepsReached(s, s', topShards, QueueProtocol.Named(s, topShards), id);
    }
  }

  lemma NextHolds(x: System, y: System, step: Step)
    requires Sorted(x.store) && Next(x, y, step) && KeysRise(x.store, step) && Tame(x, step)
    requires x.plan.Some? ==> Holds(x.store, x.plan.value)
    ensures y.plan.Some? ==> Holds(y.store, y.plan.value)
  {
    match step
    case Apply(d, zone) =>
      var o :| QueueProtocol.ApplyStep(x.store, y.store, d, zone, o);
      if x.plan.Some? && o == QueueProtocol.Written {
        ApplyHolds(x.store, d, x.plan.value);
      }
    case Commit(blocks, partitions) =>
      NextPointersRise(x, y, step);
      assert y.store.infos == x.store.infos;
    case Clear(partitions, topShards) =>
      if x.plan.Some? && partitions != {} {
        ClearHolds(x.store, y.store, topShards, x.plan.value);
      }
    case Read(spot) =>
      if y.plan.Some? {
        ReadHolds(x.store, y.plan.value);
      }
    case _ =>
  }

  /** In every state of every run with rising keys and committed bounds the stored seqnos of each shard have no gap and
    tails and infos match, whatever falls between the collector's read and its write. */
  lemma {:induction false} RunSorted(states: seq<System>, steps: seq<Step>, i: nat)
    requires Run(states, steps) && KeysRiseIn(states, steps) && TameIn(states, steps) && i < |states|
    ensures Sorted(states[i].store)
    ensures states[i].plan.Some? ==> Holds(states[i].store, states[i].plan.value)
  {
    if i > 0 {
      RunSorted(states, steps, i - 1);
      assert StepAt(states, steps, i - 1);
      assert KeysRise(states[i - 1].store, steps[i - 1]) && Tame(states[i - 1], steps[i - 1]);
      NextSortedIff(states[i - 1], states[i], steps[i - 1]);
      NextHolds(states[i - 1], states[i], steps[i - 1]);
    }
  }
}
