/** Committing top blocks: commit pointers and garbage collection bounds. */
module QueueCommits {
  import Worklists
  import opened Wrappers
  import opened QueueStore

  const MASTERCHAIN: Shard := 0

  datatype TopBlock = TopBlock(id: Id, changed: bool)

  /** Up to which key a shard may be cleaned, and the top block that says so. */
  datatype GcEndKey = GcEndKey(endKey: Key, onTopBlock: Id)

  datatype Outcome = Done | Skipped | Failed

  // --- what the blocks say ---

  ghost predicate Found(s: Store, blocks: seq<TopBlock>, i: int) {
    0 <= i < |blocks| && blocks[i].id in s.infos
  }

  /** A changed block without a stored diff; block zero of the masterchain needs none. */
  ghost predicate Missing(s: Store, blocks: seq<TopBlock>, mcSeqno: nat, i: int) {
    0 <= i < |blocks| && blocks[i].id !in s.infos && blocks[i].changed && mcSeqno != 0
  }

  ghost predicate Twice(s: Store, blocks: seq<TopBlock>, i: int, j: int) {
    i < j && Found(s, blocks, i) && Found(s, blocks, j) && blocks[i].id.shard == blocks[j].id.shard
  }

  ghost predicate Sound(s: Store, blocks: seq<TopBlock>, mcSeqno: nat, n: nat) {
    && (forall i :: i < n ==> !Missing(s, blocks, mcSeqno, i))
    && (forall i, j :: j < n ==> !Twice(s, blocks, i, j))
  }

  ghost predicate PointersFrom(s: Store, blocks: seq<TopBlock>, n: nat, cp: map<Shard, Pointer>) {
    && (forall i :: i < n && Found(s, blocks, i) ==>
          blocks[i].id.shard in cp
          && cp[blocks[i].id.shard] == Pointer(s.infos[blocks[i].id].maxMessage, blocks[i].id.seqno))
    && (forall shard :: shard in cp ==> exists i :: i < n && Found(s, blocks, i) && blocks[i].id.shard == shard)
  }

  /** A changed block whose diff says how far it has processed the shard. */
  ghost predicate Names(s: Store, blocks: seq<TopBlock>, i: int, shard: Shard) {
    Found(s, blocks, i) && blocks[i].changed && shard in s.infos[blocks[i].id].processedTo
  }

  ghost predicate IsLeast(s: Store, blocks: seq<TopBlock>, n: nat, shard: Shard, end: GcEndKey) {
    && (forall i :: i < n && Names(s, blocks, i, shard) ==> end.endKey <= s.infos[blocks[i].id].processedTo[shard])
    && (exists i :: i < n && Names(s, blocks, i, shard)
          && end == GcEndKey(s.infos[blocks[i].id].processedTo[shard], blocks[i].id))
  }

  /** One bound for each shard that is named, the least that is named for it. */
  ghost predicate LeastBounds(s: Store, blocks: seq<TopBlock>, n: nat, gc: map<Shard, GcEndKey>) {
    && (forall i, shard :: i < n && Names(s, blocks, i, shard) ==> shard in gc)
    && (forall shard :: shard in gc ==> IsLeast(s, blocks, n, shard, gc[shard]))
  }

  // --- the commit loop ---

  /** The bounds lowered to one block's processed keys, for the shards of `seen`. */
  ghost predicate Lowered(gc: map<Shard, GcEndKey>, processedTo: map<Shard, Key>, block: Id, seen: set<Shard>,
                          r: map<Shard, GcEndKey>)
  {
    && (forall shard :: shard in r <==> shard in gc || (shard in processedTo && shard in seen))
    && (forall shard :: shard in r ==> r[shard] == LowerOf(gc, processedTo, block, seen, shard))
  }

  ghost function LowerOf(gc: map<Shard, GcEndKey>, processedTo: map<Shard, Key>, block: Id, seen: set<Shard>, shard: Shard)
    : GcEndKey
  {
    if shard in processedTo && shard in seen && (shard in gc ==> processedTo[shard] < gc[shard].endKey)
    then GcEndKey(processedTo[shard], block)
    else if shard in gc then gc[shard] else GcEndKey(0, block)
  }

  method LowerBound(ghost gc: map<Shard, GcEndKey>, processedTo: map<Shard, Key>, block: Id, ghost seen: set<Shard>,
                    r: map<Shard, GcEndKey>, shard: Shard)
    returns (r': map<Shard, GcEndKey>)
    requires Lowered(gc, processedTo, block, seen, r) && shard in processedTo && shard !in seen
    ensures Lowered(gc, processedTo, block, seen + {shard}, r')
  {
    r' := r;
    if shard !in r || processedTo[shard] < r[shard].endKey {
      r' := r[shard := GcEndKey(processedTo[shard], block)];
    }
  }

  method LowerBounds(gc: map<Shard, GcEndKey>, processedTo: map<Shard, Key>, block: Id) returns (r: map<Shard, GcEndKey>)
    ensures Lowered(gc, processedTo, block, processedTo.Keys, r)
  {
    r := gc;
    var todo := processedTo.Keys;
    Worklists.NoneDone(todo);
    while todo != {}
      invariant todo <= processedTo.Keys
      invariant Lowered(gc, processedTo, block, processedTo.Keys - todo, r)
      decreases |todo|
    {
      var shard :| shard in todo;
      Worklists.OneMore(processedTo.Keys, todo, shard);
      r := LowerBound(gc, processedTo, block, processedTo.Keys - todo, r, shard);
      todo := todo - {shard};
    }
    Worklists.AllDone(processedTo.Keys);
  }

  lemma LeastBoundsStep(s: Store, blocks: seq<TopBlock>, n: nat, gc: map<Shard, GcEndKey>, gc': map<Shard, GcEndKey>)
    requires LeastBounds(s, blocks, n, gc) && Found(s, blocks, n) && blocks[n].changed
    requires var m := s.infos[blocks[n].id].processedTo; Lowered(gc, m, blocks[n].id, m.Keys, gc')
    ensures LeastBounds(s, blocks, n + 1, gc')
  {
    var m := s.infos[blocks[n].id].processedTo;
    forall shard | shard in gc'
      ensures IsLeast(s, blocks, n + 1, shard, gc'[shard])
    {
      if shard in gc {
        assert IsLeast(s, blocks, n, shard, gc[shard]);
      }
      if shard in m {
        assert Names(s, blocks, n, shard);
      }
    }
  }

  lemma LeastBoundsSkip(s: Store, blocks: seq<TopBlock>, n: nat, gc: map<Shard, GcEndKey>)
    requires LeastBounds(s, blocks, n, gc) && n < |blocks|
    requires !Found(s, blocks, n) || !blocks[n].changed
    ensures LeastBounds(s, blocks, n + 1, gc)
  {
    forall shard | shard in gc
      ensures IsLeast(s, blocks, n + 1, shard, gc[shard])
    {
      assert IsLeast(s, blocks, n, shard, gc[shard]);
    }
  }

  method Gather(s: Store, blocks: seq<TopBlock>, mcSeqno: nat)
    returns (ok: bool, cp: map<Shard, Pointer>, gc: map<Shard, GcEndKey>)
    ensures ok <==> Sound(s, blocks, mcSeqno, |blocks|)
    ensures ok ==> PointersFrom(s, blocks, |blocks|, cp) && LeastBounds(s, blocks, |blocks|, gc)
  {
    ok, cp, gc := true, map[], map[];
    for n := 0 to |blocks|
      invariant ok && Sound(s, blocks, mcSeqno, n)
      invariant PointersFrom(s, blocks, n, cp) && LeastBounds(s, blocks, n, gc)
    {
      var (id, changed) := (blocks[n].id, blocks[n].changed);
      if id !in s.infos {
        if changed && mcSeqno != 0 {
          assert Missing(s, blocks, mcSeqno, n);
          return false, cp, gc;
        }
        LeastBoundsSkip(s, blocks, n, gc);
      } else {
        assert Found(s, blocks, n);
        if id.shard in cp {
          ghost var i :| i < n && Found(s, blocks, i) && blocks[i].id.shard == id.shard;
          assert Twice(s, blocks, i, n);
          return false, cp, gc;
        }
        cp := cp[id.shard := Pointer(s.infos[id].maxMessage, id.seqno)];
        if changed {
          ghost var before := gc;
          gc := LowerBounds(gc, s.infos[id].processedTo, id);
          LeastBoundsStep(s, blocks, n, before, gc);
        } else {
          LeastBoundsSkip(s, blocks, n, gc);
        }
      }
    }
  }

  // --- moving the pointers ---

  function OldKey(pointers: map<Shard, Pointer>, shard: Shard): Key {
    if shard in pointers then pointers[shard].key else 0
  }

  /** Pointers move only up to strictly greater keys. */
  ghost predicate Advanced(before: map<Shard, Pointer>, cp: map<Shard, Pointer>, seen: set<Shard>, after: map<Shard, Pointer>) {
    && (forall shard :: shard in after <==> shard in before || Moves(before, cp, seen, shard))
    && (forall shard :: shard in after ==>
          after[shard] == if Moves(before, cp, seen, shard) then cp[shard] else before[shard])
  }

  predicate Moves(before: map<Shard, Pointer>, cp: map<Shard, Pointer>, seen: set<Shard>, shard: Shard) {
    shard in seen && shard in cp && OldKey(before, shard) < cp[shard].key
  }

  method CommitPointer(before: map<Shard, Pointer>, cp: map<Shard, Pointer>, ghost seen: set<Shard>,
                       after: map<Shard, Pointer>, shard: Shard)
    returns (r: map<Shard, Pointer>)
    requires Advanced(before, cp, seen, after) && shard in cp && shard !in seen
    ensures Advanced(before, cp, seen + {shard}, r)
  {
    r := after;
    if OldKey(before, shard) < cp[shard].key {
      r := after[shard := cp[shard]];
    }
  }

  method CommitMessages(before: map<Shard, Pointer>, cp: map<Shard, Pointer>) returns (after: map<Shard, Pointer>)
    ensures Advanced(before, cp, cp.Keys, after)
  {
    after := before;
    var todo := cp.Keys;
    Worklists.NoneDone(todo);
    while todo != {}
      invariant todo <= cp.Keys && Advanced(before, cp, cp.Keys - todo, after)
      decreases |todo|
    {
      var shard :| shard in todo;
      Worklists.OneMore(cp.Keys, todo, shard);
      after := CommitPointer(before, cp, cp.Keys - todo, after, shard);
      todo := todo - {shard};
    }
    Worklists.AllDone(cp.Keys);
  }

  ghost predicate FirstMc(blocks: seq<TopBlock>, i: int) {
    && 0 <= i < |blocks| && blocks[i].id.shard == MASTERCHAIN
    && forall j :: 0 <= j < i ==> blocks[j].id.shard != MASTERCHAIN
  }

  ghost predicate Behind(s: Store, blocks: seq<TopBlock>, i: int) {
    FirstMc(blocks, i) && MASTERCHAIN in s.pointers && blocks[i].id.seqno <= s.pointers[MASTERCHAIN].seqno
  }

  ghost predicate Commits(s: Store, blocks: seq<TopBlock>, i: int) {
    FirstMc(blocks, i) && !Behind(s, blocks, i) && Sound(s, blocks, blocks[i].id.seqno, |blocks|)
  }

  ghost predicate PointersMoved(s: Store, s': Store, blocks: seq<TopBlock>) {
    exists cp :: PointersFrom(s, blocks, |blocks|, cp) && Advanced(s.pointers, cp, cp.Keys, s'.pointers)
  }

  /** A whole commit: when it happens, what it moves, what bounds it hands to the collector. */
  ghost predicate CommitStep(s: Store, s': Store, blocks: seq<TopBlock>, gc: map<Shard, GcEndKey>, o: Outcome) {
    && (o == Done <==> exists i :: Commits(s, blocks, i))
    && (o == Skipped <==> exists i :: Behind(s, blocks, i))
    && (o != Done ==> s' == s && gc == map[])
    && (o == Done ==> s'.infos == s.infos && s'.tails == s.tails && PointersMoved(s, s', blocks)
                      && LeastBounds(s, blocks, |blocks|, gc))
    && (o == Done ==> forall i :: FirstMc(blocks, i) ==> s'.lastMc == Some(blocks[i].id))
  }

  method FindMc(blocks: seq<TopBlock>) returns (r: Option<nat>)
    ensures r.Some? ==> FirstMc(blocks, r.value)
    ensures r.None? ==> forall i :: !FirstMc(blocks, i)
  {
    for i := 0 to |blocks|
      invariant forall j :: 0 <= j < i ==> blocks[j].id.shard != MASTERCHAIN
    {
      if blocks[i].id.shard == MASTERCHAIN {
        return Some(i);
      }
    }
    return None;
  }

  method Commit(s: Store, blocks: seq<TopBlock>) returns (s': Store, gc: map<Shard, GcEndKey>, o: Outcome)
    ensures CommitStep(s, s', blocks, gc, o)
  {
    var mc := FindMc(blocks);
    if mc.None? {
      return s, map[], Failed;
    }
    assert forall j :: FirstMc(blocks, j) ==> j == mc.value;
    var seqno := blocks[mc.value].id.seqno;
    if MASTERCHAIN in s.pointers && seqno <= s.pointers[MASTERCHAIN].seqno {
      assert Behind(s, blocks, mc.value);
      return s, map[], Skipped;
    }
    var ok, cp, ranges := Gather(s, blocks, seqno);
    if !ok {
      return s, map[], Failed;
    }
    assert Commits(s, blocks, mc.value);
    var pointers := CommitMessages(s.pointers, cp);
    return s.(pointers := pointers, lastMc := Some(blocks[mc.value].id)), ranges, Done;
  }

  /** No commit moves a pointer down, and an unchanged key keeps its seqno. */
  lemma PointersNeverFall(s: Store, s': Store, blocks: seq<TopBlock>, gc: map<Shard, GcEndKey>, o: Outcome, shard: Shard)
    requires CommitStep(s, s', blocks, gc, o) && shard in s.pointers
    ensures shard in s'.pointers && s.pointers[shard].key <= s'.pointers[shard].key
    ensures s.pointers[shard].key == s'.pointers[shard].key ==> s'.pointers[shard] == s.pointers[shard]
  {
    if o == Done {
      var cp :| PointersFrom(s, blocks, |blocks|, cp) && Advanced(s.pointers, cp, cp.Keys, s'.pointers);
    }
  }

  /** What a commit covers lies in the committed zone afterwards and not in the other one,
    save a diff without any key in a shard that had no pointer. */
  lemma CommittedIsVisible(s: Store, s': Store, blocks: seq<TopBlock>, gc: map<Shard, GcEndKey>, i: int)
    requires CommitStep(s, s', blocks, gc, Done) && Found(s, blocks, i)
    ensures var (id, max) := (blocks[i].id, s.infos[blocks[i].id].maxMessage);
      && (Visible(s', id, Committed) <==> 0 < max || id.shard in s.pointers)
      && (Visible(s', id, Uncommitted) <==> !Visible(s', id, Committed))
      && Visible(s', id, Both)
  {
    var cp :| PointersFrom(s, blocks, |blocks|, cp) && Advanced(s.pointers, cp, cp.Keys, s'.pointers);
    assert blocks[i].id.shard in cp;
  }
}
