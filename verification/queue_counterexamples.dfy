/** Two runs from the empty store that end badly. */
module QueueCounterexamples {
  import opened Wrappers
  import opened QueueStore
  import QueueProtocol
  import opened QueueCommits
  import opened QueueRuns

  function Holding(s: Store): System {
    START.(store := s)
  }

  const BLOCKS := [TopBlock(Id(0, 1), true)]

  lemma BlockCommits(s: Store)
    requires Id(0, 1) in s.infos && s.pointers == map[]
    ensures Commits(s, BLOCKS, 0) && forall i :: FirstMc(BLOCKS, i) ==> i == 0
  {
    assert FirstMc(BLOCKS, 0);
    assert Found(s, BLOCKS, 0);
  }

  lemma PointersMove(s: Store, s': Store, key: Key)
    requires Id(0, 1) in s.infos && s.infos[Id(0, 1)].maxMessage == key && 0 < key
    requires s.pointers == map[] && s'.pointers == map[0 := Pointer(key, 1)]
    ensures PointersMoved(s, s', BLOCKS)
  {
    var cp := map[0 := Pointer(key, 1)];
    assert Found(s, BLOCKS, 0);
    assert PointersFrom(s, BLOCKS, 1, cp);
    assert Advanced(s.pointers, cp, cp.Keys, s'.pointers);
  }

  // --- a clear that leaves a gap ---

  const GAP_FIRST := QueueProtocol.Diff(Id(0, 1), 7, Some(1), 10, map[])
  const GAP_SECOND := QueueProtocol.Diff(Id(0, 2), 8, Some(11), 20, map[])

  /** An empty diff whose last key lies below the commit pointer. */
  const GAP_LOW := QueueProtocol.Diff(Id(0, 3), 9, None, 5, map[])

  const ONE := QueueProtocol.Write(EMPTY, GAP_FIRST)
  const COMMITTED := ONE.(pointers := map[0 := Pointer(10, 1)], lastMc := Some(Id(0, 1)))
  const TWO := QueueProtocol.Write(COMMITTED, GAP_SECOND)
  const THREE := QueueProtocol.Write(TWO, GAP_LOW)
  const HOLED := THREE.(infos := THREE.infos - {Id(0, 2)}, tails := THREE.tails - {TailKey(0, 20)})

  lemma GapAppliesFirst()
    ensures Next(START, Holding(ONE), Apply(GAP_FIRST, Some(Both)))
  {
    assert QueueProtocol.ApplyStep(EMPTY, ONE, GAP_FIRST, Some(Both), QueueProtocol.Written);
  }

  lemma GapCommitsFirst()
    ensures Next(Holding(ONE), Holding(COMMITTED), Commit(BLOCKS, {0}))
  {
    PointersMove(ONE, COMMITTED, 10);
    BlockCommits(ONE);
    assert LeastBounds(ONE, BLOCKS, 1, map[]);
    assert CommitStep(ONE, COMMITTED, BLOCKS, map[], Done);
    assert BoundsOf(map[], {0}) == {};
  }

  lemma GapAppliesSecond()
    ensures Next(Holding(COMMITTED), Holding(TWO), Apply(GAP_SECOND, Some(Both)))
  {
    assert IsLast(COMMITTED.infos, 0, 1);
    assert QueueProtocol.ApplyStep(COMMITTED, TWO, GAP_SECOND, Some(Both), QueueProtocol.Written);
  }

  lemma GapAppliesLow()
    ensures Next(Holding(TWO), Holding(THREE), Apply(GAP_LOW, Some(Both)))
  {
    assert IsLast(TWO.infos, 0, 2);
    assert QueueProtocol.ApplyStep(TWO, THREE, GAP_LOW, Some(Both), QueueProtocol.Written);
  }

  lemma GapClearStarts()
    ensures QueueProtocol.ClearFrom(THREE, {0}, 0) == Some(11)
    ensures QueueProtocol.Named(THREE, {0}) == {0}
  {
    assert 0 in THREE.pointers;
  }

  /** The tails above the pointer name seqno 2 only. */
  lemma GapClearNames(n: nat)
    ensures InRange(THREE, 0, 11, MAX_KEY, n) <==> n == 2
  {
    assert THREE.tails == map[TailKey(0, 10) := 1, TailKey(0, 20) := 2, TailKey(0, 5) := 3];
    assert TailKey(0, 20) in THREE.tails && THREE.tails[TailKey(0, 20)] == 2;
  }

  lemma GapClearTakes(id: Id)
    ensures QueueProtocol.GoesAway(THREE, {0}, {0}, id) <==> id == Id(0, 2)
  {
    GapClearStarts();
    forall n: nat {
      GapClearNames(n);
    }
    assert InRange(THREE, 0, 11, MAX_KEY, 2);
    assert id == Id(id.shard, id.seqno);
  }

  lemma GapClearsSecond()
    ensures Next(Holding(THREE), Holding(HOLED), Clear({0}, {0}))
  {
    GapClearStarts();
    forall id {
      GapClearTakes(id);
    }
    assert QueueProtocol.Cleared(THREE, HOLED, {0}, {0});
  }

  function GapState(i: nat): System {
    if i == 0 then START
    else if i == 1 then Holding(ONE)
    else if i == 2 then Holding(COMMITTED)
    else if i == 3 then Holding(TWO)
    else if i == 4 then Holding(THREE)
    else Holding(HOLED)
  }

  function GapStep(i: nat): Step {
    if i == 0 then Apply(GAP_FIRST, Some(Both))
    else if i == 1 then Commit(BLOCKS, {0})
    else if i == 2 then Apply(GAP_SECOND, Some(Both))
    else if i == 3 then Apply(GAP_LOW, Some(Both))
    else Clear({0}, {0})
  }

  lemma GapNext(i: nat)
    requires i < 5
    ensures Next(GapState(i), GapState(i + 1), GapStep(i))
  {
    if i == 0 {
      GapAppliesFirst();
    } else if i == 1 {
      GapCommitsFirst();
    } else if i == 2 {
      GapAppliesSecond();
    } else if i == 3 {
      GapAppliesLow();
    } else {
      GapClearsSecond();
    }
  }

  lemma HoledHasGap()
    ensures !GapFree(HOLED.infos)
  {
    assert Id(0, 1) in HOLED.infos && Id(0, 2) !in HOLED.infos && Id(0, 3) in HOLED.infos;
    assert !Contiguous(HOLED.infos, 0);
  }

  function GapStates(): seq<System> {
    seq(6, i requires 0 <= i => GapState(i))
  }

  function GapSteps(): seq<Step> {
    seq(5, i requires 0 <= i => GapStep(i))
  }

  /** From the empty store, with the check over both zones: an empty diff with a low last key is accepted, and the next
    clear takes out the diff in the middle. */
  lemma GapRun(x: seq<System>, t: seq<Step>)
    requires x == GapStates() && t == GapSteps()
    ensures Run(x, t) && !GapFree(x[5].store.infos)
  {
    forall i | 0 <= i < 5
      ensures StepAt(x, t, i)
    {
      GapNext(i);
    }
    HoledHasGap();
  }

  // --- a clear and an apply between the collector's read and its write ---

  // The first diff says it has processed its shard up to key 20; the second one, with that last key, is never committed.
  const FIRST_DIFF := QueueProtocol.Diff(Id(0, 1), 7, Some(1), 10, map[0 := 20])
  const SECOND_DIFF := QueueProtocol.Diff(Id(0, 2), 8, Some(11), 20, map[])

  /** Takes the place of the second diff once that is cleared. */
  const OTHER_DIFF := QueueProtocol.Diff(Id(0, 2), 9, Some(21), 30, map[])

  const SPOT := Spot(0, 0)
  const END := GcEndKey(20, Id(0, 1))
  const PLAN := Plan(SPOT, END, Some((1, 2)))

  const FIRST_STORED := QueueProtocol.Write(EMPTY, FIRST_DIFF)
  const BOTH_STORED := QueueProtocol.Write(FIRST_STORED, SECOND_DIFF)
  const FIRST_COMMITTED := BOTH_STORED.(pointers := map[0 := Pointer(10, 1)], lastMc := Some(Id(0, 1)))
  const SECOND_CLEARED :=
    FIRST_COMMITTED.(infos := FIRST_COMMITTED.infos - {Id(0, 2)}, tails := FIRST_COMMITTED.tails - {TailKey(0, 20)})
  const OTHER_STORED := QueueProtocol.Write(SECOND_CLEARED, OTHER_DIFF)
  const OTHER_ERASED := OTHER_STORED.(infos := map[], tails := map[TailKey(0, 30) := 2])

  function Bounded(s: Store): System {
    Holding(s).(deleteUntil := map[SPOT := END], published := {Bound(SPOT, END)})
  }

  function Reading(s: Store): System {
    Bounded(s).(snapshot := map[SPOT := END], plan := Some(PLAN))
  }

  lemma AppliesFirst()
    ensures Next(START, Holding(FIRST_STORED), Apply(FIRST_DIFF, Some(Both)))
    ensures KeysRise(EMPTY, Apply(FIRST_DIFF, Some(Both)))
  {
    assert QueueProtocol.ApplyStep(EMPTY, FIRST_STORED, FIRST_DIFF, Some(Both), QueueProtocol.Written);
  }

  lemma AppliesSecond()
    ensures Next(Holding(FIRST_STORED), Holding(BOTH_STORED), Apply(SECOND_DIFF, Some(Both)))
    ensures KeysRise(FIRST_STORED, Apply(SECOND_DIFF, Some(Both)))
  {
    assert IsLast(FIRST_STORED.infos, 0, 1);
    assert QueueProtocol.ApplyStep(FIRST_STORED, BOTH_STORED, SECOND_DIFF, Some(Both), QueueProtocol.Written);
  }

  lemma BoundIsLeast(s: Store)
    requires Id(0, 1) in s.infos && s.infos[Id(0, 1)].processedTo == map[0 := 20]
    ensures LeastBounds(s, BLOCKS, 1, map[0 := END])
  {
    assert Names(s, BLOCKS, 0, 0);
    assert IsLeast(s, BLOCKS, 1, 0, END);
  }

  lemma CommitsFirst()
    ensures Next(Holding(BOTH_STORED), Holding(FIRST_COMMITTED).(pending := {Bound(SPOT, END)}), Commit(BLOCKS, {0}))
  {
    var gc := map[0 := END];
    PointersMove(BOTH_STORED, FIRST_COMMITTED, 10);
    BoundIsLeast(BOTH_STORED);
    BlockCommits(BOTH_STORED);
    assert CommitStep(BOTH_STORED, FIRST_COMMITTED, BLOCKS, gc, Done);
    assert BoundsOf(gc, {0}) == {Bound(SPOT, END)};
  }

  lemma PublishesBound()
    ensures Next(Holding(FIRST_COMMITTED).(pending := {Bound(SPOT, END)}), Bounded(FIRST_COMMITTED), Publish(Bound(SPOT, END)))
  {
    assert {Bound(SPOT, END)} - {Bound(SPOT, END)} == {};
  }

  lemma ReadsBoth()
    ensures Spans(FIRST_COMMITTED, 0, 0, 20, Some((1, 2)))
  {
    assert TailKey(0, 10) in FIRST_COMMITTED.tails && FIRST_COMMITTED.tails[TailKey(0, 10)] == 1;
    assert TailKey(0, 20) in FIRST_COMMITTED.tails && FIRST_COMMITTED.tails[TailKey(0, 20)] == 2;
  }

  lemma ReadsPlan()
    ensures Next(Bounded(FIRST_COMMITTED).(snapshot := map[SPOT := END]), Reading(FIRST_COMMITTED), Read(SPOT))
  {
    ReadsBoth();
  }

  lemma ClearNames(n: nat)
    ensures InRange(FIRST_COMMITTED, 0, 11, MAX_KEY, n) <==> n == 2
  {
    assert TailKey(0, 20) in FIRST_COMMITTED.tails && FIRST_COMMITTED.tails[TailKey(0, 20)] == 2;
  }

  lemma ClearStarts()
    ensures QueueProtocol.ClearFrom(FIRST_COMMITTED, {0}, 0) == Some(11)
    ensures QueueProtocol.Named(FIRST_COMMITTED, {0}) == {0}
  {
    assert 0 in FIRST_COMMITTED.pointers;
  }

  lemma ClearTakes(id: Id)
    ensures QueueProtocol.GoesAway(FIRST_COMMITTED, {0}, {0}, id) <==> id == Id(0, 2)
  {
    ClearStarts();
    forall n: nat {
      ClearNames(n);
    }
    assert InRange(FIRST_COMMITTED, 0, 11, MAX_KEY, 2);
    assert id == Id(id.shard, id.seqno);
  }

  lemma ClearsSecond()
    ensures Next(Reading(FIRST_COMMITTED), Reading(SECOND_CLEARED), Clear({0}, {0}))
  {
    ClearStarts();
    forall id {
      ClearTakes(id);
    }
    assert QueueProtocol.Cleared(FIRST_COMMITTED, SECOND_CLEARED, {0}, {0});
  }

  lemma AppliesOther()
    ensures Next(Reading(SECOND_CLEARED), Reading(OTHER_STORED), Apply(OTHER_DIFF, Some(Both)))
    ensures KeysRise(SECOND_CLEARED, Apply(OTHER_DIFF, Some(Both)))
  {
    assert IsLast(SECOND_CLEARED.infos, 0, 1);
    assert QueueProtocol.ApplyStep(SECOND_CLEARED, OTHER_STORED, OTHER_DIFF, Some(Both), QueueProtocol.Written);
  }

  lemma ErasesOther()
    ensures Erased(OTHER_STORED, OTHER_ERASED, 0, 0, 20, Some((1, 2)))
  {
    assert OTHER_STORED.infos.Keys == {Id(0, 1), Id(0, 2)};
    assert OTHER_STORED.tails.Keys == {TailKey(0, 10), TailKey(0, 30)};
  }

  const LAST := Bounded(OTHER_ERASED).(snapshot := map[SPOT := END], watermarks := map[SPOT := END])

  lemma WritesPlan()
    ensures Next(Reading(OTHER_STORED), LAST, Write)
  {
    ErasesOther();
  }

  function EarlyState(i: nat): System {
    if i == 0 then START
    else if i == 1 then Holding(FIRST_STORED)
    else if i == 2 then Holding(BOTH_STORED)
    else if i == 3 then Holding(FIRST_COMMITTED).(pending := {Bound(SPOT, END)})
    else if i == 4 then Bounded(FIRST_COMMITTED)
    else Bounded(FIRST_COMMITTED).(snapshot := map[SPOT := END])
  }

  function LateState(i: nat): System {
    if i <= 5 then Bounded(FIRST_COMMITTED).(snapshot := map[SPOT := END])
    else if i == 6 then Reading(FIRST_COMMITTED)
    else if i == 7 then Reading(SECOND_CLEARED)
    else if i == 8 then Reading(OTHER_STORED)
    else LAST
  }

  function EarlyStep(i: nat): Step {
    if i == 0 then Apply(FIRST_DIFF, Some(Both))
    else if i == 1 then Apply(SECOND_DIFF, Some(Both))
    else if i == 2 then Commit(BLOCKS, {0})
    else if i == 3 then Publish(Bound(SPOT, END))
    else Tick
  }

  function LateStep(i: nat): Step {
    if i <= 5 then Read(SPOT)
    else if i == 6 then Clear({0}, {0})
    else if i == 7 then Apply(OTHER_DIFF, Some(Both))
    else Write
  }

  lemma Early(i: nat)
    requires i < 5
    ensures Next(EarlyState(i), EarlyState(i + 1), EarlyStep(i)) && KeysRise(EarlyState(i).store, EarlyStep(i))
  {
    if i == 0 {
      AppliesFirst();
    } else if i == 1 {
      AppliesSecond();
    } else if i == 2 {
      CommitsFirst();
    } else if i == 3 {
      PublishesBound();
    }
  }

  lemma Late(i: nat)
    requires 5 <= i < 9
    ensures Next(LateState(i), LateState(i + 1), LateStep(i)) && KeysRise(LateState(i).store, LateStep(i))
  {
    if i == 5 {
      ReadsPlan();
    } else if i == 6 {
      ClearsSecond();
    } else if i == 7 {
      AppliesOther();
    } else {
      WritesPlan();
    }
  }

  function StaleStates(): seq<System> {
    seq(10, i requires 0 <= i => if i <= 5 then EarlyState(i) else LateState(i))
  }

  function StaleSteps(): seq<Step> {
    seq(9, i requires 0 <= i => if i < 5 then EarlyStep(i) else LateStep(i))
  }

  lemma StaleAt(x: seq<System>, t: seq<Step>, i: nat)
    requires x == StaleStates() && t == StaleSteps() && i < 9
    ensures StepAt(x, t, i) && KeysRise(x[i].store, t[i])
  {
    if i < 5 {
      Early(i);
    } else {
      Late(i);
    }
  }

  lemma StaleSteppedThrough(x: seq<System>, t: seq<Step>)
    requires x == StaleStates() && t == StaleSteps()
    ensures Run(x, t) && KeysRiseIn(x, t)
  {
    forall i: nat | i < 9
      ensures StepAt(x, t, i) && KeysRise(x[i].store, t[i])
    {
      StaleAt(x, t, i);
    }
    assert x[0] == EarlyState(0);
  }

  lemma StaleEnds(x: seq<System>)
    requires x == StaleStates()
    ensures x[8] == Reading(OTHER_STORED) && x[9] == LAST
  {
    assert x[8] == LateState(8) && x[9] == LateState(9);
  }

  /** From the empty store, with rising keys and the check over both zones: what the collector has read is cleared and
    replaced before it writes, and it takes a diff above its bound whose tail stays behind. */
  lemma StaleRun(x: seq<System>, t: seq<Step>)
    requires x == StaleStates() && t == StaleSteps()
    ensures Run(x, t) && KeysRiseIn(x, t)
    ensures Id(0, 2) in x[8].store.infos && END.endKey < x[8].store.infos[Id(0, 2)].maxMessage
    ensures Id(0, 2) !in x[9].store.infos && !Matched(x[9].store)
  {
    StaleSteppedThrough(x, t);
    StaleEnds(x);
    ErasedEndsUnmatched();
  }

  lemma ErasedEndsUnmatched()
    ensures Id(0, 2) in OTHER_STORED.infos && END.endKey < OTHER_STORED.infos[Id(0, 2)].maxMessage
    ensures Id(0, 2) !in LAST.store.infos && !Matched(LAST.store)
  {
    assert TailKey(0, 30) in LAST.store.tails && !HasInfo(LAST.store, TailKey(0, 30));
  }
}
