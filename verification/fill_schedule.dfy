/** In which order a fill serves slots and accounts. */
module Schedules {
  import opened Messages
  import opened Sequences
  import opened Slots
  import opened Filling

  ghost predicate Extends(list: seq<AccountId>, longer: seq<AccountId>) {
    |list| <= |longer| && forall i {:trigger longer[i]} :: 0 <= i < |list| ==> longer[i] == list[i]
  }

  lemma ExtendsThen(a: seq<AccountId>, b: seq<AccountId>, c: seq<AccountId>)
    requires Extends(a, b) && Extends(b, c)
    ensures Extends(a, c)
  {
  }

  /** A step within slot `id`: accounts join no other slot, and nothing of an account in another slot moves. */
  ghost predicate Onward(v: State, t: Trace, w: State, u: Trace, id: SlotId) {
    && (forall a :: a in t.home ==> a in u.home && u.home[a] == t.home[a])
    && (forall a :: a in u.home && a !in t.home ==> u.home[a] == id)
    && (forall a :: a in t.home && t.home[a] != id ==> ByAccount(u.log, a) == ByAccount(t.log, a))
    && (id in v.slots ==> id in w.slots && Extends(v.slots[id].accounts, w.slots[id].accounts))
  }

  lemma OnwardMove(f: Filter, v: State, t: Trace, a: AccountId, id: SlotId, k: nat)
    requires a in v.buf && id in v.slots && k <= |v.buf[a]| && Addressed(v.buf[a], a)
    requires a in t.home ==> t.home[a] == id
    ensures Onward(v, t, Moved(f, v, a, id, k), MovedTrace(f, v, t, a, id, k), id)
  {
    var x := Kept(f, v.buf[a][..k]);
    KeptMembers(f, v.buf[a][..k]);
    forall b | b in t.home && t.home[b] != id
      ensures ByAccount(MovedTrace(f, v, t, a, id, k).log, b) == ByAccount(t.log, b)
    {
      LogStep(t.log, x, a, b);
    }
  }

  lemma OnwardStart(v: State, t: Trace, w: State, id: SlotId)
    requires w.slots == v.slots
    ensures Onward(v, t, w, t, id)
  {
  }

  lemma OnwardThen(v: State, t: Trace, w: State, u: Trace, x: State, y: Trace, id: SlotId)
    requires Onward(v, t, w, u, id) && Onward(w, u, x, y, id)
    ensures Onward(v, t, x, y, id)
  {
  }

  // --- phase 1: old slots are left alone ---

  /** Old slots are as they were: nothing of their accounts has moved, and nobody joined them. */
  ghost predicate Apart(slots0: SlotMap, home0: map<AccountId, SlotId>, v: State, t: Trace) {
    && (forall id :: id in slots0 ==> id in v.slots && v.slots[id] == slots0[id])
    && (forall a :: a in home0 ==> a in t.home && t.home[a] == home0[a] && ByAccount(t.log, a) == [])
    && (forall a :: a in t.home && a !in home0 ==> t.home[a] !in slots0)
    && (forall a :: a in home0 ==> home0[a] in slots0)
  }

  lemma ApartStep(slots0: SlotMap, home0: map<AccountId, SlotId>, v: State, t: Trace, w: State, u: Trace, id: SlotId)
    requires Apart(slots0, home0, v, t) && Onward(v, t, w, u, id) && id !in slots0
    requires forall i :: i in v.slots && i != id ==> i in w.slots && w.slots[i] == v.slots[i]
    ensures Apart(slots0, home0, w, u)
  {
  }

  // --- phase 1: one account for each new slot, then one more for each that is not full ---

  /** Messages `x` of an account in no slot make it join. */
  lemma MoveJoins(calm: bool, f: Filter, v: State, a: AccountId, id: SlotId, k: nat)
    requires a in v.buf && id in v.slots && k <= |v.buf[a]| && a !in v.grp && v.slots[id].Size() >= 0
    requires calm ==> Kept(f, v.buf[a][..k]) != []
    ensures Joins(calm, v.slots, Moved(f, v, a, id, k).slots, id, true)
  {
    IntsBound(Kept(f, v.buf[a][..k]));
  }

  function Joined(slots: SlotMap, id: SlotId): nat {
    if id in slots then |slots[id].accounts| else 0
  }

  /** What a visit does to the list of accounts: nothing, or one more. */
  ghost predicate OneMore(calm: bool, slots: SlotMap, slots': SlotMap, id: SlotId, stopped: bool) {
    && id in slots'
    && (!stopped ==> if id in slots then slots'[id] == slots[id] else slots'[id].Size() == 0)
    && Joined(slots, id) <= Joined(slots', id) <= Joined(slots, id) + 1
    && (id !in slots && slots'[id].Size() > 0 ==> Joined(slots', id) == 1)
    && (calm && stopped ==> Joined(slots', id) == Joined(slots, id) + 1)
  }

  /** What one account does to the slot it is offered to: nothing, or it joins. */
  ghost predicate Joins(calm: bool, slots: SlotMap, slots': SlotMap, id: SlotId, taken: bool) {
    && id in slots && id in slots'
    && (slots'[id] == slots[id] || (|slots'[id].accounts| == |slots[id].accounts| + 1 && slots'[id].Size() > 0))
    && (!taken ==> slots'[id] == slots[id])
    && (calm && taken ==> |slots'[id].accounts| == |slots[id].accounts| + 1)
  }

  ghost predicate OneEach(slots0: SlotMap, slots: SlotMap) {
    forall id :: id in slots && id !in slots0 ==> |slots[id].accounts| == 1
  }

  /** The slots in `list` stand at level `k`, then `k + 1`; no new slot is above, and none with room is below. */
  ghost predicate Level(slots0: SlotMap, slots: SlotMap, vert: nat, list: seq<SlotId>, k: nat) {
    && (forall i :: 0 <= i < |list| ==> k <= Joined(slots, list[i]) <= k + 1)
    && (forall i, j :: 0 <= i < j < |list| ==> Joined(slots, list[i]) <= Joined(slots, list[j]))
    && (forall id :: id in slots && id !in slots0 ==>
          Joined(slots, id) <= k + 1 && (slots[id].Size() < vert ==> Joined(slots, id) >= k))
  }

  ghost predicate Leveled(slots0: SlotMap, slots: SlotMap, vert: nat, list: seq<SlotId>) {
    exists k: nat :: Level(slots0, slots, vert, list, k)
  }

  lemma LevelRest(slots0: SlotMap, slots: SlotMap, vert: nat, list: seq<SlotId>)
    requires list != [] && Leveled(slots0, slots, vert, list)
    ensures Leveled(slots0, slots, vert, list[1..])
  {
    var k: nat :| Level(slots0, slots, vert, list, k);
    assert Level(slots0, slots, vert, list[1..], k);
  }

  lemma LevelFront(slots0: SlotMap, slots: SlotMap, vert: nat, list: seq<SlotId>)
    requires list != [] && Leveled(slots0, slots, vert, list)
    ensures Leveled(slots0, slots, vert, list[..|list| - 1])
  {
    var k: nat :| Level(slots0, slots, vert, list, k);
    assert Level(slots0, slots, vert, list[..|list| - 1], k);
  }

  /** Slot `id`, and no other, got one more account. */
  ghost predicate OnlyJoined(slots: SlotMap, slots': SlotMap, id: SlotId) {
    && id in slots' && Joined(slots', id) == Joined(slots, id) + 1
    && (forall i :: i != id ==> (i in slots' <==> i in slots) && (i in slots ==> slots'[i] == slots[i]))
  }

  lemma TurnQueue(slots: SlotMap, slots': SlotMap, id: SlotId, queue: seq<SlotId>, k: nat, n: nat)
    requires OnlyJoined(slots, slots', id) && id !in queue
    requires forall i :: 0 <= i < |queue| ==> n <= Joined(slots, queue[i]) <= k + 1
    requires forall i, j :: 0 <= i < j < |queue| ==> Joined(slots, queue[i]) <= Joined(slots, queue[j])
    requires k <= n <= k + 1 && Joined(slots, id) == n
    ensures forall i :: 0 <= i < |queue + [id]| ==> n <= Joined(slots', (queue + [id])[i]) <= n + 1
    ensures forall i, j :: 0 <= i < j < |queue + [id]| ==> Joined(slots', (queue + [id])[i]) <= Joined(slots', (queue + [id])[j])
  {
    forall i | 0 <= i < |queue| ensures Joined(slots', queue[i]) == Joined(slots, queue[i]) {
      assert queue[i] in queue;
    }
  }

  /** Where the list stands relative to its head: those behind it are not below. */
  lemma LevelTail(slots0: SlotMap, slots: SlotMap, vert: nat, id: SlotId, queue: seq<SlotId>, k: nat)
    requires Level(slots0, slots, vert, [id] + queue, k)
    ensures k <= Joined(slots, id) <= k + 1
    ensures forall i :: 0 <= i < |queue| ==> Joined(slots, id) <= Joined(slots, queue[i]) <= k + 1
    ensures forall i, j :: 0 <= i < j < |queue| ==> Joined(slots, queue[i]) <= Joined(slots, queue[j])
  {
    var list := [id] + queue;
    assert list[0] == id;
    forall i | 0 <= i < |queue| ensures Joined(slots, id) <= Joined(slots, queue[i]) <= k + 1 {
      assert list[i + 1] == queue[i];
    }
    forall i, j | 0 <= i < j < |queue| ensures Joined(slots, queue[i]) <= Joined(slots, queue[j]) {
      assert list[i + 1] == queue[i] && list[j + 1] == queue[j];
    }
  }

  /** The slot at the head of the list got one account and goes to its end. */
  lemma LevelTurn(slots0: SlotMap, slots: SlotMap, slots': SlotMap, vert: nat, id: SlotId, queue: seq<SlotId>)
    requires Leveled(slots0, slots, vert, [id] + queue) && id !in queue && OnlyJoined(slots, slots', id)
    requires forall i :: i in slots && i !in slots0 && i !in [id] + queue ==> slots[i].Size() >= vert
    ensures Leveled(slots0, slots', vert, queue + [id])
  {
    var k: nat :| Level(slots0, slots, vert, [id] + queue, k);
    var n := Joined(slots, id);
    LevelTail(slots0, slots, vert, id, queue, k);
    TurnQueue(slots, slots', id, queue, k, n);
    forall x | x in slots' && x !in slots0
      ensures Joined(slots', x) <= n + 1 && (slots'[x].Size() < vert ==> Joined(slots', x) >= n)
    {
      if x in queue {
        var j :| 0 <= j < |queue| && queue[j] == x;
        assert n <= Joined(slots, queue[j]) <= k + 1;
      } else if x != id {
        assert x !in [id] + queue;
      }
    }
    assert Level(slots0, slots', vert, queue + [id], n);
  }

  /** New slots take turns: none is two accounts ahead of one that still has room. */
  ghost predicate Even(slots0: SlotMap, slots: SlotMap, vert: nat) {
    forall x, y :: x in slots && x !in slots0 && y in slots && y !in slots0 && slots[y].Size() < vert ==>
      |slots[x].accounts| <= |slots[y].accounts| + 1
  }

  lemma LeveledIsEven(slots0: SlotMap, slots: SlotMap, vert: nat, list: seq<SlotId>)
    requires Leveled(slots0, slots, vert, list)
    ensures Even(slots0, slots, vert)
  {
    var k: nat :| Level(slots0, slots, vert, list, k);
    forall x, y | x in slots && x !in slots0 && y in slots && y !in slots0 && slots[y].Size() < vert
      ensures |slots[x].accounts| <= |slots[y].accounts| + 1
    {
      assert Joined(slots, x) <= k + 1 && Joined(slots, y) >= k;
    }
  }

  // --- phase 2: turns within an old slot ---

  /** Account `a` has nothing more to give. */
  ghost predicate Spent(skip: AccountId -> bool, buf: Queues, a: AccountId) {
    skip(a) || Get(buf, a) == []
  }

  ghost predicate AllSpent(skip: AccountId -> bool, buf: Queues, list: seq<AccountId>, n: nat)
    requires n <= |list|
  {
    forall i :: 0 <= i < n ==> Spent(skip, buf, list[i])
  }

  /** The listed accounts sit in slot `id`. */
  ghost predicate Seated(home: map<AccountId, SlotId>, list: seq<AccountId>, id: SlotId) {
    forall i :: 0 <= i < |list| ==> list[i] in home && home[list[i]] == id
  }

  /** An account that was in no slot is in slot `id` now. */
  ghost predicate HasNewcomer(home0: map<AccountId, SlotId>, home: map<AccountId, SlotId>, id: SlotId) {
    exists a :: a in home && a !in home0 && home[a] == id
  }

  /** The accounts of an old slot give in their order, and all of them before anyone joins. */
  ghost predicate TakesTurns(skip: AccountId -> bool, accounts: seq<AccountId>, home0: map<AccountId, SlotId>, id: SlotId,
                             buf: Queues, list: seq<AccountId>, home: map<AccountId, SlotId>, log: seq<Message>)
  {
    && Extends(accounts, list)
    && (forall i, j :: 0 <= i < j < |accounts| && ByAccount(log, accounts[j]) != [] ==> Spent(skip, buf, accounts[i]))
    && (HasNewcomer(home0, home, id) ==> AllSpent(skip, buf, accounts, |accounts|))
  }

  lemma SpentTakesTurns(skip: AccountId -> bool, accounts: seq<AccountId>, home0: map<AccountId, SlotId>, id: SlotId,
                        buf: Queues, list: seq<AccountId>, home: map<AccountId, SlotId>, log: seq<Message>)
    requires Extends(accounts, list) && AllSpent(skip, buf, accounts, |accounts|)
    ensures TakesTurns(skip, accounts, home0, id, buf, list, home, log)
  {
  }

  /** Only account `a` gave something, and nothing if there was no room. */
  ghost predicate Fed(t: Trace, u: Trace, a: AccountId, capacity: int) {
    && u.home == t.home
    && (forall b :: b != a ==> ByAccount(u.log, b) == ByAccount(t.log, b))
    && (capacity == 0 ==> u.log == t.log)
  }

  lemma FedMove(f: Filter, v: State, t: Trace, a: AccountId, id: SlotId, k: nat, capacity: nat)
    requires a in v.buf && Addressed(v.buf[a], a) && MoveAmount(f, v.buf[a], capacity, k)
    requires a in t.home && t.home[a] == id
    ensures Fed(t, MovedTrace(f, v, t, a, id, k), a, capacity)
  {
    var x := Kept(f, v.buf[a][..k]);
    KeptMembers(f, v.buf[a][..k]);
    forall b | b != a ensures ByAccount(MovedTrace(f, v, t, a, id, k).log, b) == ByAccount(t.log, b) {
      LogStep(t.log, x, a, b);
    }
  }

  lemma SpentStays(skip: AccountId -> bool, v: State, t: Trace, w: State, u: Trace, a: AccountId)
    requires Grows(v, t, w, u) && Spent(skip, v.buf, a)
    ensures Spent(skip, w.buf, a)
  {
  }

  /** The next account of the slot gives: those before it are spent, or there was no room. */
  lemma NextTurn(skip: AccountId -> bool, accounts: seq<AccountId>, home0: map<AccountId, SlotId>, id: SlotId,
                 v: State, t: Trace, w: State, u: Trace, list: seq<AccountId>, n: nat, capacity: int)
    requires id in v.slots && id in w.slots && Extends(v.slots[id].accounts, w.slots[id].accounts)
    requires TakesTurns(skip, accounts, home0, id, v.buf, v.slots[id].accounts, t.home, t.log)
    requires Grows(v, t, w, u) && n < |list| && Distinct(list) && Extends(accounts, list) && Fed(t, u, list[n], capacity)
    requires capacity == 0 || AllSpent(skip, v.buf, list, n)
    ensures TakesTurns(skip, accounts, home0, id, w.buf, w.slots[id].accounts, u.home, u.log)
  {
    forall i, j | 0 <= i < j < |accounts| && ByAccount(u.log, accounts[j]) != [] ensures Spent(skip, w.buf, accounts[i]) {
      assert list[j] == accounts[j] && list[i] == accounts[i];
      SpentStays(skip, v, t, w, u, accounts[i]);
    }
    if HasNewcomer(home0, u.home, id) {
      forall i | 0 <= i < |accounts| ensures Spent(skip, w.buf, accounts[i]) {
        SpentStays(skip, v, t, w, u, accounts[i]);
      }
    }
  }

  /** A step within another slot changes nothing for this one. */
  lemma OtherTurn(skip: AccountId -> bool, accounts: seq<AccountId>, home0: map<AccountId, SlotId>, id: SlotId,
                  v: State, t: Trace, w: State, u: Trace, other: SlotId)
    requires id in v.slots && id in w.slots && w.slots[id] == v.slots[id] && id != other
    requires TakesTurns(skip, accounts, home0, id, v.buf, v.slots[id].accounts, t.home, t.log)
    requires Grows(v, t, w, u) && Onward(v, t, w, u, other)
    requires Seated(t.home, accounts, id)
    ensures TakesTurns(skip, accounts, home0, id, w.buf, w.slots[id].accounts, u.home, u.log)
  {
    forall i, j | 0 <= i < j < |accounts| && ByAccount(u.log, accounts[j]) != [] ensures Spent(skip, w.buf, accounts[i]) {
      SpentStays(skip, v, t, w, u, accounts[i]);
    }
    if HasNewcomer(home0, u.home, id) {
      OtherNewcomer(home0, v, t, w, u, id, other);
      forall i | 0 <= i < |accounts| ensures Spent(skip, w.buf, accounts[i]) {
        SpentStays(skip, v, t, w, u, accounts[i]);
      }
    }
  }

  lemma OtherNewcomer(home0: map<AccountId, SlotId>, v: State, t: Trace, w: State, u: Trace, id: SlotId, other: SlotId)
    requires Onward(v, t, w, u, other) && id != other && HasNewcomer(home0, u.home, id)
    ensures HasNewcomer(home0, t.home, id)
  {
    var a :| a in u.home && a !in home0 && u.home[a] == id;
    assert a in t.home && t.home[a] == id;
  }

  // --- phase 2: slots are served in the order of the index ---

  /** Every slot listed before place (c, i) is full. */
  ghost predicate FullBefore(index: SlotIndex, slots: SlotMap, vert: nat, c: nat, i: nat) {
    forall d, j :: d in index && 0 <= j < |index[d]| && (d < c || (d == c && j < i)) ==>
      index[d][j] in slots && slots[index[d][j]].Size() >= vert
  }

  ghost predicate OpenAt(index: SlotIndex, slots: SlotMap, vert: nat, id: SlotId, c: nat, i: nat) {
    && c in index && c < vert && i < |index[c]| && index[c][i] == id
    && FullBefore(index, slots, vert, c, i)
  }

  /** Whoever joins an old slot finds every slot listed before it full. */
  ghost predicate InListOrder(index: SlotIndex, slots0: SlotMap, home0: map<AccountId, SlotId>, vert: nat,
                              slots: SlotMap, home: map<AccountId, SlotId>)
  {
    forall id {:trigger HasNewcomer(home0, home, id)} :: id in slots0 && HasNewcomer(home0, home, id) ==>
      exists c, i :: OpenAt(index, slots, vert, id, c, i)
  }

  lemma OpenStays(index: SlotIndex, v: State, t: Trace, w: State, u: Trace, vert: nat, id: SlotId, c: nat, i: nat)
    requires OpenAt(index, v.slots, vert, id, c, i) && Grows(v, t, w, u)
    ensures OpenAt(index, w.slots, vert, id, c, i)
  {
  }

  /** Slot `id` was served at place (c, i). */
  lemma ListOrderStep(index: SlotIndex, slots0: SlotMap, home0: map<AccountId, SlotId>, vert: nat,
                      v: State, t: Trace, w: State, u: Trace, id: SlotId, c: nat, i: nat)
    requires InListOrder(index, slots0, home0, vert, v.slots, t.home) && Grows(v, t, w, u) && Onward(v, t, w, u, id)
    requires u.home.Keys == t.home.Keys || OpenAt(index, v.slots, vert, id, c, i)
    ensures InListOrder(index, slots0, home0, vert, w.slots, u.home)
  {
    forall x | x in slots0 && HasNewcomer(home0, u.home, x)
      ensures exists d, j :: OpenAt(index, w.slots, vert, x, d, j)
    {
      if HasNewcomer(home0, t.home, x) {
        var d, j :| OpenAt(index, v.slots, vert, x, d, j);
        OpenStays(index, v, t, w, u, vert, x, d, j);
      } else {
        var a :| a in u.home && a !in home0 && u.home[a] == x;
        assert a !in t.home && x == id;
        OpenStays(index, v, t, w, u, vert, x, c, i);
      }
    }
  }

  /** Nobody had joined old slots before, and from then on somebody could only with all new slots open and full. */
  lemma NewFirstIs(slots0: SlotMap, home0: map<AccountId, SlotId>, slotsCount: nat, vert: nat, v: State, t: Trace, w: State, u: Trace)
    requires Apart(slots0, home0, v, t) && |v.slots| <= |w.slots|
    requires forall id :: id in w.slots && id !in slots0 ==> id in v.slots && w.slots[id] == v.slots[id]
    requires u.home == t.home || (|v.slots| >= slotsCount &&
               forall id :: id in v.slots && id !in slots0 ==> v.slots[id].Size() >= vert)
    ensures NewFirst(slots0, home0, slotsCount, vert, w.slots, u.home)
  {
  }

  /** Somebody joined an old slot only once all slots asked for were open and the new ones full. */
  ghost predicate NewFirst(slots0: SlotMap, home0: map<AccountId, SlotId>, slotsCount: nat, vert: nat,
                           slots: SlotMap, home: map<AccountId, SlotId>)
  {
    forall id :: id in slots0 && HasNewcomer(home0, home, id) ==>
      |slots| >= slotsCount && forall n :: n in slots && n !in slots0 ==> slots[n].Size() >= vert
  }
}
