/** The pure side of a fill: one step moves a prefix of a queue into a slot or drops expired messages. */
module Filling {
  import opened Messages
  import opened Sequences
  import opened Slots

  datatype Update = Update(oldInts: int, oldExts: int, newInts: int, newExts: int) {
    function OldCount(): int { oldInts + oldExts }
    function NewCount(): int { newInts + newExts }
  }

  /** What a fill works on: the buffer with its counters, the group, pending index updates and results. */
  datatype State = State(
    buf: Queues,
    ints: int,
    exts: int,
    grp: Queues,
    slots: SlotMap,
    updates: map<SlotId, Update>,
    keys: seq<nat>,
    skipped: int)

  /** Bookkeeping of the proofs: the slot of each grouped account, and all moved messages in order. */
  datatype Trace = Trace(home: map<AccountId, SlotId>, log: seq<Message>)

  /** A slot after it took messages `x` of account `a`. */
  function NewSlot(grp: Queues, slot: Slot, a: AccountId, x: seq<Message>): Slot {
    Slot(if a in grp then slot.accounts else slot.accounts + [a],
         slot.intCount + Ints(x), slot.extCount + Exts(x))
  }

  function NewQueues(grp: Queues, a: AccountId, x: seq<Message>): Queues {
    grp[a := Get(grp, a) + x]
  }

  /** The first update of a slot records the counters it had; later ones only move the new counters. */
  function NewUpdate(updates: map<SlotId, Update>, slot: Slot, id: SlotId, x: seq<Message>): Update {
    var ints, exts := slot.intCount + Ints(x), slot.extCount + Exts(x);
    if id in updates then Update(updates[id].oldInts, updates[id].oldExts, ints, exts)
    else Update(slot.intCount, slot.extCount, ints, exts)
  }

  /** The first `k` messages of account `a` leave the buffer; those kept by the filter enter slot `id`. */
  function Moved(f: Filter, v: State, a: AccountId, id: SlotId, k: nat): State
    requires a in v.buf && id in v.slots && k <= |v.buf[a]|
  {
    var x := Kept(f, v.buf[a][..k]);
    var buf := v.buf[a := v.buf[a][k..]];
    // skipped messages are all external
    var exts := v.exts - (k - |x|);
    var skipped := v.skipped + (k - |x|);
    if x == [] then
      State(buf, v.ints, exts, v.grp, v.slots, v.updates, v.keys, skipped)
    else
      State(buf, v.ints - Ints(x), exts - Exts(x),
            NewQueues(v.grp, a, x),
            v.slots[id := NewSlot(v.grp, v.slots[id], a, x)],
            v.updates[id := NewUpdate(v.updates, v.slots[id], id, x)],
            v.keys + IntKeys(x),
            skipped)
  }

  ghost function MovedTrace(f: Filter, v: State, t: Trace, a: AccountId, id: SlotId, k: nat): Trace
    requires a in v.buf && k <= |v.buf[a]|
  {
    var x := Kept(f, v.buf[a][..k]);
    if x == [] then t else Trace(t.home[a := id], t.log + x)
  }

  /** Account `a` loses its expired messages. */
  function Skipped(f: Filter, v: State, a: AccountId): State
    requires a in v.buf
  {
    var kept := Kept(f, v.buf[a]);
    var gone := |v.buf[a]| - |kept|;
    State(v.buf[a := kept], v.ints, v.exts - gone, v.grp, v.slots, v.updates, v.keys, v.skipped + gone)
  }

  /** Queue `b0` became `b` by moving `x`: a prefix left, and only what the filter drops is missing. */
  ghost predicate CutAt(f: Filter, b0: seq<Message>, b: seq<Message>, x: seq<Message>, k: int) {
    && 0 <= k <= |b0|
    && x == Kept(f, b0[..k])
    && (b == b0[k..] || b == Kept(f, b0[k..]))
  }

  ghost predicate Cut(f: Filter, b0: seq<Message>, b: seq<Message>, x: seq<Message>) {
    exists k :: CutAt(f, b0, b, x, k)
  }

  ghost predicate Flow(f: Filter, v0: State, v: State, log: seq<Message>) {
    && Drained(f, v0.buf, v.buf, log)
    && Grouped(v0.grp, v.grp, log)
    && v.keys == v0.keys + IntKeys(log)
  }

  ghost predicate Drained(f: Filter, buf0: Queues, buf: Queues, log: seq<Message>) {
    && buf.Keys == buf0.Keys
    && (forall a :: a in buf ==> Cut(f, buf0[a], buf[a], ByAccount(log, a)))
    && (forall a :: a !in buf ==> ByAccount(log, a) == [])
  }

  /** Each account's grouped messages grew by its share of the log. */
  ghost predicate Grouped(grp0: Queues, grp: Queues, log: seq<Message>) {
    forall a :: Get(grp, a) == Get(grp0, a) + ByAccount(log, a)
  }

  ghost predicate AllAddressed(q: Queues) {
    forall a :: a in q ==> Addressed(q[a], a)
  }

  function IntsOf(slots: SlotMap, id: SlotId): int {
    if id in slots then slots[id].intCount else 0
  }

  function ExtsOf(slots: SlotMap, id: SlotId): int {
    if id in slots then slots[id].extCount else 0
  }

  ghost predicate Records(u: Update, slots0: SlotMap, slots: SlotMap, id: SlotId) {
    && u.oldInts == IntsOf(slots0, id)
    && u.oldExts == ExtsOf(slots0, id)
    && u.newInts == IntsOf(slots, id)
    && u.newExts == ExtsOf(slots, id)
    && u.OldCount() < u.NewCount()
  }

  /** The pending updates are exactly the slots whose counters changed, with both values. */
  ghost predicate Tracked(slots0: SlotMap, slots: SlotMap, updates: map<SlotId, Update>) {
    && (forall id :: id in slots0 ==> id in slots)
    && (forall id :: id in updates ==> id in slots && Records(updates[id], slots0, slots, id))
    && (forall id :: id in slots && id !in updates ==>
          slots[id].intCount == IntsOf(slots0, id) && slots[id].extCount == ExtsOf(slots0, id))
  }

  ghost predicate Within(vert: nat, slots0: SlotMap, slots: SlotMap) {
    forall id :: id in slots ==> slots[id].Size() <= vert || (id in slots0 && slots[id] == slots0[id])
  }

  /** Nothing but a move or an expiry changes the number of messages, and the counters follow. */
  ghost predicate Balanced(order: seq<AccountId>, v0: State, v: State, log: seq<Message>) {
    && TotalInts(order, v.buf) + Ints(log) == TotalInts(order, v0.buf)
    && TotalLen(order, v.buf) + |log| + v.skipped == TotalLen(order, v0.buf) + v0.skipped
    && v.ints + Ints(log) == v0.ints
    && v.exts + Exts(log) + v.skipped == v0.exts + v0.skipped
  }

  ghost predicate Inv(f: Filter, vert: nat, order: seq<AccountId>, v0: State, v: State, t: Trace) {
    && Flow(f, v0, v, t.log)
    && AllAddressed(v.buf)
    && Packed(v.grp, v.slots, t.home)
    && Tracked(v0.slots, v.slots, v.updates)
    && Within(vert, v0.slots, v.slots)
    && Balanced(order, v0, v, t.log)
  }

  /** Progress order: queues only drain, accounts stay where they are, slots only grow. */
  ghost predicate Grows(v: State, t: Trace, w: State, u: Trace) {
    && v.buf.Keys == w.buf.Keys
    && (forall a :: a in v.buf && v.buf[a] == [] ==> w.buf[a] == [])
    && (forall a :: a in t.home ==> a in u.home && u.home[a] == t.home[a])
    && (forall id :: id in v.slots ==> id in w.slots && v.slots[id].Size() <= w.slots[id].Size())
  }

  /** Account `a` needs no more work: skipped, drained, or in a slot with no room left. */
  ghost predicate Done(skip: AccountId -> bool, vert: nat, v: State, t: Trace, a: AccountId) {
    || skip(a)
    || Get(v.buf, a) == []
    || (a in t.home && t.home[a] in v.slots && v.slots[t.home[a]].Size() >= vert)
  }

  lemma DoneStable(skip: AccountId -> bool, vert: nat, v: State, t: Trace, w: State, u: Trace, a: AccountId)
    requires Grows(v, t, w, u) && Done(skip, vert, v, t, a)
    ensures Done(skip, vert, w, u, a)
  {
  }

  lemma GrowsTransitive(v: State, t: Trace, w: State, u: Trace, x: State, s: Trace)
    requires Grows(v, t, w, u) && Grows(w, u, x, s)
    ensures Grows(v, t, x, s)
  {
  }

  // --- one step at a time ---

  lemma SliceSplit(b: seq<Message>, c: nat, k: nat)
    requires c + k <= |b|
    ensures b[..c + k] == b[..c] + b[c..][..k]
    ensures b[c + k..] == b[c..][k..]
  {
  }

  lemma CutMove(f: Filter, b0: seq<Message>, b: seq<Message>, x: seq<Message>, k: nat)
    requires Cut(f, b0, b, x) && k <= |b|
    ensures Cut(f, b0, b[k..], x + Kept(f, b[..k]))
  {
    var c :| CutAt(f, b0, b, x, c);
    if b == b0[c..] {
      SliceSplit(b0, c, k);
      KeptConcat(f, b0[..c], b[..k]);
      assert CutAt(f, b0, b[k..], x + Kept(f, b[..k]), c + k);
    } else {
      var i := KeptCut(f, b0[c..], k);
      KeptMembers(f, b0[c..]);
      KeptAll(f, b[..k]);
      SliceSplit(b0, c, i);
      KeptConcat(f, b0[..c], b0[c..][..i]);
      assert CutAt(f, b0, b[k..], x + Kept(f, b[..k]), c + i);
    }
  }

  lemma CutSkip(f: Filter, b0: seq<Message>, b: seq<Message>, x: seq<Message>)
    requires Cut(f, b0, b, x)
    ensures Cut(f, b0, Kept(f, b), x)
  {
    var c :| CutAt(f, b0, b, x, c);
    KeptMembers(f, b0[c..]);
    if b != b0[c..] {
      KeptAll(f, b);
    }
    assert CutAt(f, b0, Kept(f, b), x, c);
  }

  lemma CutStart(f: Filter, b: seq<Message>)
    ensures Cut(f, b, b, [])
  {
    assert b[..0] == [];
    assert CutAt(f, b, b, [], 0);
  }

  /** What a log gains for account `b` when `x`, all of account `a`, is appended. */
  lemma LogStep(log: seq<Message>, x: seq<Message>, a: AccountId, b: AccountId)
    requires Addressed(x, a)
    ensures ByAccount(log + x, b) == if a == b then ByAccount(log, b) + x else ByAccount(log, b)
  {
    ByAccountConcat(log, x, b);
    ByAccountAddressed(x, a, b);
  }

  lemma DrainedMove(f: Filter, buf0: Queues, buf: Queues, log: seq<Message>, a: AccountId, k: nat)
    requires Drained(f, buf0, buf, log)
    requires a in buf && k <= |buf[a]| && Addressed(buf[a], a)
    ensures Drained(f, buf0, buf[a := buf[a][k..]], log + Kept(f, buf[a][..k]))
  {
    var x := Kept(f, buf[a][..k]);
    KeptMembers(f, buf[a][..k]);
    var after := buf[a := buf[a][k..]];
    forall b | b in after ensures Cut(f, buf0[b], after[b], ByAccount(log + x, b)) {
      LogStep(log, x, a, b);
      if b == a {
        CutMove(f, buf0[a], buf[a], ByAccount(log, a), k);
      }
    }
    forall b | b !in after ensures ByAccount(log + x, b) == [] {
      LogStep(log, x, a, b);
    }
  }

  lemma GroupedMoveAt(grp0: Queues, grp: Queues, log: seq<Message>, a: AccountId, x: seq<Message>, b: AccountId)
    requires Get(grp, b) == Get(grp0, b) + ByAccount(log, b) && Addressed(x, a)
    ensures Get(grp[a := Get(grp, a) + x], b) == Get(grp0, b) + ByAccount(log + x, b)
  {
    LogStep(log, x, a, b);
    if b == a {
      ConcatAssoc(Get(grp0, b), ByAccount(log, b), x);
    }
  }

  lemma GroupedMove(grp0: Queues, grp: Queues, log: seq<Message>, a: AccountId, x: seq<Message>)
    requires Grouped(grp0, grp, log) && Addressed(x, a)
    ensures Grouped(grp0, grp[a := Get(grp, a) + x], log + x)
  {
    var after := grp[a := Get(grp, a) + x];
    forall b ensures Get(after, b) == Get(grp0, b) + ByAccount(log + x, b) {
      GroupedMoveAt(grp0, grp, log, a, x, b);
    }
  }

  lemma FlowIs(f: Filter, v0: State, w: State, log: seq<Message>)
    requires Drained(f, v0.buf, w.buf, log) && Grouped(v0.grp, w.grp, log) && w.keys == v0.keys + IntKeys(log)
    ensures Flow(f, v0, w, log)
  {
  }

  lemma MoveFlow(f: Filter, v0: State, v: State, t: Trace, a: AccountId, id: SlotId, k: nat)
    requires Flow(f, v0, v, t.log) && AllAddressed(v.buf)
    requires a in v.buf && id in v.slots && k <= |v.buf[a]|
    ensures Flow(f, v0, Moved(f, v, a, id, k), MovedTrace(f, v, t, a, id, k).log)
  {
    var x := Kept(f, v.buf[a][..k]);
    DrainedMove(f, v0.buf, v.buf, t.log, a, k);
    if x == [] {
      assert t.log + x == t.log;
      FlowIs(f, v0, Moved(f, v, a, id, k), t.log);
    } else {
      KeptMembers(f, v.buf[a][..k]);
      GroupedMove(v0.grp, v.grp, t.log, a, x);
      KeysMove(v0.keys, v.keys, t.log, x);
      FlowIs(f, v0, Moved(f, v, a, id, k), t.log + x);
    }
  }

  lemma KeysMove(keys0: seq<nat>, keys: seq<nat>, log: seq<Message>, x: seq<Message>)
    requires keys == keys0 + IntKeys(log)
    ensures keys + IntKeys(x) == keys0 + IntKeys(log + x)
  {
    IntKeysConcat(log, x);
  }

  lemma MoveAddressed(f: Filter, v: State, a: AccountId, id: SlotId, k: nat)
    requires AllAddressed(v.buf)
    requires a in v.buf && id in v.slots && k <= |v.buf[a]|
    ensures AllAddressed(Moved(f, v, a, id, k).buf)
  {
  }

  lemma DrainedSkip(f: Filter, buf0: Queues, buf: Queues, log: seq<Message>, a: AccountId)
    requires Drained(f, buf0, buf, log) && a in buf
    ensures Drained(f, buf0, buf[a := Kept(f, buf[a])], log)
  {
    var after := buf[a := Kept(f, buf[a])];
    forall b | b in after ensures Cut(f, buf0[b], after[b], ByAccount(log, b)) {
      if b == a {
        CutSkip(f, buf0[a], buf[a], ByAccount(log, a));
      }
    }
  }

  lemma SkipFlow(f: Filter, v0: State, v: State, t: Trace, a: AccountId)
    requires Flow(f, v0, v, t.log) && a in v.buf
    ensures Flow(f, v0, Skipped(f, v, a), t.log)
  {
    DrainedSkip(f, v0.buf, v.buf, t.log, a);
  }

  lemma SkipAddressed(f: Filter, v: State, a: AccountId)
    requires AllAddressed(v.buf) && a in v.buf
    ensures AllAddressed(Skipped(f, v, a).buf)
  {
    KeptMembers(f, v.buf[a]);
  }

  /** Account `a` may enter slot `id`: it is in no slot yet, or in this one. */
  ghost predicate CanJoin(grp: Queues, home: map<AccountId, SlotId>, a: AccountId, id: SlotId) {
    a in grp ==> a in home && home[a] == id
  }

  lemma PlaceHomed(grp: Queues, slots: SlotMap, home: map<AccountId, SlotId>, a: AccountId, id: SlotId, x: seq<Message>)
    requires Homed(grp, slots, home) && id in slots && CanJoin(grp, home, a, id)
    ensures Homed(NewQueues(grp, a, x), slots[id := NewSlot(grp, slots[id], a, x)], home[a := id])
  {
    var slot := NewSlot(grp, slots[id], a, x);
    assert forall b :: b in slot.accounts <==> b in slots[id].accounts || b == a;
  }

  lemma PlaceMore(grp: Queues, slot: Slot, a: AccountId, x: seq<Message>)
    requires SlotLoaded(grp, slot) && a in slot.accounts
    ensures SlotLoaded(NewQueues(grp, a, x), Slot(slot.accounts, slot.intCount + Ints(x), slot.extCount + Exts(x)))
  {
    IntsConcat(Get(grp, a), x);
    TotalUpdate(slot.accounts, grp, a, Get(grp, a) + x);
  }

  lemma PlaceFirst(grp: Queues, slot: Slot, a: AccountId, x: seq<Message>)
    requires SlotLoaded(grp, slot) && a !in grp && a !in slot.accounts
    ensures SlotLoaded(NewQueues(grp, a, x), Slot(slot.accounts + [a], slot.intCount + Ints(x), slot.extCount + Exts(x)))
  {
    var now := NewQueues(grp, a, x);
    TotalFrame(slot.accounts, grp, now);
    TotalSnoc(slot.accounts, now, a);
    assert Get(now, a) == x;
  }

  /** The slot that receives the messages still counts exactly its accounts' messages. */
  lemma PlaceInto(grp: Queues, slot: Slot, a: AccountId, x: seq<Message>)
    requires SlotLoaded(grp, slot) && (a in grp <==> a in slot.accounts)
    ensures SlotLoaded(NewQueues(grp, a, x), NewSlot(grp, slot, a, x))
  {
    if a in grp {
      PlaceMore(grp, slot, a, x);
    } else {
      PlaceFirst(grp, slot, a, x);
    }
  }

  lemma PlaceBeside(grp: Queues, slot: Slot, a: AccountId, x: seq<Message>)
    requires SlotLoaded(grp, slot) && a !in slot.accounts
    ensures SlotLoaded(NewQueues(grp, a, x), slot)
  {
    TotalFrame(slot.accounts, grp, NewQueues(grp, a, x));
  }

  lemma PlaceLoadedAt(grp: Queues, slots: SlotMap, home: map<AccountId, SlotId>, a: AccountId, id: SlotId, x: seq<Message>,
                      i: SlotId)
    requires Homed(grp, slots, home) && id in slots && CanJoin(grp, home, a, id)
    requires i in slots && SlotLoaded(grp, slots[i])
    ensures SlotLoaded(NewQueues(grp, a, x), slots[id := NewSlot(grp, slots[id], a, x)][i])
  {
    if i == id {
      assert a in grp <==> a in slots[id].accounts;
      PlaceInto(grp, slots[id], a, x);
    } else {
      assert a !in slots[i].accounts;
      PlaceBeside(grp, slots[i], a, x);
    }
  }

  lemma PlaceLoaded(grp: Queues, slots: SlotMap, home: map<AccountId, SlotId>, a: AccountId, id: SlotId, x: seq<Message>)
    requires Homed(grp, slots, home) && Loaded(grp, slots) && id in slots && CanJoin(grp, home, a, id)
    ensures Loaded(NewQueues(grp, a, x), slots[id := NewSlot(grp, slots[id], a, x)])
  {
    var now, after := NewQueues(grp, a, x), slots[id := NewSlot(grp, slots[id], a, x)];
    forall i | i in after ensures SlotLoaded(now, after[i]) {
      PlaceLoadedAt(grp, slots, home, a, id, x, i);
    }
  }

  lemma PlaceTracked(slots0: SlotMap, slots: SlotMap, updates: map<SlotId, Update>, slot: Slot, id: SlotId, x: seq<Message>)
    requires Tracked(slots0, slots, updates) && id in slots && x != []
    requires slot.intCount == slots[id].intCount + Ints(x) && slot.extCount == slots[id].extCount + Exts(x)
    ensures Tracked(slots0, slots[id := slot], updates[id := NewUpdate(updates, slots[id], id, x)])
  {
    assert Records(NewUpdate(updates, slots[id], id, x), slots0, slots[id := slot], id);
  }

  lemma PopInts(f: Filter, q: seq<Message>, k: nat)
    requires k <= |q|
    ensures Ints(q) == Ints(q[k..]) + Ints(Kept(f, q[..k]))
  {
    assert q == q[..k] + q[k..];
    IntsConcat(q[..k], q[k..]);
    KeptInts(f, q[..k]);
  }

  lemma MoveTotals(f: Filter, order: seq<AccountId>, buf: Queues, log: seq<Message>, a: AccountId, k: nat)
    requires Distinct(order) && a in order && a in buf && k <= |buf[a]|
    ensures var x := Kept(f, buf[a][..k]);
            && TotalInts(order, buf[a := buf[a][k..]]) + Ints(log + x) == TotalInts(order, buf) + Ints(log)
            && TotalLen(order, buf[a := buf[a][k..]]) == TotalLen(order, buf) - k
  {
    TotalUpdate(order, buf, a, buf[a][k..]);
    PopInts(f, buf[a], k);
    IntsConcat(log, Kept(f, buf[a][..k]));
  }

  lemma MoveBalanced(f: Filter, order: seq<AccountId>, v0: State, v: State, t: Trace, a: AccountId, id: SlotId, k: nat)
    requires Balanced(order, v0, v, t.log) && Distinct(order) && a in order
    requires a in v.buf && id in v.slots && k <= |v.buf[a]|
    ensures Balanced(order, v0, Moved(f, v, a, id, k), MovedTrace(f, v, t, a, id, k).log)
  {
    var x := Kept(f, v.buf[a][..k]);
    MoveTotals(f, order, v.buf, t.log, a, k);
    IntsConcat(t.log, x);
    if x == [] {
      assert t.log + x == t.log;
    }
  }

  lemma SkipBalanced(f: Filter, order: seq<AccountId>, v0: State, v: State, t: Trace, a: AccountId)
    requires Balanced(order, v0, v, t.log) && Distinct(order) && a in order
    requires a in v.buf
    ensures Balanced(order, v0, Skipped(f, v, a), t.log)
  {
    TotalUpdate(order, v.buf, a, Kept(f, v.buf[a]));
    KeptInts(f, v.buf[a]);
  }

  lemma MovePacked(f: Filter, v: State, t: Trace, a: AccountId, id: SlotId, k: nat)
    requires Packed(v.grp, v.slots, t.home) && CanJoin(v.grp, t.home, a, id)
    requires a in v.buf && id in v.slots && k <= |v.buf[a]|
    ensures Packed(Moved(f, v, a, id, k).grp, Moved(f, v, a, id, k).slots, MovedTrace(f, v, t, a, id, k).home)
  {
    var x := Kept(f, v.buf[a][..k]);
    if x != [] {
      PlaceHomed(v.grp, v.slots, t.home, a, id, x);
      PlaceLoaded(v.grp, v.slots, t.home, a, id, x);
    }
  }

  lemma MoveTracked(f: Filter, vert: nat, slots0: SlotMap, v: State, a: AccountId, id: SlotId, k: nat)
    requires Tracked(slots0, v.slots, v.updates) && Within(vert, slots0, v.slots)
    requires a in v.buf && id in v.slots && k <= |v.buf[a]|
    requires v.slots[id].Size() + |Kept(f, v.buf[a][..k])| <= vert
    ensures Tracked(slots0, Moved(f, v, a, id, k).slots, Moved(f, v, a, id, k).updates)
    ensures Within(vert, slots0, Moved(f, v, a, id, k).slots)
  {
    var x := Kept(f, v.buf[a][..k]);
    if x != [] {
      PlaceTracked(slots0, v.slots, v.updates, NewSlot(v.grp, v.slots[id], a, x), id, x);
    }
  }

  lemma MoveGrows(f: Filter, v: State, t: Trace, a: AccountId, id: SlotId, k: nat)
    requires Homed(v.grp, v.slots, t.home) && CanJoin(v.grp, t.home, a, id)
    requires a in v.buf && id in v.slots && k <= |v.buf[a]|
    ensures Grows(v, t, Moved(f, v, a, id, k), MovedTrace(f, v, t, a, id, k))
  {
    var w, u := Moved(f, v, a, id, k), MovedTrace(f, v, t, a, id, k);
    forall i | i in v.slots ensures i in w.slots && v.slots[i].Size() <= w.slots[i].Size() {
    }
    forall b | b in t.home ensures b in u.home && u.home[b] == t.home[b] {
      assert b in v.grp;
    }
  }

  /** A move into a slot that has room for it keeps every invariant of a fill. */
  lemma MoveKeeps(f: Filter, vert: nat, order: seq<AccountId>, v0: State, v: State, t: Trace,
                  a: AccountId, id: SlotId, k: nat)
    requires Inv(f, vert, order, v0, v, t) && Distinct(order) && a in order
    requires a in v.buf && id in v.slots && CanJoin(v.grp, t.home, a, id)
    requires k <= |v.buf[a]|
    requires v.slots[id].Size() + |Kept(f, v.buf[a][..k])| <= vert
    ensures Inv(f, vert, order, v0, Moved(f, v, a, id, k), MovedTrace(f, v, t, a, id, k))
    ensures Grows(v, t, Moved(f, v, a, id, k), MovedTrace(f, v, t, a, id, k))
  {
    MoveFlow(f, v0, v, t, a, id, k);
    MoveAddressed(f, v, a, id, k);
    MoveBalanced(f, order, v0, v, t, a, id, k);
    MovePacked(f, v, t, a, id, k);
    MoveTracked(f, vert, v0.slots, v, a, id, k);
    MoveGrows(f, v, t, a, id, k);
  }

  lemma SkipGrows(f: Filter, v: State, t: Trace, a: AccountId)
    requires a in v.buf
    ensures Grows(v, t, Skipped(f, v, a), t)
  {
  }

  lemma SkipTouches(f: Filter, v: State, a: AccountId)
    requires a in v.buf
    ensures var w := Skipped(f, v, a); w.grp == v.grp && w.slots == v.slots && w.updates == v.updates
  {
  }

  lemma SkipKeeps(f: Filter, vert: nat, order: seq<AccountId>, v0: State, v: State, t: Trace, a: AccountId)
    requires Inv(f, vert, order, v0, v, t) && Distinct(order) && a in order
    requires a in v.buf
    ensures Inv(f, vert, order, v0, Skipped(f, v, a), t)
    ensures Grows(v, t, Skipped(f, v, a), t)
  {
    SkipFlow(f, v0, v, t, a);
    SkipAddressed(f, v, a);
    SkipBalanced(f, order, v0, v, t, a);
    SkipGrows(f, v, t, a);
    SkipTouches(f, v, a);
  }

  // --- a whole fill ---

  /** What a fill is asked to do. */
  datatype Job = Job(skip: AccountId -> bool, filter: Filter, vert: nat)

  /** Every account taken from the worklist was grouped before the fill or needs no more work. */
  ghost predicate Settled(job: Job, home0: map<AccountId, SlotId>, v: State, t: Trace, accounts: seq<AccountId>) {
    job.vert > 0 ==>
      forall a :: a in v.buf && a !in accounts ==> a in home0 || Done(job.skip, job.vert, v, t, a)
  }

  /** The worklist: distinct buffered accounts, none of them grouped by this fill. */
  ghost predicate Pending(home0: map<AccountId, SlotId>, v: State, t: Trace, accounts: seq<AccountId>) {
    && Distinct(accounts)
    && (forall a :: a in accounts ==> a in v.buf && (a in t.home ==> a in home0))
  }

  /** Nothing the filter would skip is queued. */
  ghost predicate Fresh(f: Filter, s: seq<Message>) {
    forall m :: m in s ==> !f.ShouldSkip(m)
  }

  /** A sweep of the account left nothing to skip. */
  ghost predicate SweptAt(f: Filter, v: State, a: AccountId) {
    f.CanSkip() ==> Fresh(f, Get(v.buf, a))
  }

  /**
   * An account taken from the worklist: what is left of it has been swept, unless it entered a slot only now;
   * and it was grouped before, or passed over, or something of it was moved, or nothing of it is left.
   */
  ghost predicate Treated(job: Job, home0: map<AccountId, SlotId>, v: State, t: Trace, a: AccountId) {
    && (job.filter.CanSkip() && (a in home0 || ByAccount(t.log, a) == []) ==> Fresh(job.filter, Get(v.buf, a)))
    && (a in home0 || job.skip(a) || ByAccount(t.log, a) != [] || Get(v.buf, a) == [])
  }

  ghost predicate EndOf(order: seq<AccountId>, rest: seq<AccountId>) {
    |rest| <= |order| && forall k :: 0 <= k < |rest| ==> rest[k] == order[|order| - |rest| + k]
  }

  /** The worklist is what is left of the keys in their order, and all before it are treated. */
  ghost predicate Treats(job: Job, order: seq<AccountId>, home0: map<AccountId, SlotId>,
                         v: State, t: Trace, accounts: seq<AccountId>)
  {
    && EndOf(order, accounts)
    && home0.Keys <= t.home.Keys
    && (job.vert > 0 ==> forall a :: a in v.buf && a !in accounts ==> Treated(job, home0, v, t, a))
  }

  /** How many messages a move pops: it stops at the last one it may take, or at the end of the queue. */
  ghost predicate MoveAmount(f: Filter, q: seq<Message>, capacity: nat, k: nat) {
    && k <= |q|
    && |Kept(f, q[..k])| <= k
    && |Kept(f, q[..k])| <= capacity
    && (k == |q| || |Kept(f, q[..k])| == capacity)
    && (k == 0 || (capacity > 0 && (k < |q| ==> !f.ShouldSkip(q[k - 1]))))
  }

  function TrySkip(f: Filter, v: State, a: AccountId): State {
    if f.CanSkip() && a in v.buf then Skipped(f, v, a) else v
  }

  ghost predicate Running(job: Job, order: seq<AccountId>, v0: State, home0: map<AccountId, SlotId>,
                          v: State, t: Trace, accounts: seq<AccountId>) {
    && Inv(job.filter, job.vert, order, v0, v, t)
    && Settled(job, home0, v, t, accounts)
    && Pending(home0, v, t, accounts)
    && Treats(job, order, home0, v, t, accounts)
  }

  // --- treated accounts stay so ---

  /** Fresh and empty queues stay so, and what was moved stays moved. */
  ghost predicate AgesAt(f: Filter, v: State, t: Trace, w: State, u: Trace, a: AccountId) {
    && (Fresh(f, Get(v.buf, a)) ==> Fresh(f, Get(w.buf, a)))
    && (Get(v.buf, a) == [] ==> Get(w.buf, a) == [])
    && (ByAccount(t.log, a) != [] ==> ByAccount(u.log, a) != [])
  }

  ghost predicate Ages(f: Filter, v: State, t: Trace, w: State, u: Trace) {
    w.buf.Keys == v.buf.Keys && t.home.Keys <= u.home.Keys && forall a :: AgesAt(f, v, t, w, u, a)
  }

  lemma TreatedStays(job: Job, home0: map<AccountId, SlotId>, v: State, t: Trace, w: State, u: Trace, a: AccountId)
    requires Treated(job, home0, v, t, a) && AgesAt(job.filter, v, t, w, u, a)
    ensures Treated(job, home0, w, u, a)
  {
  }

  lemma TreatsStep(job: Job, order: seq<AccountId>, home0: map<AccountId, SlotId>,
                   v: State, t: Trace, w: State, u: Trace, accounts: seq<AccountId>)
    requires Treats(job, order, home0, v, t, accounts) && Ages(job.filter, v, t, w, u)
    ensures Treats(job, order, home0, w, u, accounts)
  {
    if job.vert > 0 {
      forall a | a in w.buf && a !in accounts ensures Treated(job, home0, w, u, a) {
        TreatedStays(job, home0, v, t, w, u, a);
      }
    }
  }

  lemma TreatsHead(job: Job, order: seq<AccountId>, home0: map<AccountId, SlotId>, v: State, t: Trace, accounts: seq<AccountId>)
    requires Treats(job, order, home0, v, t, accounts) && accounts != []
    requires job.vert > 0 ==> Treated(job, home0, v, t, accounts[0])
    ensures Treats(job, order, home0, v, t, accounts[1..])
  {
    HeadOnly(accounts);
  }

  lemma MoveAges(f: Filter, v: State, t: Trace, a: AccountId, id: SlotId, k: nat)
    requires a in v.buf && id in v.slots && k <= |v.buf[a]|
    ensures Ages(f, v, t, Moved(f, v, a, id, k), MovedTrace(f, v, t, a, id, k))
  {
    var w, u := Moved(f, v, a, id, k), MovedTrace(f, v, t, a, id, k);
    forall b ensures AgesAt(f, v, t, w, u, b) {
      ByAccountConcat(t.log, Kept(f, v.buf[a][..k]), b);
    }
  }

  lemma SkipAges(f: Filter, v: State, t: Trace, a: AccountId)
    requires a in v.buf
    ensures Ages(f, v, t, Skipped(f, v, a), t) && Fresh(f, Get(Skipped(f, v, a).buf, a))
  {
    KeptMembers(f, v.buf[a]);
  }

  lemma TrySkipFresh(f: Filter, v: State, a: AccountId, w: State)
    requires w == TrySkip(f, v, a)
    ensures SweptAt(f, w, a)
  {
    if f.CanSkip() && a in v.buf {
      KeptMembers(f, v.buf[a]);
    }
  }

  /** An account whose messages move into a slot with room is treated. */
  lemma TakenTreated(job: Job, home0: map<AccountId, SlotId>, v: State, t: Trace, a: AccountId, id: SlotId, k: nat)
    requires a in v.buf && id in v.slots && v.slots[id].Size() < job.vert && Addressed(v.buf[a], a) && a !in home0
    requires MoveAmount(job.filter, v.buf[a], job.vert - v.slots[id].Size(), k)
    ensures Treated(job, home0, Moved(job.filter, v, a, id, k), MovedTrace(job.filter, v, t, a, id, k), a)
  {
    var x := Kept(job.filter, v.buf[a][..k]);
    if x != [] {
      KeptMembers(job.filter, v.buf[a][..k]);
      LogStep(t.log, x, a, a);
    }
  }

  /** A move with room leaves the account drained or its slot full. */
  lemma MoveDone(skip: AccountId -> bool, vert: nat, f: Filter, v: State, t: Trace, a: AccountId, id: SlotId, k: nat)
    requires a in v.buf && id in v.slots && v.slots[id].Size() < vert
    requires MoveAmount(f, v.buf[a], vert - v.slots[id].Size(), k)
    ensures Done(skip, vert, Moved(f, v, a, id, k), MovedTrace(f, v, t, a, id, k), a)
    ensures Moved(f, v, a, id, k).slots[id].Size() == v.slots[id].Size() + |Kept(f, v.buf[a][..k])|
  {
  }

  lemma PendingStep(home0: map<AccountId, SlotId>, v: State, t: Trace, w: State, u: Trace, accounts: seq<AccountId>)
    requires Pending(home0, v, t, accounts) && accounts != []
    requires w.buf.Keys == v.buf.Keys
    requires u.home.Keys <= t.home.Keys + {accounts[0]}
    ensures Pending(home0, w, u, accounts[1..])
  {
  }

  /** What leaves the worklist was grouped before the fill or needs no more work. */
  ghost predicate LeftSettled(job: Job, home0: map<AccountId, SlotId>, w: State, u: Trace,
                              accounts: seq<AccountId>, rest: seq<AccountId>)
  {
    forall a :: a in accounts && a !in rest && job.vert > 0 ==> a in home0 || Done(job.skip, job.vert, w, u, a)
  }

  lemma SettledStep(job: Job, home0: map<AccountId, SlotId>, v: State, t: Trace, w: State, u: Trace,
                    accounts: seq<AccountId>, rest: seq<AccountId>)
    requires Settled(job, home0, v, t, accounts) && Grows(v, t, w, u)
    requires LeftSettled(job, home0, w, u, accounts, rest)
    ensures Settled(job, home0, w, u, rest)
  {
    if job.vert > 0 {
      forall a | a in w.buf && a !in rest ensures a in home0 || Done(job.skip, job.vert, w, u, a) {
        if a !in accounts && a !in home0 {
          DoneStable(job.skip, job.vert, v, t, w, u, a);
        }
      }
    }
  }

  lemma HeadOnly(accounts: seq<AccountId>)
    requires accounts != []
    ensures forall b :: b in accounts && b !in accounts[1..] ==> b == accounts[0]
  {
  }

  lemma HeadSettled(job: Job, home0: map<AccountId, SlotId>, v: State, t: Trace, w: State, accounts: seq<AccountId>)
    requires Pending(home0, v, t, accounts) && accounts != []
    requires accounts[0] in t.home || job.skip(accounts[0])
    ensures LeftSettled(job, home0, w, t, accounts, accounts[1..])
  {
    HeadOnly(accounts);
  }

  lemma HeadDone(job: Job, home0: map<AccountId, SlotId>, w: State, u: Trace, accounts: seq<AccountId>)
    requires accounts != [] && (job.vert > 0 ==> Done(job.skip, job.vert, w, u, accounts[0]))
    ensures LeftSettled(job, home0, w, u, accounts, accounts[1..])
  {
    HeadOnly(accounts);
  }

  /** The head of the worklist is dealt with. */
  lemma RunOn(job: Job, order: seq<AccountId>, v0: State, home0: map<AccountId, SlotId>,
              v: State, t: Trace, w: State, u: Trace, accounts: seq<AccountId>)
    requires Settled(job, home0, v, t, accounts) && Pending(home0, v, t, accounts) && accounts != []
    requires Inv(job.filter, job.vert, order, v0, w, u) && Grows(v, t, w, u)
    requires LeftSettled(job, home0, w, u, accounts, accounts[1..]) && u.home.Keys <= t.home.Keys + {accounts[0]}
    requires Treats(job, order, home0, w, u, accounts[1..])
    ensures Running(job, order, v0, home0, w, u, accounts[1..])
  {
    SettledStep(job, home0, v, t, w, u, accounts, accounts[1..]);
    PendingStep(home0, v, t, w, u, accounts);
  }

  /** Dropping expired messages of any account, listed or not. */
  lemma RunDrop(job: Job, order: seq<AccountId>, v0: State, home0: map<AccountId, SlotId>,
                v: State, t: Trace, accounts: seq<AccountId>, a: AccountId)
    requires Running(job, order, v0, home0, v, t, accounts)
    requires Distinct(order) && (a in v.buf ==> a in order)
    ensures Running(job, order, v0, home0, TrySkip(job.filter, v, a), t, accounts)
    ensures Grows(v, t, TrySkip(job.filter, v, a), t)
  {
    if job.filter.CanSkip() && a in v.buf {
      SkipKeeps(job.filter, job.vert, order, v0, v, t, a);
      SettledStep(job, home0, v, t, Skipped(job.filter, v, a), t, accounts, accounts);
      SkipAges(job.filter, v, t, a);
      TreatsStep(job, order, home0, v, t, Skipped(job.filter, v, a), t, accounts);
    }
  }

  lemma PassedTreated(job: Job, home0: map<AccountId, SlotId>, w: State, t: Trace, accounts: seq<AccountId>)
    requires Pending(home0, w, t, accounts) && accounts != [] && SweptAt(job.filter, w, accounts[0])
    requires accounts[0] in t.home || job.skip(accounts[0])
    ensures Treated(job, home0, w, t, accounts[0])
  {
  }

  /** A head that needs no more work can leave the worklist. */
  lemma RunDropHead(job: Job, order: seq<AccountId>, v0: State, home0: map<AccountId, SlotId>,
                    w: State, t: Trace, accounts: seq<AccountId>)
    requires Running(job, order, v0, home0, w, t, accounts) && accounts != []
    requires accounts[0] in t.home || job.skip(accounts[0])
    requires SweptAt(job.filter, w, accounts[0])
    ensures Running(job, order, v0, home0, w, t, accounts[1..])
  {
    PassedTreated(job, home0, w, t, accounts);
    TreatsHead(job, order, home0, w, t, accounts);
    HeadSettled(job, home0, w, t, w, accounts);
    SettledStep(job, home0, w, t, w, t, accounts, accounts[1..]);
    PendingStep(home0, w, t, w, t, accounts);
  }

  /** Passing over an account that is grouped already or fails the check. */
  lemma RunSkip(job: Job, order: seq<AccountId>, v0: State, home0: map<AccountId, SlotId>,
                v: State, t: Trace, w: State, accounts: seq<AccountId>)
    requires Running(job, order, v0, home0, v, t, accounts) && accounts != []
    requires Distinct(order) && accounts[0] in order
    requires (accounts[0] in t.home || job.skip(accounts[0])) && w == TrySkip(job.filter, v, accounts[0])
    ensures Running(job, order, v0, home0, w, t, accounts[1..])
    ensures Grows(v, t, w, t)
  {
    RunDrop(job, order, v0, home0, v, t, accounts, accounts[0]);
    TrySkipFresh(job.filter, v, accounts[0], w);
    RunDropHead(job, order, v0, home0, w, t, accounts);
  }

  lemma TakeTreats(job: Job, order: seq<AccountId>, home0: map<AccountId, SlotId>, v: State, t: Trace,
                   accounts: seq<AccountId>, id: SlotId, k: nat)
    requires Treats(job, order, home0, v, t, accounts) && accounts != [] && AllAddressed(v.buf)
    requires accounts[0] in v.buf && accounts[0] !in t.home && id in v.slots && v.slots[id].Size() <= job.vert
    requires job.vert > 0 ==> v.slots[id].Size() < job.vert
    requires MoveAmount(job.filter, v.buf[accounts[0]], job.vert - v.slots[id].Size(), k)
    ensures Treats(job, order, home0, Moved(job.filter, v, accounts[0], id, k),
                   MovedTrace(job.filter, v, t, accounts[0], id, k), accounts[1..])
  {
    var w, u := Moved(job.filter, v, accounts[0], id, k), MovedTrace(job.filter, v, t, accounts[0], id, k);
    MoveAges(job.filter, v, t, accounts[0], id, k);
    TreatsStep(job, order, home0, v, t, w, u, accounts);
    if job.vert > 0 {
      TakenTreated(job, home0, v, t, accounts[0], id, k);
    }
    TreatsHead(job, order, home0, w, u, accounts);
  }

  /** Taking messages of a fresh account into slot `id`. */
  lemma RunTake(job: Job, order: seq<AccountId>, v0: State, home0: map<AccountId, SlotId>,
                v: State, t: Trace, accounts: seq<AccountId>, id: SlotId, k: nat)
    requires Running(job, order, v0, home0, v, t, accounts) && accounts != []
    requires Distinct(order) && accounts[0] in order && accounts[0] !in t.home
    requires id in v.slots && v.slots[id].Size() <= job.vert && (job.vert > 0 ==> v.slots[id].Size() < job.vert)
    requires MoveAmount(job.filter, v.buf[accounts[0]], job.vert - v.slots[id].Size(), k)
    ensures Running(job, order, v0, home0, Moved(job.filter, v, accounts[0], id, k),
                    MovedTrace(job.filter, v, t, accounts[0], id, k), accounts[1..])
    ensures Grows(v, t, Moved(job.filter, v, accounts[0], id, k), MovedTrace(job.filter, v, t, accounts[0], id, k))
  {
    var a := accounts[0];
    var w, u := Moved(job.filter, v, a, id, k), MovedTrace(job.filter, v, t, a, id, k);
    MoveKeeps(job.filter, job.vert, order, v0, v, t, a, id, k);
    if job.vert > 0 {
      MoveDone(job.skip, job.vert, job.filter, v, t, a, id, k);
    }
    HeadDone(job, home0, w, u, accounts);
    TakeTreats(job, order, home0, v, t, accounts, id, k);
    RunOn(job, order, v0, home0, v, t, w, u, accounts);
  }

  lemma TopUpDone(skip: AccountId -> bool, vert: nat, f: Filter, v: State, t: Trace, a: AccountId, id: SlotId, k: nat)
    requires a in v.buf && id in v.slots && v.slots[id].Size() <= vert && a in t.home && t.home[a] == id
    requires MoveAmount(f, v.buf[a], vert - v.slots[id].Size(), k)
    ensures Done(skip, vert, Moved(f, v, a, id, k), MovedTrace(f, v, t, a, id, k), a)
    ensures MovedTrace(f, v, t, a, id, k).home == t.home
  {
    if v.slots[id].Size() < vert {
      MoveDone(skip, vert, f, v, t, a, id, k);
    } else {
      assert Kept(f, v.buf[a][..k]) == [];
    }
  }

  /** Topping up a slot with messages of an account it already holds. */
  lemma RunTopUp(job: Job, order: seq<AccountId>, v0: State, home0: map<AccountId, SlotId>,
                 v: State, t: Trace, accounts: seq<AccountId>, a: AccountId, id: SlotId, k: nat)
    requires Running(job, order, v0, home0, v, t, accounts)
    requires Distinct(order) && a in order && a in v.buf && a in t.home && t.home[a] == id
    requires id in v.slots && v.slots[id].Size() <= job.vert
    requires MoveAmount(job.filter, v.buf[a], job.vert - v.slots[id].Size(), k)
    ensures Running(job, order, v0, home0, Moved(job.filter, v, a, id, k), MovedTrace(job.filter, v, t, a, id, k), accounts)
    ensures Grows(v, t, Moved(job.filter, v, a, id, k), MovedTrace(job.filter, v, t, a, id, k))
    ensures Done(job.skip, job.vert, Moved(job.filter, v, a, id, k), MovedTrace(job.filter, v, t, a, id, k), a)
  {
    var w, u := Moved(job.filter, v, a, id, k), MovedTrace(job.filter, v, t, a, id, k);
    MoveKeeps(job.filter, job.vert, order, v0, v, t, a, id, k);
    TopUpDone(job.skip, job.vert, job.filter, v, t, a, id, k);
    SettledStep(job, home0, v, t, w, u, accounts, accounts);
    MoveAges(job.filter, v, t, a, id, k);
    TreatsStep(job, order, home0, v, t, w, u, accounts);
  }
}
