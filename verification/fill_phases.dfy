/** The two phases of a fill: new slots first, then every slot that still has room. */
module FillPhases {
  import opened Messages
  import opened Sequences
  import opened Slots
  import opened Filling
  import opened Schedules
  import opened Wrappers

  /** A slot being filled: the counters it had when picked up and the room left in it. */
  datatype SlotContext = SlotContext(id: SlotId, oldInts: int, oldExts: int, capacity: nat)

  /** `cx` describes slot `cx.id` as the fill has left it so far. */
  ghost predicate ContextOf(cx: SlotContext, v: State, vert: nat) {
    && cx.id in v.slots
    && cx.capacity == vert - v.slots[cx.id].Size()
    && (cx.id !in v.updates ==> cx.oldInts == v.slots[cx.id].intCount && cx.oldExts == v.slots[cx.id].extCount)
  }

  function Pick(v: State, id: SlotId, vert: nat): SlotContext
    requires id in v.slots && v.slots[id].Size() <= vert
  {
    SlotContext(id, v.slots[id].intCount, v.slots[id].extCount, vert - v.slots[id].Size())
  }

  /** No slot but `id` changed. */
  ghost predicate OnlySlot(slots: SlotMap, slots': SlotMap, id: SlotId) {
    && slots'.Keys == slots.Keys
    && (forall i :: i in slots && i != id ==> slots'[i] == slots[i])
  }

  /** Where a fill started: key order of the buffer, state and packing, and whether the buffer holds nothing to skip. */
  datatype Start = Start(order: seq<AccountId>, state: State, home: map<AccountId, SlotId>, calm: bool)

  /** Every buffered account has messages and none of them is to be skipped. */
  ghost predicate Calm(f: Filter, buf: Queues) {
    forall a :: a in buf ==> buf[a] != [] && Fresh(f, buf[a])
  }

  ghost predicate KeysOf(order: seq<AccountId>, q: Queues) {
    Distinct(order) && forall a :: a in order <==> a in q
  }

  ghost predicate Fills(job: Job, s: Start, v: State, t: Trace, accounts: seq<AccountId>) {
    && KeysOf(s.order, v.buf)
    && (s.calm ==> Calm(job.filter, s.state.buf))
    && Running(job, s.order, s.state, s.home, v, t, accounts)
  }

  lemma KeptSnoc(f: Filter, s: seq<Message>, k: nat)
    requires k < |s|
    ensures Kept(f, s[..k + 1]) == Kept(f, s[..k]) + (if f.ShouldSkip(s[k]) then [] else [s[k]])
  {
    assert s[..k + 1] == s[..k] + [s[k]];
    KeptConcat(f, s[..k], [s[k]]);
  }

  /** Pops messages until `amount` are collected, dropping what the filter skips. */
  method PopMessages(f: Filter, q: seq<Message>, capacity: nat)
    returns (k: nat, moved: seq<Message>, ints: nat, exts: nat, keys: seq<nat>)
    ensures MoveAmount(f, q, capacity, k)
    ensures moved == Kept(f, q[..k])
    ensures ints == Ints(moved) && exts == Exts(moved) && keys == IntKeys(moved)
  {
    var amount := if |q| < capacity then |q| else capacity;
    k, moved, ints, exts, keys := 0, [], 0, 0, [];
    while ints + exts < amount && k < |q|
      invariant k <= |q| && ints + exts == |moved| <= k && |moved| <= amount
      invariant moved == Kept(f, q[..k])
      invariant ints == Ints(moved) && keys == IntKeys(moved)
      invariant k == 0 || (amount > 0 && (ints + exts < amount || !f.ShouldSkip(q[k - 1])))
    {
      var msg := q[k];
      KeptSnoc(f, q, k);
      if f.ShouldSkip(msg) {
        k := k + 1;
        continue;
      }
      IntsConcat(moved, [msg]);
      IntKeysConcat(moved, [msg]);
      if msg.Int? {
        keys := keys + [msg.key];
        ints := ints + 1;
      } else {
        exts := exts + 1;
      }
      moved := moved + [msg];
      k := k + 1;
    }
  }

  lemma MovedContext(f: Filter, v: State, a: AccountId, cx: SlotContext, vert: nat, k: nat)
    requires ContextOf(cx, v, vert) && a in v.buf && k <= |v.buf[a]| && |Kept(f, v.buf[a][..k])| <= cx.capacity
    ensures ContextOf(cx.(capacity := cx.capacity - |Kept(f, v.buf[a][..k])|), Moved(f, v, a, cx.id, k), vert)
    ensures Moved(f, v, a, cx.id, k).buf.Keys == v.buf.Keys
    ensures OnlySlot(v.slots, Moved(f, v, a, cx.id, k).slots, cx.id)
  {
  }

  /** What moving messages of one account into the slot of `cx` has done. */
  ghost predicate MovedInto(f: Filter, v: State, t: Trace, a: AccountId, cx: SlotContext, vert: nat,
                            v': State, t': Trace, cx': SlotContext, k: nat)
    requires ContextOf(cx, v, vert) && a in v.buf
  {
    && MoveAmount(f, v.buf[a], vert - v.slots[cx.id].Size(), k)
    && v' == Moved(f, v, a, cx.id, k)
    && t' == MovedTrace(f, v, t, a, cx.id, k)
    && cx' == cx.(capacity := cx.capacity - |Kept(f, v.buf[a][..k])|)
  }

  lemma MovedNothing(f: Filter, v: State, t: Trace, a: AccountId, cx: SlotContext, vert: nat, k: nat)
    requires ContextOf(cx, v, vert) && a in v.buf && MoveAmount(f, v.buf[a], cx.capacity, k)
    requires Kept(f, v.buf[a][..k]) == []
    ensures var w := v.(buf := v.buf[a := v.buf[a][k..]], exts := v.exts - k, skipped := v.skipped + k);
      MovedInto(f, v, t, a, cx, vert, w, MovedTrace(f, v, t, a, cx.id, k), cx, k)
  {
  }

  lemma MovedSomething(f: Filter, v: State, t: Trace, a: AccountId, cx: SlotContext, vert: nat, k: nat, x: seq<Message>)
    requires ContextOf(cx, v, vert) && a in v.buf && MoveAmount(f, v.buf[a], cx.capacity, k)
    requires x == Kept(f, v.buf[a][..k]) && x != []
    ensures var w := State(
      v.buf[a := v.buf[a][k..]], v.ints - Ints(x), v.exts - (k - |x|) - Exts(x), NewQueues(v.grp, a, x),
      v.slots[cx.id := NewSlot(v.grp, v.slots[cx.id], a, x)],
      v.updates[cx.id := NewUpdate(v.updates, v.slots[cx.id], cx.id, x)], v.keys + IntKeys(x), v.skipped + (k - |x|));
      MovedInto(f, v, t, a, cx, vert, w, MovedTrace(f, v, t, a, cx.id, k), cx.(capacity := cx.capacity - |x|), k)
  {
  }

  /** The slot with the new messages; an account is listed in it once, when its first message is collected. */
  method AddToSlot(v: State, a: AccountId, cx: SlotContext, ghost vert: nat, ghost x: seq<Message>, ints: nat, exts: nat)
    returns (slot: Slot, update: Update)
    requires ContextOf(cx, v, vert) && ints == Ints(x) && exts == Exts(x)
    ensures slot == NewSlot(v.grp, v.slots[cx.id], a, x) && update == NewUpdate(v.updates, v.slots[cx.id], cx.id, x)
  {
    slot := v.slots[cx.id];
    slot := Slot(if a in v.grp then slot.accounts else slot.accounts + [a], slot.intCount + ints, slot.extCount + exts);
    update := if cx.id in v.updates
              then Update(v.updates[cx.id].oldInts, v.updates[cx.id].oldExts, slot.intCount, slot.extCount)
              else Update(cx.oldInts, cx.oldExts, slot.intCount, slot.extCount);
  }

  /** Moves messages of a buffered account into the slot of `cx`, at most as many as fit. */
  method MoveBuffered(f: Filter, v: State, a: AccountId, cx: SlotContext, ghost vert: nat, ghost t: Trace)
    returns (v': State, cx': SlotContext, ghost t': Trace, ghost k: nat)
    requires ContextOf(cx, v, vert) && a in v.buf
    ensures MovedInto(f, v, t, a, cx, vert, v', t', cx', k)
  {
    var q := v.buf[a];
    var n, moved, ints, exts, keys := PopMessages(f, q, cx.capacity);
    k, t' := n, MovedTrace(f, v, t, a, cx.id, n);
    var gone := n - |moved|;
    if moved == [] {
      MovedNothing(f, v, t, a, cx, vert, n);
      return v.(buf := v.buf[a := q[n..]], exts := v.exts - gone, skipped := v.skipped + gone), cx, t', k;
    }
    var slot, update := AddToSlot(v, a, cx, vert, moved, ints, exts);
    MovedSomething(f, v, t, a, cx, vert, n, moved);
    v' := State(v.buf[a := q[n..]], v.ints - ints, v.exts - gone - exts, NewQueues(v.grp, a, moved),
                v.slots[cx.id := slot], v.updates[cx.id := update], v.keys + keys, v.skipped + gone);
    cx' := cx.(capacity := cx.capacity - |moved|);
  }

  /** Moves messages of one account into the slot of `cx`, at most as many as fit. */
  method MoveAccountMessagesToSlot(f: Filter, v: State, a: AccountId, cx: SlotContext, ghost vert: nat, ghost t: Trace)
    returns (v': State, cx': SlotContext, ghost t': Trace, ghost k: nat)
    requires ContextOf(cx, v, vert)
    ensures a !in v.buf ==> v' == v && cx' == cx
    ensures a !in v.buf ==> t' == t
    ensures a in v.buf ==> MovedInto(f, v, t, a, cx, vert, v', t', cx', k)
  {
    v', cx', t', k := v, cx, t, 0;
    if a in v.buf {
      v', cx', t', k := MoveBuffered(f, v, a, cx, vert, t);
    }
  }

  /** Expiry touches no slot. */
  lemma SkipSame(f: Filter, v: State, a: AccountId, w: State)
    requires w == TrySkip(f, v, a)
    ensures w.slots == v.slots && w.updates == v.updates && w.buf.Keys == v.buf.Keys
  {
  }

  /** A step within the slot of `cx`: the fill goes on and only that slot changes. */
  ghost predicate Local(job: Job, s: Start, v: State, t: Trace, cx: SlotContext,
                          v': State, t': Trace, cx': SlotContext, rest: seq<AccountId>)
  {
    && Fills(job, s, v', t', rest) && ContextOf(cx', v', job.vert) && cx'.id == cx.id
    && Grows(v, t, v', t') && OnlySlot(v.slots, v'.slots, cx.id) && Onward(v, t, v', t', cx.id)
  }

  lemma LocalStart(job: Job, s: Start, v: State, t: Trace, cx: SlotContext, accounts: seq<AccountId>)
    requires Fills(job, s, v, t, accounts) && ContextOf(cx, v, job.vert)
    ensures Local(job, s, v, t, cx, v, t, cx, accounts)
  {
    OnwardStart(v, t, v, cx.id);
  }

  lemma LocalSkip(job: Job, s: Start, v: State, t: Trace, cx: SlotContext, w: State, rest: seq<AccountId>)
    requires ContextOf(cx, v, job.vert) && Fills(job, s, w, t, rest) && Grows(v, t, w, t)
    requires w.slots == v.slots && w.updates == v.updates
    ensures Local(job, s, v, t, cx, w, t, cx, rest)
  {
    OnwardStart(v, t, w, cx.id);
  }

  lemma LocalThen(job: Job, s: Start, v: State, t: Trace, cx: SlotContext, w: State, u: Trace, cy: SlotContext,
                    v': State, t': Trace, cx': SlotContext, accounts: seq<AccountId>, rest: seq<AccountId>)
    requires Local(job, s, v, t, cx, w, u, cy, accounts) && Local(job, s, w, u, cy, v', t', cx', rest)
    ensures Local(job, s, v, t, cx, v', t', cx', rest)
  {
    GrowsTransitive(v, t, w, u, v', t');
    OnwardThen(v, t, w, u, v', t', cx.id);
  }

  lemma PassOver(job: Job, s: Start, v: State, t: Trace, cx: SlotContext, accounts: seq<AccountId>)
    requires Fills(job, s, v, t, accounts) && ContextOf(cx, v, job.vert) && accounts != []
    requires accounts[0] in v.grp || job.skip(accounts[0])
    ensures Local(job, s, v, t, cx, TrySkip(job.filter, v, accounts[0]), t, cx, accounts[1..])
  {
    var w := TrySkip(job.filter, v, accounts[0]);
    RunSkip(job, s.order, s.state, s.home, v, t, w, accounts);
    SkipSame(job.filter, v, accounts[0], w);
    LocalSkip(job, s, v, t, cx, w, accounts[1..]);
  }

  lemma TakeIn(job: Job, s: Start, v: State, t: Trace, cx: SlotContext, accounts: seq<AccountId>, k: nat)
    requires Fills(job, s, v, t, accounts) && ContextOf(cx, v, job.vert) && accounts != []
    requires accounts[0] !in v.grp && (job.vert > 0 ==> cx.capacity > 0)
    requires accounts[0] in v.buf && MoveAmount(job.filter, v.buf[accounts[0]], cx.capacity, k)
    ensures var a, f := accounts[0], job.filter;
      Local(job, s, v, t, cx, Moved(f, v, a, cx.id, k), MovedTrace(f, v, t, a, cx.id, k),
              cx.(capacity := cx.capacity - |Kept(f, v.buf[a][..k])|), accounts[1..])
  {
    MovedContext(job.filter, v, accounts[0], cx, job.vert, k);
    OnwardMove(job.filter, v, t, accounts[0], cx.id, k);
    RunTake(job, s.order, s.state, s.home, v, t, accounts, cx.id, k);
  }

  lemma HeadBuffered(job: Job, s: Start, v: State, t: Trace, accounts: seq<AccountId>)
    requires Fills(job, s, v, t, accounts) && accounts != []
    ensures accounts[0] in v.buf
  {
  }

  /** With nothing to skip, an account that has not moved yet has all its messages. */
  lemma Untouched(f: Filter, b0: seq<Message>, b: seq<Message>)
    requires Cut(f, b0, b, []) && Fresh(f, b0)
    ensures b == b0
  {
    var k :| CutAt(f, b0, b, [], k);
    KeptAll(f, b0[..k]);
    assert b0[k..] == b0;
    KeptAll(f, b0);
  }

  lemma TakesSome(f: Filter, q: seq<Message>, capacity: nat, k: nat)
    requires q != [] && Fresh(f, q) && capacity > 0 && MoveAmount(f, q, capacity, k)
    ensures Kept(f, q[..k]) != []
  {
    if k == |q| {
      assert q[..k] == q;
      KeptAll(f, q);
    }
  }

  lemma HeadTakes(job: Job, s: Start, v: State, t: Trace, accounts: seq<AccountId>, capacity: nat, k: nat)
    requires Fills(job, s, v, t, accounts) && accounts != [] && accounts[0] !in v.grp && accounts[0] in v.buf
    requires s.calm && capacity > 0 && MoveAmount(job.filter, v.buf[accounts[0]], capacity, k)
    ensures Kept(job.filter, v.buf[accounts[0]][..k]) != []
  {
    var a := accounts[0];
    assert Get(v.grp, a) == Get(s.state.grp, a) + ByAccount(t.log, a);
    assert Cut(job.filter, s.state.buf[a], v.buf[a], ByAccount(t.log, a));
    Untouched(job.filter, s.state.buf[a], v.buf[a]);
    TakesSome(job.filter, v.buf[a], capacity, k);
  }

  lemma TakeJoins(job: Job, s: Start, v: State, t: Trace, cx: SlotContext, accounts: seq<AccountId>, k: nat)
    requires Fills(job, s, v, t, accounts) && ContextOf(cx, v, job.vert) && accounts != []
    requires accounts[0] !in v.grp && (job.vert > 0 ==> cx.capacity > 0)
    requires accounts[0] in v.buf && MoveAmount(job.filter, v.buf[accounts[0]], cx.capacity, k)
    ensures Joins(s.calm && job.vert > 0, v.slots, Moved(job.filter, v, accounts[0], cx.id, k).slots, cx.id, true)
  {
    SlotCounts(job, s, v, t, accounts, cx.id);
    if s.calm && job.vert > 0 {
      HeadTakes(job, s, v, t, accounts, cx.capacity, k);
    }
    MoveJoins(s.calm && job.vert > 0, job.filter, v, accounts[0], cx.id, k);
  }

  /** Handles the first account of the worklist: passes over it, or moves its messages into the slot of `cx`. */
  method TakeFirst(job: Job, v: State, cx: SlotContext, accounts: seq<AccountId>, ghost s: Start, ghost t: Trace)
    returns (v': State, cx': SlotContext, moved: bool, ghost t': Trace)
    requires Fills(job, s, v, t, accounts) && ContextOf(cx, v, job.vert) && accounts != []
    requires job.vert > 0 ==> cx.capacity > 0
    ensures Local(job, s, v, t, cx, v', t', cx', accounts[1..])
    ensures !moved ==> cx' == cx
    ensures Joins(s.calm && job.vert > 0, v.slots, v'.slots, cx.id, moved)
  {
    var a := accounts[0];
    v', cx', t', moved := v, cx, t, false;
    HeadBuffered(job, s, v, t, accounts);
    if a in v.grp || job.skip(a) {
      // its messages may have expired meanwhile
      PassOver(job, s, v, t, cx, accounts);
      v' := TrySkip(job.filter, v, a);
      SkipSame(job.filter, v, a, v');
    } else {
      ghost var k: nat;
      v', cx', t', k := MoveAccountMessagesToSlot(job.filter, v, a, cx, job.vert, t);
      TakeIn(job, s, v, t, cx, accounts, k);
      TakeJoins(job, s, v, t, cx, accounts, k);
      moved := true;
    }
  }

  ghost predicate StopsHere(v: State, cx: SlotContext, untilUsed: bool)
    requires cx.id in v.slots
  {
    if untilUsed then v.slots[cx.id].Size() > 0 else cx.capacity == 0
  }

  /** The slot picked up as `c0` is offered to the accounts `rest` that are left of `accounts`. */
  ghost predicate Taking(job: Job, s: Start, v0: State, t0: Trace, c0: SlotContext, accounts: seq<AccountId>, untilUsed: bool,
                         v: State, t: Trace, cx: SlotContext, rest: seq<AccountId>)
  {
    && Local(job, s, v0, t0, c0, v, t, cx, rest)
    && (job.vert > 0 ==> cx.capacity > 0)
    && |rest| <= |accounts|
    && (untilUsed ==> v.slots[cx.id] == v0.slots[cx.id])
    && (rest == accounts ==> v == v0 && t == t0)
  }

  /** The slot was used (phase 1) or filled (phase 2). */
  ghost predicate Taken(job: Job, s: Start, v0: State, t0: Trace, c0: SlotContext, accounts: seq<AccountId>, untilUsed: bool,
                        v: State, t: Trace, cx: SlotContext, rest: seq<AccountId>)
  {
    && Local(job, s, v0, t0, c0, v, t, cx, rest)
    && |rest| < |accounts|
    && StopsHere(v, cx, untilUsed)
    && (untilUsed ==> Joins(s.calm, v0.slots, v.slots, c0.id, true))
  }

  lemma RoomLeft(v: State, cx: SlotContext, vert: nat, untilUsed: bool)
    requires ContextOf(cx, v, vert) && !StopsHere(v, cx, untilUsed) && vert > 0
    ensures cx.capacity > 0
  {
  }

  /** An account that joins uses the slot, so until then it is as it was. */
  lemma StopJoins(calm: bool, vert: nat, slots0: SlotMap, v: State, v': State, cx: SlotContext, moved: bool, stop: bool)
    requires Joins(calm && vert > 0, v.slots, v'.slots, cx.id, moved) && ContextOf(cx, v', vert)
    requires cx.id in slots0 && v.slots[cx.id] == slots0[cx.id]
    requires stop <==> moved && v'.slots[cx.id].Size() > 0
    ensures stop ==> Joins(calm, slots0, v'.slots, cx.id, true)
    ensures !stop ==> v'.slots[cx.id] == slots0[cx.id]
  {
  }

  lemma TookLast(job: Job, s: Start, v0: State, t0: Trace, c0: SlotContext, accounts: seq<AccountId>, untilUsed: bool,
                 v: State, v': State, t': Trace, cx': SlotContext, rest: seq<AccountId>)
    requires Local(job, s, v0, t0, c0, v', t', cx', rest) && |rest| < |accounts| && StopsHere(v', cx', untilUsed)
    requires untilUsed ==> c0.id in v.slots && c0.id in v0.slots && v.slots[c0.id] == v0.slots[c0.id]
    requires Joins(s.calm && job.vert > 0, v.slots, v'.slots, c0.id, true)
    ensures Taken(job, s, v0, t0, c0, accounts, untilUsed, v', t', cx', rest)
  {
    if untilUsed {
      StopJoins(s.calm, job.vert, v0.slots, v, v', cx', true, true);
    }
  }

  lemma TookNext(job: Job, s: Start, v0: State, t0: Trace, c0: SlotContext, accounts: seq<AccountId>, untilUsed: bool,
                 v: State, v': State, t': Trace, cx': SlotContext, moved: bool, rest: seq<AccountId>)
    requires Local(job, s, v0, t0, c0, v', t', cx', rest) && |rest| < |accounts| && !(moved && StopsHere(v', cx', untilUsed))
    requires untilUsed ==> c0.id in v.slots && c0.id in v0.slots && v.slots[c0.id] == v0.slots[c0.id]
    requires !moved && job.vert > 0 ==> cx'.capacity > 0
    requires Joins(s.calm && job.vert > 0, v.slots, v'.slots, c0.id, moved)
    ensures Taking(job, s, v0, t0, c0, accounts, untilUsed, v', t', cx', rest)
  {
    if untilUsed {
      StopJoins(s.calm, job.vert, v0.slots, v, v', cx', moved, false);
    }
    if moved && job.vert > 0 {
      RoomLeft(v', cx', job.vert, untilUsed);
    }
  }

  /** One more account for the slot that was picked up as `c0`. */
  method TakeNext(job: Job, v: State, cx: SlotContext, rest: seq<AccountId>, untilUsed: bool, ghost accounts: seq<AccountId>,
                  ghost v0: State, ghost t0: Trace, ghost c0: SlotContext, ghost s: Start, ghost t: Trace)
    returns (v': State, cx': SlotContext, stop: bool, ghost t': Trace)
    requires Taking(job, s, v0, t0, c0, accounts, untilUsed, v, t, cx, rest) && rest != []
    ensures if stop then Taken(job, s, v0, t0, c0, accounts, untilUsed, v', t', cx', rest[1..])
            else Taking(job, s, v0, t0, c0, accounts, untilUsed, v', t', cx', rest[1..])
  {
    var moved;
    v', cx', moved, t' := TakeFirst(job, v, cx, rest, s, t);
    stop := moved && if untilUsed then v'.slots[cx'.id].Size() > 0 else cx'.capacity == 0;
    LocalThen(job, s, v0, t0, c0, v, t, cx, v', t', cx', rest, rest[1..]);
    if stop {
      TookLast(job, s, v0, t0, c0, accounts, untilUsed, v, v', t', cx', rest[1..]);
    } else {
      TookNext(job, s, v0, t0, c0, accounts, untilUsed, v, v', t', cx', moved, rest[1..]);
    }
  }

  lemma TakingStart(job: Job, s: Start, v: State, t: Trace, cx: SlotContext, accounts: seq<AccountId>, untilUsed: bool)
    requires Fills(job, s, v, t, accounts) && ContextOf(cx, v, job.vert) && (job.vert > 0 ==> cx.capacity > 0)
    ensures Taking(job, s, v, t, cx, accounts, untilUsed, v, t, cx, accounts)
  {
    LocalStart(job, s, v, t, cx, accounts);
  }

  /**
   * Feeds the slot of `cx` with accounts of the worklist that sit in no slot,
   * until it is used (phase 1) or full (phase 2), or the worklist is empty.
   */
  method TakeOthers(job: Job, v: State, cx: SlotContext, accounts: seq<AccountId>, untilUsed: bool,
                    ghost s: Start, ghost t: Trace)
    returns (v': State, cx': SlotContext, rest: seq<AccountId>, stopped: bool, ghost t': Trace)
    requires Fills(job, s, v, t, accounts) && ContextOf(cx, v, job.vert)
    requires job.vert > 0 ==> cx.capacity > 0
    ensures stopped ==> Taken(job, s, v, t, cx, accounts, untilUsed, v', t', cx', rest)
    ensures !stopped ==> rest == [] && Taking(job, s, v, t, cx, accounts, untilUsed, v', t', cx', rest)
  {
    TakingStart(job, s, v, t, cx, accounts, untilUsed);
    v', cx', rest, stopped, t' := v, cx, accounts, false, t;
    while rest != []
      invariant Taking(job, s, v, t, cx, accounts, untilUsed, v', t', cx', rest)
      decreases |rest|
    {
      v', cx', stopped, t' := TakeNext(job, v', cx', rest, untilUsed, accounts, v, t, cx, s, t');
      rest := rest[1..];
      if stopped {
        return;
      }
    }
  }

  // --- phase 2 ---

  lemma TopUpSkipped(job: Job, s: Start, v: State, t: Trace, cx: SlotContext, accounts: seq<AccountId>, a: AccountId)
    requires Fills(job, s, v, t, accounts) && ContextOf(cx, v, job.vert) && job.skip(a)
    ensures Local(job, s, v, t, cx, TrySkip(job.filter, v, a), t, cx, accounts)
    ensures Done(job.skip, job.vert, TrySkip(job.filter, v, a), t, a)
  {
    var w := TrySkip(job.filter, v, a);
    RunDrop(job, s.order, s.state, s.home, v, t, accounts, a);
    SkipSame(job.filter, v, a, w);
    LocalSkip(job, s, v, t, cx, w, accounts);
  }

  lemma TopUpMoved(job: Job, s: Start, v: State, t: Trace, cx: SlotContext, accounts: seq<AccountId>, a: AccountId, k: nat)
    requires Fills(job, s, v, t, accounts) && ContextOf(cx, v, job.vert) && a in t.home && t.home[a] == cx.id
    requires a in v.buf && MoveAmount(job.filter, v.buf[a], cx.capacity, k)
    ensures var f := job.filter;
      Local(job, s, v, t, cx, Moved(f, v, a, cx.id, k), MovedTrace(f, v, t, a, cx.id, k),
              cx.(capacity := cx.capacity - |Kept(f, v.buf[a][..k])|), accounts)
    ensures Done(job.skip, job.vert, Moved(job.filter, v, a, cx.id, k), MovedTrace(job.filter, v, t, a, cx.id, k), a)
  {
    MovedContext(job.filter, v, a, cx, job.vert, k);
    OnwardMove(job.filter, v, t, a, cx.id, k);
    RunTopUp(job, s.order, s.state, s.home, v, t, accounts, a, cx.id, k);
  }

  /** Tops a slot up with messages of one account it holds already. */
  method TopUpAccount(job: Job, v: State, cx: SlotContext, a: AccountId, ghost accounts: seq<AccountId>,
                      ghost s: Start, ghost t: Trace)
    returns (v': State, cx': SlotContext, moved: bool, ghost t': Trace)
    requires Fills(job, s, v, t, accounts) && ContextOf(cx, v, job.vert)
    requires a in t.home && t.home[a] == cx.id
    ensures Local(job, s, v, t, cx, v', t', cx', accounts)
    ensures Done(job.skip, job.vert, v', t', a)
    ensures Fed(t, t', a, cx.capacity)
  {
    v', cx', moved, t' := v, cx, false, t;
    if job.skip(a) {
      // its messages may have expired meanwhile
      TopUpSkipped(job, s, v, t, cx, accounts, a);
      v' := TrySkip(job.filter, v, a);
    } else {
      ghost var k: nat;
      v', cx', t', k := MoveAccountMessagesToSlot(job.filter, v, a, cx, job.vert, t);
      if a in v.buf {
        TopUpMoved(job, s, v, t, cx, accounts, a, k);
        FedMove(job.filter, v, t, a, cx.id, k, cx.capacity);
      } else {
        LocalStart(job, s, v, t, cx, accounts);
      }
      moved := true;
    }
  }

  ghost predicate AllDone(job: Job, v: State, t: Trace, list: seq<AccountId>, n: nat)
    requires n <= |list|
  {
    forall i :: 0 <= i < n ==> Done(job.skip, job.vert, v, t, list[i])
  }

  lemma AllDoneNext(job: Job, v: State, t: Trace, w: State, u: Trace, list: seq<AccountId>, n: nat)
    requires n < |list| && AllDone(job, v, t, list, n) && Grows(v, t, w, u)
    requires Done(job.skip, job.vert, w, u, list[n])
    ensures AllDone(job, w, u, list, n + 1)
  {
    forall i | 0 <= i < n ensures Done(job.skip, job.vert, w, u, list[i]) {
      DoneStable(job.skip, job.vert, v, t, w, u, list[i]);
    }
  }

  lemma MemberHome(job: Job, s: Start, v: State, t: Trace, accounts: seq<AccountId>, id: SlotId, a: AccountId)
    requires Fills(job, s, v, t, accounts) && id in v.slots && a in v.slots[id].accounts
    ensures a in t.home && t.home[a] == id
  {
  }

  lemma HomeStays(v: State, t: Trace, w: State, u: Trace, a: AccountId)
    requires Grows(v, t, w, u) && a in t.home
    ensures a in u.home && u.home[a] == t.home[a]
  {
  }

  /** The accounts of an old slot have taken turns so far. */
  ghost predicate ServedAt(job: Job, s: Start, v: State, t: Trace, id: SlotId) {
    id in s.state.slots && id in v.slots &&
    TakesTurns(job.skip, s.state.slots[id].accounts, s.home, id, v.buf, v.slots[id].accounts, t.home, t.log)
  }

  /** The first `n` accounts the slot held when picked up had their turn. */
  ghost predicate ToppedUp(job: Job, s: Start, v: State, t: Trace, cx: SlotContext, accounts: seq<AccountId>, list: seq<AccountId>,
                           n: nat, v': State, t': Trace, cx': SlotContext)
  {
    && Local(job, s, v, t, cx, v', t', cx', accounts)
    && n <= |list| && AllDone(job, v', t', list, n)
    && t'.home == t.home
    && Listed(s, t', cx.id, list)
    && ServedAt(job, s, v', t', cx.id)
  }

  /** The accounts of a slot: those it held at the start come first. */
  ghost predicate Listed(s: Start, t: Trace, id: SlotId, list: seq<AccountId>) {
    && Distinct(list) && Seated(t.home, list, id)
    && id in s.state.slots && Extends(s.state.slots[id].accounts, list)
  }

  lemma ListIs(job: Job, s: Start, v: State, t: Trace, accounts: seq<AccountId>, id: SlotId)
    requires Fills(job, s, v, t, accounts) && ServedAt(job, s, v, t, id)
    ensures Listed(s, t, id, v.slots[id].accounts)
  {
    var list := v.slots[id].accounts;
    assert SlotLoaded(v.grp, v.slots[id]);
    forall i | 0 <= i < |list| ensures list[i] in t.home && t.home[list[i]] == id {
      MemberHome(job, s, v, t, accounts, id, list[i]);
    }
  }

  lemma ToppedUpStart(job: Job, s: Start, v: State, t: Trace, cx: SlotContext, accounts: seq<AccountId>)
    requires Fills(job, s, v, t, accounts) && ContextOf(cx, v, job.vert) && ServedAt(job, s, v, t, cx.id)
    ensures ToppedUp(job, s, v, t, cx, accounts, v.slots[cx.id].accounts, 0, v, t, cx)
  {
    LocalStart(job, s, v, t, cx, accounts);
    ListIs(job, s, v, t, accounts, cx.id);
  }

  /** With room left in the slot, its accounts that had their turn are spent. */
  lemma DoneIsSpent(job: Job, v: State, t: Trace, id: SlotId, list: seq<AccountId>, n: nat)
    requires n <= |list| && AllDone(job, v, t, list, n) && Seated(t.home, list, id)
    requires id in v.slots && v.slots[id].Size() < job.vert
    ensures AllSpent(job.skip, v.buf, list, n)
  {
  }

  lemma ServedNext(job: Job, s: Start, v: State, t: Trace, w: State, u: Trace, id: SlotId, list: seq<AccountId>, n: nat, capacity: nat)
    requires ServedAt(job, s, v, t, id) && id in w.slots && Grows(v, t, w, u) && Onward(v, t, w, u, id)
    requires n < |list| && AllDone(job, v, t, list, n) && Listed(s, t, id, list) && Fed(t, u, list[n], capacity)
    requires capacity == job.vert - v.slots[id].Size()
    ensures ServedAt(job, s, w, u, id)
  {
    if capacity > 0 {
      DoneIsSpent(job, v, t, id, list, n);
    }
    NextTurn(job.skip, s.state.slots[id].accounts, s.home, id, v, t, w, u, list, n, capacity);
  }

  lemma ToppedUpNext(job: Job, s: Start, v: State, t: Trace, cx: SlotContext, accounts: seq<AccountId>, list: seq<AccountId>, n: nat,
                     v1: State, t1: Trace, cx1: SlotContext, v': State, t': Trace, cx': SlotContext)
    requires ToppedUp(job, s, v, t, cx, accounts, list, n, v1, t1, cx1) && n < |list|
    requires Local(job, s, v1, t1, cx1, v', t', cx', accounts)
    requires Done(job.skip, job.vert, v', t', list[n]) && Fed(t1, t', list[n], cx1.capacity)
    ensures ToppedUp(job, s, v, t, cx, accounts, list, n + 1, v', t', cx')
  {
    LocalThen(job, s, v, t, cx, v1, t1, cx1, v', t', cx', accounts, accounts);
    AllDoneNext(job, v1, t1, v', t', list, n);
    ServedNext(job, s, v1, t1, v', t', cx.id, list, n, cx1.capacity);
  }

  /** Tops a slot up with messages of the next account it holds. */
  method TopUpNext(job: Job, v1: State, cx1: SlotContext, list: seq<AccountId>, n: nat, ghost accounts: seq<AccountId>,
                   ghost s: Start, ghost v: State, ghost t: Trace, ghost cx: SlotContext, ghost t1: Trace)
    returns (v': State, cx': SlotContext, full: bool, ghost t': Trace)
    requires ToppedUp(job, s, v, t, cx, accounts, list, n, v1, t1, cx1) && n < |list|
    ensures ToppedUp(job, s, v, t, cx, accounts, list, n + 1, v', t', cx')
    ensures full ==> cx'.capacity == 0
  {
    var moved;
    v', cx', moved, t' := TopUpAccount(job, v1, cx1, list[n], accounts, s, t1);
    full := moved && cx'.capacity == 0;
    ToppedUpNext(job, s, v, t, cx, accounts, list, n, v1, t1, cx1, v', t', cx');
  }

  /** Tops a slot up with messages of the accounts it holds already. */
  method TopUp(job: Job, v: State, cx: SlotContext, ghost accounts: seq<AccountId>, ghost s: Start, ghost t: Trace)
    returns (v': State, cx': SlotContext, ghost t': Trace, ghost n: nat)
    requires Fills(job, s, v, t, accounts) && ContextOf(cx, v, job.vert) && ServedAt(job, s, v, t, cx.id)
    ensures ToppedUp(job, s, v, t, cx, accounts, v.slots[cx.id].accounts, n, v', t', cx')
    ensures cx'.capacity == 0 || n == |v.slots[cx.id].accounts|
  {
    v', cx', t', n := v, cx, t, 0;
    var list := v.slots[cx.id].accounts;
    ToppedUpStart(job, s, v, t, cx, accounts);
    for i := 0 to |list|
      invariant n == i && ToppedUp(job, s, v, t, cx, accounts, list, n, v', t', cx')
    {
      var full;
      v', cx', full, t' := TopUpNext(job, v', cx', list, i, accounts, s, v, t, cx, t');
      n := i + 1;
      if full {
        return;
      }
    }
  }

  /** Slot `id` is full, or nothing that could go into it is left. */
  ghost predicate Finished(job: Job, s: Start, v: State, t: Trace, rest: seq<AccountId>, id: SlotId) {
    && id in v.slots
    && (v.slots[id].Size() >= job.vert
        || (rest == [] && forall a :: a in s.home && s.home[a] == id ==> Done(job.skip, job.vert, v, t, a)))
  }

  lemma FinishedStable(job: Job, s: Start, v: State, t: Trace, rest: seq<AccountId>,
                       w: State, u: Trace, rest': seq<AccountId>, id: SlotId)
    requires Finished(job, s, v, t, rest, id) && Grows(v, t, w, u) && |rest'| <= |rest|
    ensures Finished(job, s, w, u, rest', id)
  {
    if v.slots[id].Size() < job.vert {
      forall a | a in s.home && s.home[a] == id ensures Done(job.skip, job.vert, w, u, a) {
        DoneStable(job.skip, job.vert, v, t, w, u, a);
      }
    }
  }

  lemma ResidentsListed(job: Job, s: Start, v: State, t: Trace, accounts: seq<AccountId>, id: SlotId, a: AccountId)
    requires Fills(job, s, v, t, accounts) && SameHome(s, t) && a in s.home && s.home[a] == id
    ensures id in v.slots && a in v.slots[id].accounts
  {
  }

  /** The accounts that were in the slot from the start are done and stay so. */
  lemma DryIsFinished(job: Job, s: Start, v: State, t: Trace, w: State, u: Trace, v': State, t': Trace,
                      accounts: seq<AccountId>, id: SlotId)
    requires Fills(job, s, v, t, accounts) && SameHome(s, t) && id in v.slots && id in v'.slots
    requires AllDone(job, w, u, v.slots[id].accounts, |v.slots[id].accounts|) && Grows(w, u, v', t')
    ensures Finished(job, s, v', t', [], id)
  {
    var list := v.slots[id].accounts;
    forall a | a in s.home && s.home[a] == id ensures Done(job.skip, job.vert, v', t', a) {
      ResidentsListed(job, s, v, t, accounts, id, a);
      var i :| 0 <= i < |list| && list[i] == a;
      DoneStable(job.skip, job.vert, w, u, v', t', list[i]);
    }
  }

  /** Once its accounts are spent, others may join the slot. */
  lemma ServedDry(job: Job, s: Start, v: State, t: Trace, w: State, u: Trace, id: SlotId, list: seq<AccountId>)
    requires ServedAt(job, s, v, t, id) && id in w.slots && Grows(v, t, w, u) && Onward(v, t, w, u, id)
    requires Extends(s.state.slots[id].accounts, list) && AllSpent(job.skip, v.buf, list, |list|)
    ensures ServedAt(job, s, w, u, id)
  {
    var accounts := s.state.slots[id].accounts;
    forall i | 0 <= i < |accounts| ensures Spent(job.skip, w.buf, accounts[i]) {
      assert list[i] == accounts[i];
      SpentStays(job.skip, v, t, w, u, accounts[i]);
    }
    ExtendsThen(accounts, v.slots[id].accounts, w.slots[id].accounts);
    SpentTakesTurns(job.skip, accounts, s.home, id, w.buf, w.slots[id].accounts, u.home, u.log);
  }

  lemma FullIsFinished(job: Job, s: Start, v: State, t: Trace, rest: seq<AccountId>, cx: SlotContext)
    requires ContextOf(cx, v, job.vert) && cx.capacity == 0
    ensures Finished(job, s, v, t, rest, cx.id)
  {
  }

  /** Slot `id` was filled from its own accounts, then from `accounts`. */
  ghost predicate SlotFilled(job: Job, s: Start, v: State, t: Trace, id: SlotId, accounts: seq<AccountId>,
                             v': State, t': Trace, rest: seq<AccountId>)
  {
    && Fills(job, s, v', t', rest) && Grows(v, t, v', t') && |rest| <= |accounts|
    && OnlySlot(v.slots, v'.slots, id) && Onward(v, t, v', t', id)
    && Finished(job, s, v', t', rest, id)
    && ServedAt(job, s, v', t', id)
    && (accounts == [] ==> t'.home == t.home)
  }

  /** Nobody can join: the slot is full. */
  lemma FilledUp(job: Job, s: Start, v: State, t: Trace, cx: SlotContext, accounts: seq<AccountId>, list: seq<AccountId>,
                 n: nat, v': State, t': Trace, cx': SlotContext)
    requires ToppedUp(job, s, v, t, cx, accounts, list, n, v', t', cx') && cx'.capacity == 0
    ensures SlotFilled(job, s, v, t, cx.id, accounts, v', t', accounts)
  {
    FullIsFinished(job, s, v', t', accounts, cx');
  }

  /** Its accounts gave all they have. */
  lemma FilledDry(job: Job, s: Start, v: State, t: Trace, cx: SlotContext, accounts: seq<AccountId>, list: seq<AccountId>,
                  w: State, u: Trace, cy: SlotContext, v': State, t': Trace)
    requires ToppedUp(job, s, v, t, cx, accounts, list, |list|, w, u, cy) && cy.capacity > 0
    requires cx.id in v'.slots && Grows(w, u, v', t') && Onward(w, u, v', t', cx.id)
    ensures ServedAt(job, s, v', t', cx.id)
  {
    DoneIsSpent(job, w, u, cx.id, list, |list|);
    ServedDry(job, s, w, u, v', t', cx.id, list);
  }

  /** Then others joined. */
  lemma FilledOn(job: Job, s: Start, v: State, t: Trace, cx: SlotContext, accounts: seq<AccountId>,
                 w: State, u: Trace, cy: SlotContext, v': State, t': Trace, cx': SlotContext, rest: seq<AccountId>)
    requires Local(job, s, v, t, cx, w, u, cy, accounts) && Local(job, s, w, u, cy, v', t', cx', rest)
    requires |rest| <= |accounts| && (accounts == [] ==> t'.home == t.home)
    requires ServedAt(job, s, v', t', cx.id) && Finished(job, s, v', t', rest, cx.id)
    ensures SlotFilled(job, s, v, t, cx.id, accounts, v', t', rest)
  {
    LocalThen(job, s, v, t, cx, w, u, cy, v', t', cx', accounts, rest);
  }

  lemma SpentFirst(job: Job, s: Start, v: State, t: Trace, cx: SlotContext, accounts: seq<AccountId>, list: seq<AccountId>,
                   w: State, u: Trace, cy: SlotContext, v': State, t': Trace, rest: seq<AccountId>)
    requires Fills(job, s, v, t, accounts) && SameHome(s, t) && cx.id in v.slots && list == v.slots[cx.id].accounts
    requires ToppedUp(job, s, v, t, cx, accounts, list, |list|, w, u, cy) && rest == []
    requires Grows(w, u, v', t') && cx.id in v'.slots
    ensures Finished(job, s, v', t', rest, cx.id)
  {
    DryIsFinished(job, s, v, t, w, u, v', t', accounts, cx.id);
  }

  /** What offering the slot to others gives, whether or not it is full then. */
  lemma OthersTook(job: Job, s: Start, w: State, u: Trace, cy: SlotContext, accounts: seq<AccountId>,
                   v': State, t': Trace, cx': SlotContext, rest: seq<AccountId>, stopped: bool)
    requires if stopped then Taken(job, s, w, u, cy, accounts, false, v', t', cx', rest)
             else rest == [] && Taking(job, s, w, u, cy, accounts, false, v', t', cx', rest)
    ensures Local(job, s, w, u, cy, v', t', cx', rest) && |rest| <= |accounts|
    ensures accounts == [] ==> t'.home == u.home
    ensures stopped ==> Finished(job, s, v', t', rest, cy.id)
  {
    if stopped {
      FullIsFinished(job, s, v', t', rest, cx');
    }
  }

  /** Fills a slot whose own accounts gave all they have. */
  method FillFromOthers(job: Job, w: State, cy: SlotContext, accounts: seq<AccountId>, ghost s: Start, ghost u: Trace)
    returns (v': State, rest: seq<AccountId>, stopped: bool, ghost t': Trace, ghost cx': SlotContext)
    requires Fills(job, s, w, u, accounts) && ContextOf(cy, w, job.vert) && cy.capacity > 0
    ensures Local(job, s, w, u, cy, v', t', cx', rest) && |rest| <= |accounts|
    ensures accounts == [] ==> t'.home == u.home
    ensures if stopped then Finished(job, s, v', t', rest, cy.id) else rest == []
  {
    var c;
    v', c, rest, stopped, t' := TakeOthers(job, w, cy, accounts, false, s, u);
    OthersTook(job, s, w, u, cy, accounts, v', t', c, rest, stopped);
    cx' := c;
  }

  /** Fills slot `id` from its own accounts, then from accounts in no slot. */
  method FillSlot(job: Job, v: State, id: SlotId, accounts: seq<AccountId>, ghost s: Start, ghost t: Trace)
    returns (v': State, rest: seq<AccountId>, ghost t': Trace)
    requires Fills(job, s, v, t, accounts)
    requires id in v.slots && v.slots[id].Size() <= job.vert
    requires SameHome(s, t) && ServedAt(job, s, v, t, id)
    ensures SlotFilled(job, s, v, t, id, accounts, v', t', rest)
  {
    var cx := Pick(v, id, job.vert);
    ghost var c0, list := cx, v.slots[id].accounts;
    ghost var n;
    v', cx, t', n := TopUp(job, v, cx, accounts, s, t);
    rest := accounts;
    // no room left for other accounts
    if cx.capacity == 0 {
      FilledUp(job, s, v, t, c0, accounts, list, n, v', t', cx);
      return;
    }
    ghost var w, u, cy, c := v', t', cx, cx;
    var stopped;
    v', rest, stopped, t', c := FillFromOthers(job, v', cx, accounts, s, t');
    if !stopped {
      SpentFirst(job, s, v, t, c0, accounts, list, w, u, cy, v', t', rest);
    }
    FilledDry(job, s, v, t, c0, accounts, list, w, u, cy, v', t');
    FilledOn(job, s, v, t, c0, accounts, w, u, cy, v', t', c, rest);
  }

  /** Ids listed below `vert` are slots of the start that fit. */
  ghost predicate Ready(index: SlotIndex, slots: SlotMap, vert: nat) {
    forall c, id :: c in index && id in index[c] && c < vert ==> id in slots && slots[id].Size() <= vert
  }

  /** Every slot the index lists under a size below `n` is finished. */
  ghost predicate Swept(job: Job, s: Start, v: State, t: Trace, rest: seq<AccountId>, ids: set<SlotId>) {
    forall id :: id in ids ==> Finished(job, s, v, t, rest, id)
  }

  lemma SweptNext(job: Job, s: Start, v: State, t: Trace, rest: seq<AccountId>, ids: set<SlotId>,
                  w: State, u: Trace, rest': seq<AccountId>, id: SlotId)
    requires Swept(job, s, v, t, rest, ids) && Grows(v, t, w, u) && |rest'| <= |rest|
    requires Finished(job, s, w, u, rest', id)
    ensures Swept(job, s, w, u, rest', ids + {id})
  {
    forall i | i in ids ensures Finished(job, s, w, u, rest', i) {
      FinishedStable(job, s, v, t, rest, w, u, rest', i);
    }
  }

  lemma ReadyStays(vert: nat, slots0: SlotMap, slots: SlotMap, updates: map<SlotId, Update>, id: SlotId)
    requires Tracked(slots0, slots, updates) && Within(vert, slots0, slots)
    requires id in slots0 && slots0[id].Size() <= vert
    ensures id in slots && slots[id].Size() <= vert
  {
  }

  lemma ReadySlot(job: Job, s: Start, v: State, t: Trace, accounts: seq<AccountId>, id: SlotId)
    requires Fills(job, s, v, t, accounts) && id in s.state.slots && s.state.slots[id].Size() <= job.vert
    ensures id in v.slots && v.slots[id].Size() <= job.vert
  {
    ReadyStays(job.vert, s.state.slots, v.slots, v.updates, id);
  }

  ghost predicate SameHome(s: Start, t: Trace) {
    forall a :: a in s.home ==> a in t.home && t.home[a] == s.home[a]
  }

  lemma SameHomeGrows(s: Start, v: State, t: Trace, w: State, u: Trace)
    requires SameHome(s, t) && Grows(v, t, w, u)
    ensures SameHome(s, u)
  {
  }

  /** Slots opened by phase 1 are not touched by phase 2. */
  ghost predicate SameNew(s: Start, v: State, v': State) {
    forall id :: id in v.slots && id !in s.state.slots ==> id in v'.slots && v'.slots[id] == v.slots[id]
  }

  /** Accounts of old slots took turns, and slots were served in the order of the index. */
  ghost predicate Served(job: Job, s: Start, index: SlotIndex, v: State, t: Trace) {
    && (forall id {:trigger ServedAt(job, s, v, t, id)} :: id in s.state.slots ==> ServedAt(job, s, v, t, id))
    && InListOrder(index, s.state.slots, s.home, job.vert, v.slots, t.home)
  }

  /** Phase 2 so far: from state `v` and worklist `accounts` to `v'` and `rest`, with the slots in `swept` finished. */
  ghost predicate Phase2At(job: Job, s: Start, index: SlotIndex, v: State, t: Trace, accounts: seq<AccountId>,
                           v': State, t': Trace, rest: seq<AccountId>, swept: set<SlotId>)
  {
    && Fills(job, s, v', t', rest) && SameHome(s, t') && Grows(v, t, v', t') && |rest| <= |accounts|
    && v'.slots.Keys == v.slots.Keys && SameNew(s, v, v')
    && Swept(job, s, v', t', rest, swept)
    && Served(job, s, index, v', t')
    && (accounts == [] ==> t'.home == t.home)
  }

  /** Who sat where at the start. */
  ghost predicate Residents(s: Start) {
    forall id {:trigger Seated(s.home, s.state.slots[id].accounts, id)} :: id in s.state.slots ==>
      Seated(s.home, s.state.slots[id].accounts, id)
  }

  lemma StartResidents(s: Start)
    requires Homed(s.state.grp, s.state.slots, s.home)
    ensures Residents(s)
  {
    forall id | id in s.state.slots ensures Seated(s.home, s.state.slots[id].accounts, id) {
      HomedIsSeated(s.state.grp, s.state.slots, s.home, id);
    }
  }

  lemma HomedIsSeated(grp: Queues, slots: SlotMap, home: map<AccountId, SlotId>, id: SlotId)
    requires Homed(grp, slots, home) && id in slots
    ensures Seated(home, slots[id].accounts, id)
  {
    var list := slots[id].accounts;
    forall i | 0 <= i < |list| ensures list[i] in home && home[list[i]] == id {
      assert list[i] in slots[id].accounts;
    }
  }

  lemma Phase2Start(job: Job, s: Start, index: SlotIndex, v: State, t: Trace, accounts: seq<AccountId>)
    requires Fills(job, s, v, t, accounts) && Apart(s.state.slots, s.home, v, t) && Residents(s)
    ensures Phase2At(job, s, index, v, t, accounts, v, t, accounts, {})
  {
    StartGrows(v, t);
    StartServed(job, s, index, v, t);
  }

  lemma StartServed(job: Job, s: Start, index: SlotIndex, v: State, t: Trace)
    requires Apart(s.state.slots, s.home, v, t) && Residents(s)
    ensures Served(job, s, index, v, t)
  {
    forall id | id in s.state.slots ensures ServedAt(job, s, v, t, id) {
      ApartServed(job, s, v, t, id);
    }
  }

  lemma ApartServed(job: Job, s: Start, v: State, t: Trace, id: SlotId)
    requires Apart(s.state.slots, s.home, v, t) && Residents(s) && id in s.state.slots
    ensures ServedAt(job, s, v, t, id)
  {
    var accounts := s.state.slots[id].accounts;
    assert Seated(s.home, accounts, id);
  }

  /** While somebody is left to join, all slots listed so far are full. */
  lemma SweptIsFull(job: Job, s: Start, index: SlotIndex, v: State, t: Trace, rest: seq<AccountId>, swept: set<SlotId>, c: nat, i: nat)
    requires Swept(job, s, v, t, rest, swept) && SweptBelow(index, c, swept) && rest != []
    requires c in index && i < |index[c]| && Includes(index[c], i, swept)
    ensures FullBefore(index, v.slots, job.vert, c, i)
  {
    forall d, j | d in index && 0 <= j < |index[d]| && (d < c || (d == c && j < i))
      ensures index[d][j] in v.slots && v.slots[index[d][j]].Size() >= job.vert
    {
      if d < c {
        assert Includes(index[d], |index[d]|, swept);
      }
      assert Finished(job, s, v, t, rest, index[d][j]);
    }
  }

  lemma StaySeated(s: Start, t: Trace, x: SlotId)
    requires Residents(s) && SameHome(s, t) && x in s.state.slots
    ensures Seated(t.home, s.state.slots[x].accounts, x)
  {
    assert Seated(s.home, s.state.slots[x].accounts, x);
  }

  /** Slot `id` was filled: for the other slots nothing changes. */
  lemma ServedOther(job: Job, s: Start, v: State, t: Trace, v': State, t': Trace, id: SlotId, x: SlotId)
    requires SameHome(s, t) && Residents(s)
    requires Grows(v, t, v', t') && OnlySlot(v.slots, v'.slots, id) && Onward(v, t, v', t', id)
    requires ServedAt(job, s, v, t, x) && x != id
    ensures ServedAt(job, s, v', t', x)
  {
    StaySeated(s, t, x);
    OtherTurn(job.skip, s.state.slots[x].accounts, s.home, x, v, t, v', t', id);
  }

  lemma ServedStep(job: Job, s: Start, index: SlotIndex, v: State, t: Trace, accounts: seq<AccountId>, swept: set<SlotId>,
                   c: nat, i: nat, v': State, t': Trace, rest: seq<AccountId>)
    requires SameHome(s, t) && Residents(s)
    requires Served(job, s, index, v, t) && Swept(job, s, v, t, accounts, swept) && SweptBelow(index, c, swept)
    requires c in index && c < job.vert && i < |index[c]| && Includes(index[c], i, swept)
    requires SlotFilled(job, s, v, t, index[c][i], accounts, v', t', rest)
    ensures Served(job, s, index, v', t')
  {
    var id := index[c][i];
    forall x | x in s.state.slots ensures ServedAt(job, s, v', t', x) {
      assert ServedAt(job, s, v, t, x);
      if x != id {
        ServedOther(job, s, v, t, v', t', id, x);
      }
    }
    if accounts != [] {
      SweptIsFull(job, s, index, v, t, accounts, swept, c, i);
    }
    ListOrderStep(index, s.state.slots, s.home, job.vert, v, t, v', t', id, c, i);
  }

  lemma Phase2Next(job: Job, s: Start, index: SlotIndex, v: State, t: Trace, accounts: seq<AccountId>,
                   v1: State, t1: Trace, rest1: seq<AccountId>, swept: set<SlotId>,
                   v': State, t': Trace, rest: seq<AccountId>, id: SlotId)
    requires Phase2At(job, s, index, v, t, accounts, v1, t1, rest1, swept) && id in s.state.slots
    requires SlotFilled(job, s, v1, t1, id, rest1, v', t', rest) && Served(job, s, index, v', t')
    ensures Phase2At(job, s, index, v, t, accounts, v', t', rest, swept + {id})
  {
    GrowsTransitive(v, t, v1, t1, v', t');
    SameHomeGrows(s, v1, t1, v', t');
    SweptNext(job, s, v1, t1, rest1, swept, v', t', rest, id);
  }

  /** The slots listed before place (c, i) of the index are finished. */
  ghost predicate SweptTo(index: SlotIndex, vert: nat, c: nat, i: nat, swept: set<SlotId>) {
    && c in index && c < vert && i <= |index[c]|
    && SweptBelow(index, c, swept) && Includes(index[c], i, swept)
  }

  lemma SweptToNext(index: SlotIndex, vert: nat, c: nat, i: nat, swept: set<SlotId>)
    requires SweptTo(index, vert, c, i, swept) && i < |index[c]|
    ensures SweptTo(index, vert, c, i + 1, swept + {index[c][i]})
  {
    SweptMore(index, c, swept, swept + {index[c][i]});
    IncludesNext(index[c], i, swept);
  }

  lemma SweptMore(index: SlotIndex, n: nat, swept: set<SlotId>, swept': set<SlotId>)
    requires SweptBelow(index, n, swept) && swept <= swept'
    ensures SweptBelow(index, n, swept')
  {
    forall c | 0 <= c < n && c in index ensures Includes(index[c], |index[c]|, swept') {
      assert Includes(index[c], |index[c]|, swept);
    }
  }

  lemma ServedOf(job: Job, s: Start, index: SlotIndex, v: State, t: Trace, id: SlotId)
    requires Served(job, s, index, v, t) && id in s.state.slots
    ensures ServedAt(job, s, v, t, id)
  {
  }

  lemma ReadyId(index: SlotIndex, slots: SlotMap, vert: nat, c: nat, i: nat)
    requires Ready(index, slots, vert) && c in index && c < vert && i < |index[c]|
    ensures index[c][i] in slots && slots[index[c][i]].Size() <= vert
  {
    assert index[c][i] in index[c];
  }

  lemma Phase2Serve(job: Job, s: Start, index: SlotIndex, v: State, t: Trace, accounts: seq<AccountId>,
                    v1: State, t1: Trace, rest1: seq<AccountId>, swept: set<SlotId>, c: nat, i: nat,
                    v': State, t': Trace, rest: seq<AccountId>)
    requires Residents(s) && Phase2At(job, s, index, v, t, accounts, v1, t1, rest1, swept)
    requires SweptTo(index, job.vert, c, i, swept) && i < |index[c]| && index[c][i] in s.state.slots
    requires SlotFilled(job, s, v1, t1, index[c][i], rest1, v', t', rest)
    ensures Phase2At(job, s, index, v, t, accounts, v', t', rest, swept + {index[c][i]})
  {
    ServedStep(job, s, index, v1, t1, rest1, swept, c, i, v', t', rest);
    Phase2Next(job, s, index, v, t, accounts, v1, t1, rest1, swept, v', t', rest, index[c][i]);
  }

  /** Visits the slot at place (c, i) of the index. */
  method Phase2Step(job: Job, v1: State, index: SlotIndex, c: nat, i: nat, rest1: seq<AccountId>, ghost s: Start, ghost t1: Trace,
                    ghost v: State, ghost t: Trace, ghost accounts: seq<AccountId>, ghost swept: set<SlotId>)
    returns (v': State, rest: seq<AccountId>, ghost t': Trace)
    requires Ready(index, s.state.slots, job.vert) && Residents(s)
    requires Phase2At(job, s, index, v, t, accounts, v1, t1, rest1, swept)
    requires SweptTo(index, job.vert, c, i, swept) && i < |index[c]|
    ensures Phase2At(job, s, index, v, t, accounts, v', t', rest, swept + {index[c][i]})
  {
    ReadyId(index, s.state.slots, job.vert, c, i);
    ReadySlot(job, s, v1, t1, rest1, index[c][i]);
    ServedOf(job, s, index, v1, t1, index[c][i]);
    v', rest, t' := FillSlot(job, v1, index[c][i], rest1, s, t1);
    Phase2Serve(job, s, index, v, t, accounts, v1, t1, rest1, swept, c, i, v', t', rest);
  }

  /**
   * Phase 2: visits the slots the index lists below the limit, smallest size first.
   * The index is not updated meanwhile, so it lists no slot opened by phase 1.
   */
  method FillListedSlots(job: Job, v: State, index: SlotIndex, accounts: seq<AccountId>, ghost s: Start, ghost t: Trace)
    returns (v': State, rest: seq<AccountId>, ghost t': Trace, ghost swept: set<SlotId>)
    requires Ready(index, s.state.slots, job.vert) && Residents(s)
    requires Fills(job, s, v, t, accounts) && Apart(s.state.slots, s.home, v, t)
    ensures Phase2At(job, s, index, v, t, accounts, v', t', rest, swept)
    ensures SweptBelow(index, job.vert, swept)
  {
    v', rest, t', swept := v, accounts, t, {};
    Phase2Start(job, s, index, v, t, accounts);
    for c := 0 to job.vert
      invariant Phase2At(job, s, index, v, t, accounts, v', t', rest, swept)
      invariant SweptBelow(index, c, swept)
    {
      if c in index {
        v', rest, t', swept := FillBucket(job, v', index, c, rest, s, t', v, t, accounts, swept);
      }
      SweptBelowNext(index, c, swept);
    }
  }

  ghost predicate Includes(ids: seq<SlotId>, n: nat, swept: set<SlotId>)
    requires n <= |ids|
  {
    forall i :: 0 <= i < n ==> ids[i] in swept
  }

  lemma IncludesNext(ids: seq<SlotId>, n: nat, swept: set<SlotId>)
    requires n < |ids| && Includes(ids, n, swept)
    ensures Includes(ids, n + 1, swept + {ids[n]})
  {
  }

  /** Every listed size below `n` has all its ids in `swept`. */
  ghost predicate SweptBelow(index: SlotIndex, n: nat, swept: set<SlotId>) {
    forall c :: 0 <= c < n && c in index ==> Includes(index[c], |index[c]|, swept)
  }

  lemma SweptBelowNext(index: SlotIndex, n: nat, swept: set<SlotId>)
    requires SweptBelow(index, n, swept)
    requires n in index ==> Includes(index[n], |index[n]|, swept)
    ensures SweptBelow(index, n + 1, swept)
  {
  }

  method FillBucket(job: Job, v1: State, index: SlotIndex, c: nat, rest1: seq<AccountId>, ghost s: Start, ghost t1: Trace,
                    ghost v: State, ghost t: Trace, ghost accounts: seq<AccountId>, ghost swept: set<SlotId>)
    returns (v': State, rest: seq<AccountId>, ghost t': Trace, ghost swept': set<SlotId>)
    requires Ready(index, s.state.slots, job.vert) && Residents(s)
    requires Phase2At(job, s, index, v, t, accounts, v1, t1, rest1, swept) && SweptTo(index, job.vert, c, 0, swept)
    ensures Phase2At(job, s, index, v, t, accounts, v', t', rest, swept') && SweptTo(index, job.vert, c, |index[c]|, swept')
  {
    v', rest, t', swept' := v1, rest1, t1, swept;
    for i := 0 to |index[c]|
      invariant Phase2At(job, s, index, v, t, accounts, v', t', rest, swept') && SweptTo(index, job.vert, c, i, swept')
    {
      v', rest, t' := Phase2Step(job, v', index, c, i, rest, s, t', v, t, accounts, swept');
      SweptToNext(index, job.vert, c, i, swept');
      swept' := swept' + {index[c][i]};
    }
  }

  // --- phase 1 ---

  function WithSlots(v: State, slots: SlotMap): State {
    State(v.buf, v.ints, v.exts, v.grp, slots, v.updates, v.keys, v.skipped)
  }

  function Opened(v: State, id: SlotId): State {
    WithSlots(v, v.slots[id := Slot([], 0, 0)])
  }

  function Closed(v: State, id: SlotId): State {
    WithSlots(v, v.slots - {id})
  }

  lemma InvWithSlots(f: Filter, vert: nat, order: seq<AccountId>, v0: State, v: State, t: Trace, slots: SlotMap)
    requires Inv(f, vert, order, v0, v, t)
    requires Packed(v.grp, slots, t.home) && Tracked(v0.slots, slots, v.updates) && Within(vert, v0.slots, slots)
    ensures Inv(f, vert, order, v0, WithSlots(v, slots), t)
  {
    var w := WithSlots(v, slots);
    assert Flow(f, v0, w, t.log);
    assert Balanced(order, v0, w, t.log);
  }

  lemma PendingWithSlots(home0: map<AccountId, SlotId>, v: State, t: Trace, accounts: seq<AccountId>, slots: SlotMap)
    requires Pending(home0, v, t, accounts)
    ensures Pending(home0, WithSlots(v, slots), t, accounts)
  {
  }

  lemma TreatsWithSlots(job: Job, order: seq<AccountId>, home0: map<AccountId, SlotId>, v: State, t: Trace,
                        accounts: seq<AccountId>, slots: SlotMap)
    requires Treats(job, order, home0, v, t, accounts)
    ensures Treats(job, order, home0, WithSlots(v, slots), t, accounts)
  {
    TreatsStep(job, order, home0, v, t, WithSlots(v, slots), t, accounts);
  }

  lemma OpenHomed(grp: Queues, slots: SlotMap, home: map<AccountId, SlotId>, id: SlotId)
    requires Homed(grp, slots, home) && id !in slots
    ensures Homed(grp, slots[id := Slot([], 0, 0)], home)
  {
  }

  lemma OpenLoaded(grp: Queues, slots: SlotMap, id: SlotId)
    requires Loaded(grp, slots) && id !in slots
    ensures Loaded(grp, slots[id := Slot([], 0, 0)])
  {
    assert SlotLoaded(grp, Slot([], 0, 0));
  }

  lemma OpenPacked(grp: Queues, slots: SlotMap, home: map<AccountId, SlotId>, id: SlotId)
    requires Packed(grp, slots, home) && id !in slots
    ensures Packed(grp, slots[id := Slot([], 0, 0)], home)
  {
    OpenHomed(grp, slots, home, id);
    OpenLoaded(grp, slots, id);
  }

  lemma OpenTracked(vert: nat, slots0: SlotMap, slots: SlotMap, updates: map<SlotId, Update>, id: SlotId)
    requires Tracked(slots0, slots, updates) && Within(vert, slots0, slots) && id !in slots
    ensures Tracked(slots0, slots[id := Slot([], 0, 0)], updates)
    ensures Within(vert, slots0, slots[id := Slot([], 0, 0)])
  {
    var after := slots[id := Slot([], 0, 0)];
    forall i | i in updates ensures i in after && Records(updates[i], slots0, after, i) {
      assert Records(updates[i], slots0, slots, i);
    }
  }

  lemma OpenKeeps(job: Job, s: Start, v: State, t: Trace, accounts: seq<AccountId>, id: SlotId)
    requires Fills(job, s, v, t, accounts) && id !in v.slots
    ensures Fills(job, s, Opened(v, id), t, accounts)
    ensures Grows(v, t, Opened(v, id), t)
  {
    OpenPacked(v.grp, v.slots, t.home, id);
    OpenTracked(job.vert, s.state.slots, v.slots, v.updates, id);
    InvWithSlots(job.filter, job.vert, s.order, s.state, v, t, v.slots[id := Slot([], 0, 0)]);
    PendingWithSlots(s.home, v, t, accounts, v.slots[id := Slot([], 0, 0)]);
    TreatsWithSlots(job, s.order, s.home, v, t, accounts, v.slots[id := Slot([], 0, 0)]);
    OpenGrows(v, t, id);
    SettledStep(job, s.home, v, t, Opened(v, id), t, accounts, accounts);
  }

  lemma OpenGrows(v: State, t: Trace, id: SlotId)
    requires id !in v.slots
    ensures Grows(v, t, Opened(v, id), t)
  {
  }

  lemma {:induction false} AccountsCounted(accounts: seq<AccountId>, q: Queues)
    requires forall a :: a in accounts ==> Get(q, a) != []
    ensures |accounts| <= TotalLen(accounts, q)
  {
    if accounts != [] {
      assert accounts[0] in accounts;
      AccountsCounted(accounts[1..], q);
    }
  }

  /** A slot that counts no message holds no account. */
  lemma EmptySlot(grp: Queues, slots: SlotMap, home: map<AccountId, SlotId>, id: SlotId)
    requires Packed(grp, slots, home) && id in slots && slots[id].Size() == 0
    ensures slots[id].accounts == []
  {
    assert SlotLoaded(grp, slots[id]);
    AccountsCounted(slots[id].accounts, grp);
  }

  lemma CloseHomed(grp: Queues, slots: SlotMap, home: map<AccountId, SlotId>, id: SlotId)
    requires Homed(grp, slots, home) && id in slots && slots[id].accounts == []
    ensures Homed(grp, slots - {id}, home)
    ensures forall a :: a in home ==> home[a] != id
  {
  }

  lemma ClosePacked(grp: Queues, slots: SlotMap, home: map<AccountId, SlotId>, id: SlotId)
    requires Packed(grp, slots, home) && id in slots && slots[id].Size() == 0
    ensures Packed(grp, slots - {id}, home)
    ensures forall a :: a in home ==> home[a] != id
  {
    EmptySlot(grp, slots, home, id);
    CloseHomed(grp, slots, home, id);
  }

  lemma CloseTracked(vert: nat, slots0: SlotMap, slots: SlotMap, updates: map<SlotId, Update>, id: SlotId)
    requires Tracked(slots0, slots, updates) && Within(vert, slots0, slots)
    requires id in slots && id !in slots0 && slots[id].Size() == 0
    ensures Tracked(slots0, slots - {id}, updates)
    ensures Within(vert, slots0, slots - {id})
  {
    forall i | i in updates ensures i != id && i in slots - {id} && Records(updates[i], slots0, slots - {id}, i) {
      assert Records(updates[i], slots0, slots, i);
    }
  }

  lemma CloseSettled(job: Job, home0: map<AccountId, SlotId>, v: State, t: Trace, accounts: seq<AccountId>, id: SlotId)
    requires Settled(job, home0, v, t, accounts)
    requires forall a :: a in t.home ==> t.home[a] != id
    ensures Settled(job, home0, Closed(v, id), t, accounts)
  {
    if job.vert > 0 {
      forall a | a in v.buf && a !in accounts ensures a in home0 || Done(job.skip, job.vert, Closed(v, id), t, a) {
        if a !in home0 {
          assert Done(job.skip, job.vert, v, t, a);
        }
      }
    }
  }

  lemma CloseKeeps(job: Job, s: Start, v: State, t: Trace, accounts: seq<AccountId>, id: SlotId)
    requires Fills(job, s, v, t, accounts)
    requires id in v.slots && id !in s.state.slots && v.slots[id].Size() == 0
    ensures Fills(job, s, Closed(v, id), t, accounts)
  {
    ClosePacked(v.grp, v.slots, t.home, id);
    CloseTracked(job.vert, s.state.slots, v.slots, v.updates, id);
    InvWithSlots(job.filter, job.vert, s.order, s.state, v, t, v.slots - {id});
    PendingWithSlots(s.home, v, t, accounts, v.slots - {id});
    TreatsWithSlots(job, s.order, s.home, v, t, accounts, v.slots - {id});
    CloseSettled(job, s.home, v, t, accounts, id);
  }

  lemma CloseGrows(v: State, t: Trace, w: State, u: Trace, id: SlotId)
    requires Grows(v, t, w, u) && id !in v.slots
    ensures Grows(v, t, Closed(w, id), u)
  {
  }

  /** Slot `id` was opened if needed and offered to the worklist. */
  ghost predicate NextFilled(job: Job, s: Start, v: State, t: Trace, id: SlotId, accounts: seq<AccountId>,
                             v': State, t': Trace, rest: seq<AccountId>, stopped: bool)
  {
    && Fills(job, s, v', t', rest) && Grows(v, t, v', t') && Onward(v, t, v', t', id)
    && SlotStep(v, v', id) && 0 <= v'.slots[id].Size() <= job.vert
    && |rest| <= |accounts| && (!stopped ==> rest == [])
    && (stopped ==> |rest| < |accounts| && v'.slots[id].Size() > 0)
    && OneMore(s.calm, v.slots, v'.slots, id, stopped)
  }

  /** The slot as it is when it is offered. */
  function Ensured(v: State, id: SlotId): State {
    if id in v.slots then v else Opened(v, id)
  }

  lemma EnsuredStep(v: State, t: Trace, w: State, v': State, t': Trace, id: SlotId, calm: bool, stopped: bool)
    requires w == Ensured(v, id) && Grows(w, t, v', t') && Onward(w, t, v', t', id) && OnlySlot(w.slots, v'.slots, id)
    requires Joins(calm, w.slots, v'.slots, id, stopped)
    ensures Grows(v, t, v', t') && Onward(v, t, v', t', id) && SlotStep(v, v', id)
    ensures OneMore(calm, v.slots, v'.slots, id, stopped)
  {
    if id !in v.slots {
      OpenGrows(v, t, id);
      GrowsTransitive(v, t, w, t, v', t');
      OpenStep(v, v', id);
    } else {
      SameStep(v, v', id);
    }
  }

  lemma Offered(job: Job, s: Start, v: State, t: Trace, cx: SlotContext, accounts: seq<AccountId>,
                v': State, t': Trace, cx': SlotContext, rest: seq<AccountId>, stopped: bool)
    requires stopped ==> Taken(job, s, v, t, cx, accounts, true, v', t', cx', rest)
    requires !stopped ==> rest == [] && Taking(job, s, v, t, cx, accounts, true, v', t', cx', rest)
    requires cx.id in v.slots
    ensures Local(job, s, v, t, cx, v', t', cx', rest)
    ensures Joins(s.calm, v.slots, v'.slots, cx.id, stopped)
    ensures |rest| <= |accounts| && (stopped ==> |rest| < |accounts| && v'.slots[cx.id].Size() > 0)
  {
  }

  /** Picks slot `id`, opening it if needed, and feeds it until one more account went in. */
  method FillNextSlot(job: Job, v: State, id: SlotId, accounts: seq<AccountId>, ghost s: Start, ghost t: Trace)
    returns (v': State, rest: seq<AccountId>, stopped: bool, ghost t': Trace)
    requires Fills(job, s, v, t, accounts)
    requires id in v.slots ==> v.slots[id].Size() < job.vert
    ensures NextFilled(job, s, v, t, id, accounts, v', t', rest, stopped)
  {
    var w := Ensured(v, id);
    if id !in v.slots {
      OpenKeeps(job, s, v, t, accounts, id);
    }
    assert w.slots[id].Size() <= job.vert;
    var cx := Pick(w, id, job.vert);
    ghost var c0 := cx;
    v', cx, rest, stopped, t' := TakeOthers(job, w, cx, accounts, true, s, t);
    Offered(job, s, w, t, c0, accounts, v', t', cx, rest, stopped);
    EnsuredStep(v, t, w, v', t', id, s.calm, stopped);
    SlotCounts(job, s, v', t', rest, id);
  }

  ghost predicate SlotStep(v: State, v': State, id: SlotId) {
    && id in v'.slots
    && v'.slots.Keys == v.slots.Keys + {id}
    && (forall i :: i in v.slots && i != id ==> v'.slots[i] == v.slots[i])
  }

  lemma OpenStep(v: State, v': State, id: SlotId)
    requires id !in v.slots && OnlySlot(Opened(v, id).slots, v'.slots, id)
    ensures SlotStep(v, v', id)
  {
  }

  lemma SameStep(v: State, v': State, id: SlotId)
    requires id in v.slots && OnlySlot(v.slots, v'.slots, id)
    ensures SlotStep(v, v', id)
  {
  }

  lemma {:induction false} TotalIntsBound(accounts: seq<AccountId>, q: Queues)
    ensures TotalInts(accounts, q) <= TotalLen(accounts, q)
  {
    if accounts != [] {
      TotalIntsBound(accounts[1..], q);
      IntsBound(Get(q, accounts[0]));
    }
  }

  lemma SlotCounts(job: Job, s: Start, v: State, t: Trace, accounts: seq<AccountId>, id: SlotId)
    requires Fills(job, s, v, t, accounts) && id in v.slots
    ensures v.slots[id].intCount >= 0 && v.slots[id].extCount >= 0
  {
    assert SlotLoaded(v.grp, v.slots[id]);
    TotalIntsBound(v.slots[id].accounts, v.grp);
  }

  /** Slots waiting for another round: opened by this fill, used and not full. */
  ghost predicate Waiting(s: Start, v: State, vert: nat, queue: seq<SlotId>) {
    forall id :: id in queue ==> id in v.slots && id !in s.state.slots && 0 < v.slots[id].Size() < vert
  }

  /** Opened slots are full, unless they wait or the worklist ran out. */
  ghost predicate NewFull(s: Start, v: State, vert: nat, rest: seq<AccountId>, queue: seq<SlotId>) {
    rest == [] || forall id :: id in v.slots && id !in s.state.slots && id !in queue ==> v.slots[id].Size() >= vert
  }

  lemma StepCount(v: State, v': State, id: SlotId)
    requires SlotStep(v, v', id)
    ensures |v'.slots| == |v.slots| + if id in v.slots then 0 else 1
  {
    assert |v'.slots| == |v'.slots.Keys| && |v.slots| == |v.slots.Keys|;
    if id in v.slots {
      assert v.slots.Keys + {id} == v.slots.Keys;
    }
  }

  lemma StepWaiting(s: Start, v: State, v': State, vert: nat, queue: seq<SlotId>, id: SlotId)
    requires Waiting(s, v, vert, queue) && SlotStep(v, v', id) && id !in queue
    ensures Waiting(s, v', vert, queue)
    ensures id !in s.state.slots && 0 < v'.slots[id].Size() < vert ==> Waiting(s, v', vert, queue + [id])
  {
  }

  lemma StepNewFull(s: Start, v: State, v': State, vert: nat, accounts: seq<AccountId>, rest: seq<AccountId>,
                    queue: seq<SlotId>, id: SlotId)
    requires NewFull(s, v, vert, accounts, [id] + queue) && SlotStep(v, v', id) && |rest| <= |accounts|
    ensures NewFull(s, v', vert, rest, queue + [id])
    ensures rest == [] || v'.slots[id].Size() >= vert ==> NewFull(s, v', vert, rest, queue)
  {
  }

  lemma CloseAgain(v: State, v': State, id: SlotId)
    requires SlotStep(v, v', id) && id !in v.slots
    ensures Closed(v', id).slots == v.slots
  {
    var w := Closed(v', id).slots;
    assert w.Keys == v.slots.Keys;
    assert forall i :: i in v.slots ==> w[i] == v.slots[i];
  }

  /** The id that is `n` after the last one handed out. */
  function LastBound(last: Option<SlotId>, n: nat): SlotId {
    (if last.Some? then last.value else 0) + n
  }

  /** New slots are numbered in turn from the last id on, no more than were missing; the id of a slot nobody could use is lost. */
  ghost predicate Numbering(slotsCount: nat, slots0: SlotMap, slots: SlotMap, last0: Option<SlotId>, last: Option<SlotId>) {
    var base := if last0.Some? then last0.value else 0;
    && |slots0| <= |slots|
    && (|slots0| < |slots| ==> |slots| <= slotsCount)
    && (forall id :: id in slots && id !in slots0 ==> base < id <= base + (|slots| - |slots0|))
    && (if slotsCount <= |slots0| then last == last0
        else last == Some(base + (|slots| - |slots0|) + if |slots| < slotsCount then 1 else 0))
  }

  /** Where phase 1 stands: slot to visit, slots still to open, slots to revisit, last id used. */
  datatype Cursor = Cursor(id: SlotId, remaining: nat, queue: seq<SlotId>, last: Option<SlotId>)

  /** Opened slots carry the ids next in turn; with `count` slots the last of them is `bound`. */
  ghost predicate NewIds(s: Start, v: State, count: nat, bound: nat) {
    && |s.state.slots| <= |v.slots| <= count
    && forall id :: id in v.slots && id !in s.state.slots ==>
         bound < id + (count - |s.state.slots|) && id + (count - |v.slots|) <= bound
  }

  /** Ids and numbers of slots: `cur.id` is the next new slot, or a waiting one once all are open. */
  ghost predicate Numbered(s: Start, v: State, vert: nat, cur: Cursor, count: nat, bound: nat) {
    && NoEmptySlot(v.slots)
    && NewIds(s, v, count, bound)
    && (cur.last.Some? ==> Below(v.slots, cur.last.value + 1))
    && (if cur.id in v.slots
        then && cur.remaining == 0 && |v.slots| == count
             && cur.id !in s.state.slots && v.slots[cur.id].Size() < vert
             && cur.last == Some(bound)
        else && OneEach(s.state.slots, v.slots)
             && Below(v.slots, cur.id) && |v.slots| + cur.remaining + 1 == count
             && cur.id + cur.remaining == bound
             && (cur.last.Some? ==> cur.last.value < cur.id))
  }

  ghost predicate Queued(s: Start, v: State, vert: nat, rest: seq<AccountId>, cur: Cursor) {
    && Waiting(s, v, vert, cur.queue)
    && Distinct(cur.queue)
    && cur.id !in cur.queue
    && NewFull(s, v, vert, rest, [cur.id] + cur.queue)
    && (s.calm ==> Leveled(s.state.slots, v.slots, vert, [cur.id] + cur.queue))
  }

  function Used(last: Option<SlotId>, id: SlotId): Option<SlotId> {
    Some(if last.Some? && last.value > id then last.value else id)
  }

  /** The visited slot got messages: it waits for another round if it is not full. */
  function Requeued(v: State, vert: nat, stopped: bool, cur: Cursor): seq<SlotId>
    requires cur.id in v.slots
  {
    if stopped && v.slots[cur.id].Size() < vert then cur.queue + [cur.id] else cur.queue
  }

  /** Nothing is being visited: used slots either wait or are full. */
  ghost predicate Between(s: Start, v: State, vert: nat, rest: seq<AccountId>, queue: seq<SlotId>) {
    && Waiting(s, v, vert, queue) && Distinct(queue) && NewFull(s, v, vert, rest, queue)
    && (s.calm ==> Leveled(s.state.slots, v.slots, vert, queue))
  }

  lemma VisitQueue(s: Start, v: State, v': State, vert: nat, accounts: seq<AccountId>, rest: seq<AccountId>,
                   stopped: bool, cur: Cursor)
    requires Queued(s, v, vert, accounts, cur) && SlotStep(v, v', cur.id) && |rest| <= |accounts|
    requires cur.id !in s.state.slots && v'.slots[cur.id].Size() > 0 && (!stopped ==> rest == [])
    requires OneMore(s.calm, v.slots, v'.slots, cur.id, stopped) && (stopped ==> accounts != [])
    ensures Between(s, v', vert, rest, Requeued(v', vert, stopped, cur))
  {
    StepWaiting(s, v, v', vert, cur.queue, cur.id);
    StepNewFull(s, v, v', vert, accounts, rest, cur.queue, cur.id);
    if s.calm {
      VisitLevel(s, v, v', vert, accounts, stopped, cur);
    }
  }

  lemma VisitLevel(s: Start, v: State, v': State, vert: nat, accounts: seq<AccountId>, stopped: bool, cur: Cursor)
    requires Queued(s, v, vert, accounts, cur) && SlotStep(v, v', cur.id) && s.calm && v'.slots[cur.id].Size() > 0
    requires OneMore(true, v.slots, v'.slots, cur.id, stopped) && (stopped ==> accounts != [])
    ensures Leveled(s.state.slots, v'.slots, vert, Requeued(v', vert, stopped, cur))
  {
    var list := [cur.id] + cur.queue;
    if stopped {
      LevelTurn(s.state.slots, v.slots, v'.slots, vert, cur.id, cur.queue);
      LevelFront(s.state.slots, v'.slots, vert, cur.queue + [cur.id]);
      assert (cur.queue + [cur.id])[..|cur.queue|] == cur.queue;
    } else {
      assert v'.slots == v.slots;
      LevelRest(s.state.slots, v.slots, vert, list);
      assert list[1..] == cur.queue;
    }
  }

  ghost predicate Visited(s: Start, v: State, cur: Cursor, last: SlotId, count: nat, bound: nat) {
    && NoEmptySlot(v.slots)
    && NewIds(s, v, count, bound)
    && Below(v.slots, last + 1)
    && cur.id <= last
    && |v.slots| + cur.remaining == count
    && last + cur.remaining == bound
    && (cur.remaining > 0 ==> last == cur.id && OneEach(s.state.slots, v.slots))
  }

  lemma NextNew(s: Start, v: State, vert: nat, rest: seq<AccountId>, queue: seq<SlotId>, cur: Cursor,
                last: SlotId, count: nat, bound: nat)
    requires Between(s, v, vert, rest, queue) && Visited(s, v, cur, last, count, bound) && cur.remaining > 0
    ensures Numbered(s, v, vert, Cursor(cur.id + 1, cur.remaining - 1, queue, Some(last)), count, bound)
    ensures Queued(s, v, vert, rest, Cursor(cur.id + 1, cur.remaining - 1, queue, Some(last)))
  {
    assert cur.id + 1 !in v.slots;
    FirstLevel(s, v, vert, queue, cur.id + 1);
  }

  /** While slots are still opened each new one has one account and the next one none. */
  lemma FirstLevel(s: Start, v: State, vert: nat, queue: seq<SlotId>, id: SlotId)
    requires OneEach(s.state.slots, v.slots) && Waiting(s, v, vert, queue) && id !in v.slots
    ensures Leveled(s.state.slots, v.slots, vert, [id] + queue)
  {
    var list := [id] + queue;
    forall i | 0 <= i < |list| ensures Joined(v.slots, list[i]) == if i == 0 then 0 else 1 {
      if i > 0 {
        assert list[i] == queue[i - 1] && queue[i - 1] in queue;
      }
    }
    assert Level(s.state.slots, v.slots, vert, list, 0);
  }

  lemma NextQueued(s: Start, v: State, vert: nat, rest: seq<AccountId>, queue: seq<SlotId>, cur: Cursor,
                   last: SlotId, count: nat, bound: nat)
    requires Between(s, v, vert, rest, queue) && Visited(s, v, cur, last, count, bound)
    requires cur.remaining == 0 && queue != []
    ensures Numbered(s, v, vert, Cursor(queue[0], 0, queue[1..], Some(last)), count, bound)
    ensures Queued(s, v, vert, rest, Cursor(queue[0], 0, queue[1..], Some(last)))
  {
    assert queue[0] in v.slots;
    assert [queue[0]] + queue[1..] == queue;
  }

  lemma VisitKeepsSlots(v: State, v': State, id: SlotId)
    requires SlotStep(v, v', id) && NoEmptySlot(v.slots) && v'.slots[id].Size() > 0
    ensures NoEmptySlot(v'.slots)
  {
  }

  lemma StepIds(s: Start, v: State, v': State, cur: Cursor, count: nat, bound: nat)
    requires NewIds(s, v, count, bound) && SlotStep(v, v', cur.id)
    requires cur.id !in v.slots ==> |v.slots| + cur.remaining + 1 == count && cur.id + cur.remaining == bound
    ensures NewIds(s, v', count, bound)
  {
    StepCount(v, v', cur.id);
  }

  lemma StepOneEach(slots0: SlotMap, v: State, v': State, id: SlotId)
    requires OneEach(slots0, v.slots) && SlotStep(v, v', id) && |v'.slots[id].accounts| == 1
    ensures OneEach(slots0, v'.slots)
  {
  }

  lemma StepBelow(v: State, v': State, id: SlotId, last: nat)
    requires Below(v.slots, last + 1) && SlotStep(v, v', id) && id <= last
    ensures Below(v'.slots, last + 1)
  {
  }

  /** Slot numbers after a visit that used the slot. */
  lemma VisitNumbers(s: Start, v: State, v': State, vert: nat, cur: Cursor, count: nat, bound: nat)
    requires Numbered(s, v, vert, cur, count, bound) && SlotStep(v, v', cur.id) && v'.slots[cur.id].Size() > 0
    requires cur.id !in v.slots ==> |v'.slots[cur.id].accounts| == 1
    requires cur.id !in s.state.slots
    ensures Visited(s, v', cur, Used(cur.last, cur.id).value, count, bound)
  {
    StepCount(v, v', cur.id);
    StepIds(s, v, v', cur, count, bound);
    VisitKeepsSlots(v, v', cur.id);
    if cur.id !in v.slots {
      StepOneEach(s.state.slots, v, v', cur.id);
    }
    StepBelow(v, v', cur.id, Used(cur.last, cur.id).value);
  }

  lemma StartSlots(job: Job, s: Start, v: State, t: Trace, accounts: seq<AccountId>)
    requires Fills(job, s, v, t, accounts)
    ensures forall id :: id in s.state.slots ==> id in v.slots
  {
  }

  lemma CursorStart(s: Start, v: State, vert: nat, rest: seq<AccountId>, last: Option<SlotId>, count: nat)
    requires v.slots == s.state.slots && NoEmptySlot(v.slots) && Below(v.slots, Limit(last)) && |v.slots| < count
    ensures Numbered(s, v, vert, Cursor(LastBound(last, 1), count - |v.slots| - 1, [], last), count,
                     LastBound(last, count - |v.slots|))
    ensures Queued(s, v, vert, rest, Cursor(LastBound(last, 1), count - |v.slots| - 1, [], last))
  {
    assert LastBound(last, 1) !in v.slots;
    FirstLevel(s, v, vert, [], LastBound(last, 1));
    assert [LastBound(last, 1)] + [] == [LastBound(last, 1)];
  }

  /** What a visit leaves: the slot was used, or it is gone again because nobody is left to use it. */
  ghost predicate Outcome(s: Start, v: State, w: State, vert: nat, rest: seq<AccountId>, queue: seq<SlotId>, used: bool,
                          cur: Cursor, count: nat, bound: nat) {
    if used then Between(s, w, vert, rest, queue) && Visited(s, w, cur, Used(cur.last, cur.id).value, count, bound)
    else rest == [] && w.slots == v.slots && |w.slots| < count
  }

  lemma VisitUsed(job: Job, s: Start, v: State, t: Trace, v': State, t': Trace, accounts: seq<AccountId>, rest: seq<AccountId>,
                  stopped: bool, cur: Cursor, count: nat, bound: nat)
    requires Visiting(s, v, job.vert, accounts, cur, count, bound) && v'.slots.Keys >= {cur.id} && v'.slots[cur.id].Size() > 0
    requires NextFilled(job, s, v, t, cur.id, accounts, v', t', rest, stopped)
    requires cur.id !in s.state.slots
    ensures Outcome(s, v, v', job.vert, rest, Requeued(v', job.vert, stopped, cur), true, cur, count, bound)
  {
    VisitNumbers(s, v, v', job.vert, cur, count, bound);
    VisitQueue(s, v, v', job.vert, accounts, rest, stopped, cur);
  }

  /** A slot that had nothing before and got nothing was a new one. */
  lemma UnusedIsNew(s: Start, v: State, t: Trace, v': State, t': Trace, vert: nat, cur: Cursor, count: nat, bound: nat)
    requires Numbered(s, v, vert, cur, count, bound) && Grows(v, t, v', t') && cur.id in v'.slots && v'.slots[cur.id].Size() == 0
    ensures cur.id !in v.slots && |v.slots| < count
  {
  }

  lemma VisitUnused(job: Job, s: Start, v: State, t: Trace, v': State, t': Trace, rest: seq<AccountId>, id: SlotId, w: State)
    requires Fills(job, s, v', t', rest) && Grows(v, t, v', t')
    requires SlotStep(v, v', id) && v'.slots[id].Size() == 0 && w == Closed(v', id)
    requires id !in v.slots && id !in s.state.slots
    ensures Fills(job, s, w, t', rest) && Grows(v, t, w, t') && w.slots == v.slots
  {
    CloseKeeps(job, s, v', t', rest, id);
    CloseGrows(v, t, v', t', id);
    CloseAgain(v, v', id);
  }

  /** Phase 1 came from `v` to `v'` by visiting slot `cur.id`. */
  ghost predicate VisitEnd(job: Job, s: Start, v: State, t: Trace, accounts: seq<AccountId>, cur: Cursor, count: nat, bound: nat,
                           v': State, t': Trace, rest: seq<AccountId>, queue: seq<SlotId>, used: bool)
  {
    && Fills(job, s, v', t', rest) && Grows(v, t, v', t') && |rest| <= |accounts|
    && Outcome(s, v, v', job.vert, rest, queue, used, cur, count, bound)
    && (|rest| < |accounts| || |queue| <= |cur.queue|)
    && Elsewhere(v, t, v', t', cur.id)
  }

  /** Outside slot `id` nothing changed. */
  ghost predicate Elsewhere(v: State, t: Trace, v': State, t': Trace, id: SlotId) {
    Onward(v, t, v', t', id) && forall i :: i in v.slots && i != id ==> i in v'.slots && v'.slots[i] == v.slots[i]
  }

  lemma EndsUnused(job: Job, s: Start, v: State, t: Trace, accounts: seq<AccountId>, cur: Cursor, count: nat, bound: nat,
                   v': State, t': Trace, rest: seq<AccountId>, w: State)
    requires Fills(job, s, w, t', rest) && Grows(v, t, w, t') && Onward(v, t, v', t', cur.id) && w.slots == v.slots
    requires cur.id !in v.slots && |v.slots| < count && rest == []
    ensures VisitEnd(job, s, v, t, accounts, cur, count, bound, w, t', rest, cur.queue, false)
  {
  }

  lemma EndsUsed(job: Job, s: Start, v: State, t: Trace, accounts: seq<AccountId>, cur: Cursor, count: nat, bound: nat,
                 v': State, t': Trace, rest: seq<AccountId>, stopped: bool)
    requires Visiting(s, v, job.vert, accounts, cur, count, bound)
    requires NextFilled(job, s, v, t, cur.id, accounts, v', t', rest, stopped) && v'.slots[cur.id].Size() > 0
    requires cur.id !in s.state.slots
    ensures VisitEnd(job, s, v, t, accounts, cur, count, bound, v', t', rest, Requeued(v', job.vert, stopped, cur), true)
  {
    VisitUsed(job, s, v, t, v', t', accounts, rest, stopped, cur, count, bound);
  }

  /** After the visit: a slot that stays empty is taken away again, and one that is not full waits for another round. */
  method LeaveSlot(job: Job, v1: State, cur: Cursor, rest: seq<AccountId>, stopped: bool, ghost accounts: seq<AccountId>,
                   ghost count: nat, ghost bound: nat, ghost s: Start, ghost v: State, ghost t: Trace, ghost t1: Trace)
    returns (v': State, queue: seq<SlotId>, used: bool)
    requires Visiting(s, v, job.vert, accounts, cur, count, bound)
    requires NextFilled(job, s, v, t, cur.id, accounts, v1, t1, rest, stopped)
    requires cur.id !in s.state.slots
    ensures VisitEnd(job, s, v, t, accounts, cur, count, bound, v', t1, rest, queue, used)
  {
    if v1.slots[cur.id].Size() == 0 {
      // nobody could use the slot, so nobody can use a further one
      v', queue, used := Closed(v1, cur.id), cur.queue, false;
      UnusedIsNew(s, v, t, v1, t1, job.vert, cur, count, bound);
      VisitUnused(job, s, v, t, v1, t1, rest, cur.id, v');
      EndsUnused(job, s, v, t, accounts, cur, count, bound, v1, t1, rest, v');
    } else {
      v', queue, used := v1, Requeued(v1, job.vert, stopped, cur), true;
      EndsUsed(job, s, v, t, accounts, cur, count, bound, v1, t1, rest, stopped);
    }
  }

  /** Visits one slot of phase 1. */
  method VisitSlot(job: Job, v: State, cur: Cursor, accounts: seq<AccountId>,
                   ghost count: nat, ghost bound: nat, ghost s: Start, ghost t: Trace)
    returns (v': State, rest: seq<AccountId>, queue: seq<SlotId>, used: bool, ghost t': Trace)
    requires Fills(job, s, v, t, accounts)
    requires Visiting(s, v, job.vert, accounts, cur, count, bound)
    ensures VisitEnd(job, s, v, t, accounts, cur, count, bound, v', t', rest, queue, used)
  {
    VisitsNew(job, s, v, t, accounts, cur, count, bound);
    var stopped, v1;
    v1, rest, stopped, t' := FillNextSlot(job, v, cur.id, accounts, s, t);
    v', queue, used := LeaveSlot(job, v1, cur, rest, stopped, accounts, count, bound, s, v, t, t');
  }

  lemma VisitsNew(job: Job, s: Start, v: State, t: Trace, accounts: seq<AccountId>, cur: Cursor, count: nat, bound: nat)
    requires Fills(job, s, v, t, accounts) && Numbered(s, v, job.vert, cur, count, bound)
    ensures cur.id !in s.state.slots && (cur.id in v.slots ==> v.slots[cur.id].Size() < job.vert)
  {
    StartSlots(job, s, v, t, accounts);
  }

  /** Phase 1 is about to visit `cur.id`. */
  ghost predicate Visiting(s: Start, v: State, vert: nat, rest: seq<AccountId>, cur: Cursor, count: nat, bound: nat) {
    Numbered(s, v, vert, cur, count, bound) && Queued(s, v, vert, rest, cur)
  }

  /** How phase 1 ends: the worklist is empty, or all slots are there and the new ones are full. */
  ghost predicate Phase1Done(s: Start, v: State, vert: nat, rest: seq<AccountId>, last: Option<SlotId>, count: nat, bound: nat) {
    && NoEmptySlot(v.slots)
    && NewIds(s, v, count, bound)
    && last == Some(if |v.slots| < count then bound + 1 - (count - |v.slots|) else bound)
    && Below(v.slots, Limit(last))
    && (|v.slots| < count ==> OneEach(s.state.slots, v.slots)) && (s.calm ==> Even(s.state.slots, v.slots, vert))
    && (rest == [] || (|v.slots| == count && NewFull(s, v, vert, rest, [])))
  }

  /** After a round: another slot to visit, or the end of phase 1. */
  ghost predicate Round(s: Start, v: State, vert: nat, rest: seq<AccountId>, more: bool, cur: Cursor, count: nat, bound: nat) {
    if more then Visiting(s, v, vert, rest, cur, count, bound)
    else Phase1Done(s, v, vert, rest, cur.last, count, bound)
  }

  lemma EndUnused(s: Start, v: State, w: State, vert: nat, accounts: seq<AccountId>, cur: Cursor, count: nat, bound: nat)
    requires Visiting(s, v, vert, accounts, cur, count, bound)
    requires w.slots == v.slots && |w.slots| < count
    ensures Round(s, w, vert, [], false, cur.(last := Used(cur.last, cur.id)), count, bound)
  {
    if s.calm {
      LeveledIsEven(s.state.slots, v.slots, vert, [cur.id] + cur.queue);
    }
  }

  lemma EndFull(s: Start, v: State, vert: nat, rest: seq<AccountId>, cur: Cursor, last: SlotId, count: nat, bound: nat)
    requires Between(s, v, vert, rest, []) && Visited(s, v, cur, last, count, bound) && |v.slots| == count
    ensures Phase1Done(s, v, vert, rest, Some(last), count, bound)
  {
    if s.calm {
      LeveledIsEven(s.state.slots, v.slots, vert, []);
    }
  }

  /** Defines the next slot: a new one while some are missing, then one that is not full. */
  method NextSlot(cur: Cursor, queue: seq<SlotId>, last: SlotId,
                  ghost s: Start, ghost v: State, ghost vert: nat, ghost rest: seq<AccountId>, ghost count: nat, ghost bound: nat)
    returns (more: bool, cur': Cursor)
    requires Between(s, v, vert, rest, queue) && Visited(s, v, cur, last, count, bound)
    ensures cur'.last == Some(last)
    ensures Round(s, v, vert, rest, more, cur', count, bound)
    ensures more ==> cur'.remaining < cur.remaining || (cur'.remaining == cur.remaining && |cur'.queue| < |queue|)
  {
    if cur.remaining > 0 {
      NextNew(s, v, vert, rest, queue, cur, last, count, bound);
      more, cur' := true, Cursor(cur.id + 1, cur.remaining - 1, queue, Some(last));
    } else if queue != [] {
      NextQueued(s, v, vert, rest, queue, cur, last, count, bound);
      more, cur' := true, Cursor(queue[0], 0, queue[1..], Some(last));
    } else {
      EndFull(s, v, vert, rest, cur, last, count, bound);
      more, cur' := false, cur.(last := Some(last));
    }
  }

  /** A visit ended: goes on to the next slot, or ends when the slot could not be filled or nothing is left. */
  method Advance(cur: Cursor, queue: seq<SlotId>, used: bool, ghost s: Start, ghost v: State, ghost w: State, ghost vert: nat,
                 ghost accounts: seq<AccountId>, ghost rest: seq<AccountId>, ghost count: nat, ghost bound: nat)
    returns (more: bool, cur': Cursor)
    requires Visiting(s, v, vert, accounts, cur, count, bound)
    requires Outcome(s, v, w, vert, rest, queue, used, cur, count, bound)
    ensures Round(s, w, vert, rest, more, cur', count, bound)
    ensures cur'.last == Used(cur.last, cur.id)
    ensures more ==> cur'.remaining < cur.remaining || (cur'.remaining == cur.remaining && |cur'.queue| < |queue|)
  {
    var last := Used(cur.last, cur.id);
    if used {
      more, cur' := NextSlot(cur, queue, last.value, s, w, vert, rest, count, bound);
    } else {
      EndUnused(s, v, w, vert, accounts, cur, count, bound);
      more, cur' := false, cur.(last := last);
    }
  }

  /** One round of phase 1. */
  method Phase1Step(job: Job, v: State, cur: Cursor, accounts: seq<AccountId>,
                    ghost count: nat, ghost bound: nat, ghost s: Start, ghost t: Trace)
    returns (v': State, rest: seq<AccountId>, more: bool, cur': Cursor, ghost t': Trace)
    requires Fills(job, s, v, t, accounts)
    requires Visiting(s, v, job.vert, accounts, cur, count, bound)
    ensures Fills(job, s, v', t', rest) && Grows(v, t, v', t') && |rest| <= |accounts|
    ensures Elsewhere(v, t, v', t', cur.id)
    ensures Round(s, v', job.vert, rest, more, cur', count, bound)
    ensures Limit(cur.last) <= Limit(cur'.last)
    ensures more ==> || |rest| < |accounts| || cur'.remaining < cur.remaining
                     || (cur'.remaining == cur.remaining && |cur'.queue| < |cur.queue|)
  {
    var queue, used;
    v', rest, queue, used, t' := VisitSlot(job, v, cur, accounts, count, bound, s, t);
    more, cur' := Advance(cur, queue, used, s, v, v', job.vert, accounts, rest, count, bound);
  }

  /** Phase 1 so far: from state `v` and worklist `accounts` to `v'` and `rest`. */
  ghost predicate Phase1At(job: Job, s: Start, v: State, t: Trace, accounts: seq<AccountId>, last: Option<SlotId>,
                           v': State, t': Trace, rest: seq<AccountId>, more: bool, cur: Cursor, count: nat, bound: nat)
  {
    && Fills(job, s, v', t', rest) && Grows(v, t, v', t') && |rest| <= |accounts|
    && Apart(s.state.slots, s.home, v', t')
    && Round(s, v', job.vert, rest, more, cur, count, bound)
    && Limit(last) <= Limit(cur.last)
  }

  lemma Phase1Start(job: Job, s: Start, v: State, t: Trace, accounts: seq<AccountId>, last: Option<SlotId>, count: nat)
    requires Fills(job, s, v, t, accounts) && Apart(s.state.slots, s.home, v, t) && v.slots == s.state.slots
    requires NoEmptySlot(v.slots) && Below(v.slots, Limit(last)) && |v.slots| < count
    ensures Phase1At(job, s, v, t, accounts, last, v, t, accounts, true,
                     Cursor(LastBound(last, 1), count - |v.slots| - 1, [], last), count, LastBound(last, count - |v.slots|))
  {
    CursorStart(s, v, job.vert, accounts, last, count);
    StartGrows(v, t);
  }

  method Phase1Round(job: Job, v1: State, cur: Cursor, accounts: seq<AccountId>, ghost count: nat, ghost bound: nat, ghost s: Start,
                     ghost t1: Trace, ghost v: State, ghost t: Trace, ghost all: seq<AccountId>, ghost last: Option<SlotId>)
    returns (v': State, rest: seq<AccountId>, more: bool, cur': Cursor, ghost t': Trace)
    requires Phase1At(job, s, v, t, all, last, v1, t1, accounts, true, cur, count, bound)
    ensures Phase1At(job, s, v, t, all, last, v', t', rest, more, cur', count, bound) && |rest| <= |accounts|
    ensures more ==> || |rest| < |accounts| || cur'.remaining < cur.remaining
                     || (cur'.remaining == cur.remaining && |cur'.queue| < |cur.queue|)
  {
    v', rest, more, cur', t' := Phase1Step(job, v1, cur, accounts, count, bound, s, t1);
    GrowsTransitive(v, t, v1, t1, v', t');
    VisitsNew(job, s, v1, t1, accounts, cur, count, bound);
    ApartStep(s.state.slots, s.home, v1, t1, v', t', cur.id);
  }

  method Phase1Loop(job: Job, v: State, start: Cursor, accounts: seq<AccountId>, ghost count: nat, ghost bound: nat, ghost s: Start,
                    ghost t: Trace, ghost last: Option<SlotId>)
    returns (v': State, rest: seq<AccountId>, cur: Cursor, ghost t': Trace)
    requires Phase1At(job, s, v, t, accounts, last, v, t, accounts, true, start, count, bound)
    ensures Phase1At(job, s, v, t, accounts, last, v', t', rest, false, cur, count, bound)
  {
    v', rest, cur, t' := v, accounts, start, t;
    var more := true;
    while more
      invariant Phase1At(job, s, v, t, accounts, last, v', t', rest, more, cur, count, bound)
      decreases more, |rest|, cur.remaining, |cur.queue|
    {
      v', rest, more, cur, t' := Phase1Round(job, v', cur, rest, count, bound, s, t', v, t, accounts, last);
    }
  }

  /** Phase 1: opens the missing slots one by one, then revisits those that are not full. */
  method FillNewSlots(job: Job, v: State, slotsCount: nat, last: Option<SlotId>, accounts: seq<AccountId>,
                      ghost s: Start, ghost t: Trace)
    returns (v': State, last': Option<SlotId>, rest: seq<AccountId>, ghost t': Trace)
    requires Fills(job, s, v, t, accounts) && Apart(s.state.slots, s.home, v, t) && v.slots == s.state.slots
    requires NoEmptySlot(v.slots) && Below(v.slots, Limit(last)) && |v.slots| < slotsCount
    ensures Fills(job, s, v', t', rest) && Apart(s.state.slots, s.home, v', t') && Grows(v, t, v', t') && |rest| <= |accounts|
    ensures Phase1Done(s, v', job.vert, rest, last', slotsCount, LastBound(last, slotsCount - |v.slots|))
    ensures Limit(last) <= Limit(last')
  {
    var cur := Cursor(LastBound(last, 1), slotsCount - |v.slots| - 1, [], last);
    Phase1Start(job, s, v, t, accounts, last, slotsCount);
    v', rest, cur, t' := Phase1Loop(job, v, cur, accounts, slotsCount, LastBound(last, slotsCount - |v.slots|), s, t, last);
    last' := cur.last;
  }

  // --- the whole fill ---

  ghost predicate AllFresh(f: Filter, v: State, accounts: seq<AccountId>, n: nat)
    requires n <= |accounts|
  {
    f.CanSkip() ==> forall i :: 0 <= i < n ==> Fresh(f, Get(v.buf, accounts[i]))
  }

  lemma AllFreshNext(f: Filter, v: State, t: Trace, accounts: seq<AccountId>, n: nat)
    requires n < |accounts| && AllFresh(f, v, accounts, n)
    ensures AllFresh(f, TrySkip(f, v, accounts[n]), accounts, n + 1)
  {
    var w := TrySkip(f, v, accounts[n]);
    TrySkipFresh(f, v, accounts[n], w);
    if f.CanSkip() && accounts[n] in v.buf {
      SkipAges(f, v, t, accounts[n]);
      forall i | 0 <= i < n ensures Fresh(f, Get(w.buf, accounts[i])) {
        assert AgesAt(f, v, t, w, t, accounts[i]);
      }
    }
  }

  /** The sweep has dealt with the first accounts. */
  ghost predicate Sweeping(job: Job, s: Start, v: State, t: Trace, rest: seq<AccountId>, v': State, n: nat) {
    && Fills(job, s, v', t, rest) && Grows(v, t, v', t) && v'.slots == v.slots
    && n <= |rest| && AllFresh(job.filter, v', rest, n)
  }

  lemma SweepingNext(job: Job, s: Start, v: State, t: Trace, rest: seq<AccountId>, w: State, n: nat)
    requires Sweeping(job, s, v, t, rest, w, n) && n < |rest|
    ensures Sweeping(job, s, v, t, rest, TrySkip(job.filter, w, rest[n]), n + 1)
  {
    RunDrop(job, s.order, s.state, s.home, w, t, rest, rest[n]);
    AllFreshNext(job.filter, w, t, rest, n);
    GrowsTransitive(v, t, w, t, TrySkip(job.filter, w, rest[n]), t);
  }

  /** Drops expired messages of the accounts nobody asked for. */
  method DropExpired(job: Job, v: State, rest: seq<AccountId>, ghost s: Start, ghost t: Trace)
    returns (v': State)
    requires Fills(job, s, v, t, rest)
    ensures Fills(job, s, v', t, rest) && Grows(v, t, v', t)
    ensures v'.slots == v.slots
    ensures AllFresh(job.filter, v', rest, |rest|)
  {
    v' := v;
    StartGrows(v, t);
    for i := 0 to |rest|
      invariant Sweeping(job, s, v, t, rest, v', i)
    {
      SweepingNext(job, s, v, t, rest, v', i);
      v' := TrySkip(job.filter, v', rest[i]);
    }
  }

  /** After a fill nothing expired is left of an account, unless it entered a slot in this very fill. */
  ghost predicate Expires(f: Filter, vert: nat, grp0: Queues, buf: Queues, log: seq<Message>) {
    vert > 0 && f.CanSkip() ==>
      forall a :: a in buf && (a in grp0 || ByAccount(log, a) == []) ==> Fresh(f, buf[a])
  }

  /** Accounts that were in no slot get their turn in the order of the buffer: none is overtaken by a later one,
    unless it fails the check or nothing of it is left. */
  ghost predicate InTurn(order: seq<AccountId>, skip: AccountId -> bool, vert: nat, grp0: Queues, buf: Queues, log: seq<Message>) {
    vert > 0 ==>
      forall i, j :: 0 <= i < j < |order| && order[j] !in grp0 && ByAccount(log, order[j]) != [] ==>
        HadTurn(order[i], skip, grp0, buf, log)
  }

  ghost predicate HadTurn(a: AccountId, skip: AccountId -> bool, grp0: Queues, buf: Queues, log: seq<Message>) {
    a in grp0 || skip(a) || ByAccount(log, a) != [] || Get(buf, a) == []
  }

  lemma FillExpires(job: Job, s: Start, v: State, t: Trace, rest: seq<AccountId>)
    requires Fills(job, s, v, t, rest) && s.home.Keys == s.state.grp.Keys
    requires AllFresh(job.filter, v, rest, |rest|)
    ensures Expires(job.filter, job.vert, s.state.grp, v.buf, t.log)
  {
    if job.vert > 0 && job.filter.CanSkip() {
      forall a | a in v.buf && (a in s.state.grp || ByAccount(t.log, a) == []) ensures Fresh(job.filter, v.buf[a]) {
        if a in rest {
          var i :| 0 <= i < |rest| && rest[i] == a;
          assert Fresh(job.filter, Get(v.buf, rest[i]));
        } else {
          assert Treated(job, s.home, v, t, a);
        }
      }
    }
  }

  /** What is still on the worklist has moved nothing, unless it was grouped before. */
  lemma WaitingMovedNothing(job: Job, s: Start, v: State, t: Trace, rest: seq<AccountId>, a: AccountId)
    requires Fills(job, s, v, t, rest) && a in rest && a !in s.home
    ensures ByAccount(t.log, a) == []
  {
    assert a !in t.home;
    assert a !in v.grp;
    assert Get(v.grp, a) == Get(s.state.grp, a) + ByAccount(t.log, a);
  }

  lemma FillInTurn(job: Job, s: Start, v: State, t: Trace, rest: seq<AccountId>)
    requires Fills(job, s, v, t, rest) && s.home.Keys == s.state.grp.Keys
    ensures InTurn(s.order, job.skip, job.vert, s.state.grp, v.buf, t.log)
  {
    if job.vert > 0 {
      forall i, j | 0 <= i < j < |s.order| && s.order[j] !in s.state.grp && ByAccount(t.log, s.order[j]) != []
        ensures HadTurn(s.order[i], job.skip, s.state.grp, v.buf, t.log)
      {
        if s.order[j] in rest {
          WaitingMovedNothing(job, s, v, t, rest, s.order[j]);
        }
        TurnBefore(job, s, v, t, rest, i, j);
      }
    }
  }

  lemma TurnBefore(job: Job, s: Start, v: State, t: Trace, rest: seq<AccountId>, i: nat, j: nat)
    requires Fills(job, s, v, t, rest) && i < j < |s.order| && s.order[j] !in rest && job.vert > 0
    ensures Treated(job, s.home, v, t, s.order[i])
  {
    assert s.order[i] in s.order;
    if s.order[i] in rest {
      LaterInRest(s.order, rest, i, j);
    }
  }

  lemma LaterInRest(order: seq<AccountId>, rest: seq<AccountId>, i: nat, j: nat)
    requires Distinct(order) && EndOf(order, rest) && i < j < |order| && order[i] in rest
    ensures order[j] in rest
  {
    var n := |order| - |rest|;
    var k :| 0 <= k < |rest| && rest[k] == order[i];
    assert order[n + k] == order[i];
    assert rest[j - n] == order[j];
  }

  lemma StartFlow(f: Filter, v: State)
    requires v.keys == []
    ensures Flow(f, v, v, [])
  {
    forall a | a in v.buf ensures Cut(f, v.buf[a], v.buf[a], ByAccount([], a)) {
      CutStart(f, v.buf[a]);
    }
  }

  lemma StartInv(f: Filter, vert: nat, order: seq<AccountId>, v: State, home: map<AccountId, SlotId>)
    requires AllAddressed(v.buf) && Packed(v.grp, v.slots, home) && v.updates == map[] && v.keys == []
    ensures Inv(f, vert, order, v, v, Trace(home, []))
  {
    StartFlow(f, v);
  }

  lemma StartFills(job: Job, s: Start)
    requires KeysOf(s.order, s.state.buf) && (s.calm ==> Calm(job.filter, s.state.buf))
    requires AllAddressed(s.state.buf) && Packed(s.state.grp, s.state.slots, s.home)
    requires s.state.updates == map[] && s.state.keys == []
    ensures Fills(job, s, s.state, Trace(s.home, []), s.order)
  {
    StartInv(job.filter, job.vert, s.order, s.state, s.home);
    StartWork(job, s.order, s.state, s.home);
  }

  lemma StartApart(s: Start)
    requires Packed(s.state.grp, s.state.slots, s.home)
    ensures Apart(s.state.slots, s.home, s.state, Trace(s.home, []))
  {
  }

  lemma StartWork(job: Job, order: seq<AccountId>, v: State, home: map<AccountId, SlotId>)
    requires KeysOf(order, v.buf)
    ensures Settled(job, home, v, Trace(home, []), order) && Pending(home, v, Trace(home, []), order)
    ensures Treats(job, order, home, v, Trace(home, []), order)
  {
  }

  lemma StartGrows(v: State, t: Trace)
    ensures Grows(v, t, v, t)
  {
  }

  /** No account that passes the check is left behind while there is room for it. */
  ghost predicate WorkConserving(job: Job, slotsCount: nat, v: State, t: Trace) {
    job.vert > 0 ==>
      forall a :: a in v.buf ==>
        || Done(job.skip, job.vert, v, t, a)
        || (|v.slots| >= slotsCount && AllFull(v.slots, job.vert))
  }

  ghost predicate AllFull(slots: SlotMap, vert: nat) {
    forall id :: id in slots ==> slots[id].Size() >= vert
  }

  lemma ConservingAt(job: Job, s: Start, v: State, t: Trace, rest: seq<AccountId>, a: AccountId)
    requires Settled(job, s.home, v, t, rest) && job.vert > 0 && a in v.buf
    requires forall id :: id in s.state.slots ==> Finished(job, s, v, t, rest, id)
    requires Homed(s.state.grp, s.state.slots, s.home)
    requires forall b :: b in s.home ==> b in t.home && t.home[b] == s.home[b]
    requires rest == [] || NewFull(s, v, job.vert, rest, [])
    ensures Done(job.skip, job.vert, v, t, a) || (rest != [] && AllFull(v.slots, job.vert))
  {
    if a in s.home {
      assert Finished(job, s, v, t, rest, s.home[a]);
    } else if rest != [] {
      forall id | id in v.slots ensures v.slots[id].Size() >= job.vert {
        if id in s.state.slots {
          assert Finished(job, s, v, t, rest, id);
        }
      }
    }
  }

  lemma Conserving(job: Job, s: Start, v: State, t: Trace, rest: seq<AccountId>, swept: set<SlotId>,
                   index: SlotIndex, slotsCount: nat)
    requires Fills(job, s, v, t, rest) && Grows(s.state, Trace(s.home, []), v, t)
    requires Swept(job, s, v, t, rest, swept) && SweptBelow(index, job.vert, swept)
    requires Covers(index, s.state.slots) && Packed(s.state.grp, s.state.slots, s.home)
    requires rest == [] || (|v.slots| >= slotsCount && NewFull(s, v, job.vert, rest, []))
    ensures WorkConserving(job, slotsCount, v, t)
  {
    if job.vert > 0 {
      forall id | id in s.state.slots ensures Finished(job, s, v, t, rest, id) {
        OldFinished(job, s, v, t, rest, swept, index, id);
      }
      forall a | a in v.buf
        ensures Done(job.skip, job.vert, v, t, a) || (|v.slots| >= slotsCount && AllFull(v.slots, job.vert))
      {
        ConservingAt(job, s, v, t, rest, a);
      }
    }
  }

  /** Every slot the fill started from is finished: it was full, or the index listed it. */
  lemma OldFinished(job: Job, s: Start, v: State, t: Trace, rest: seq<AccountId>, swept: set<SlotId>,
                    index: SlotIndex, id: SlotId)
    requires Grows(s.state, Trace(s.home, []), v, t)
    requires Swept(job, s, v, t, rest, swept) && SweptBelow(index, job.vert, swept)
    requires Covers(index, s.state.slots) && id in s.state.slots
    ensures Finished(job, s, v, t, rest, id)
  {
    var size := s.state.slots[id].Size();
    if size < job.vert {
      assert Includes(index[size], |index[size]|, swept);
      assert id in swept;
    }
  }

  ghost function StartOf(job: Job, order: seq<AccountId>, v: State, home: map<AccountId, SlotId>): Start {
    Start(order, v, home, Calm(job.filter, v.buf))
  }

  /** A state a fill may start from, with the slot index and the last id used. */
  ghost predicate CanStart(job: Job, s: Start, index: SlotIndex, last: Option<SlotId>) {
    && KeysOf(s.order, s.state.buf)
    && (s.calm ==> Calm(job.filter, s.state.buf))
    && AllAddressed(s.state.buf)
    && Packed(s.state.grp, s.state.slots, s.home)
    && s.state.updates == map[] && s.state.keys == [] && s.state.skipped == 0
    && NoEmptySlot(s.state.slots)
    && Below(s.state.slots, Limit(last))
    && Covers(index, s.state.slots)
    && Ready(index, s.state.slots, job.vert)
  }

  /** One account for each new slot before any gets a second one; with nothing to skip, then turn by turn. */
  ghost predicate InRounds(s: Start, v: State, vert: nat, slotsCount: nat) {
    && (|v.slots| < slotsCount ==> OneEach(s.state.slots, v.slots))
    && (s.calm ==> Even(s.state.slots, v.slots, vert))
  }

  /** Slots after phase 1, whether or not there was anything to open. */
  ghost predicate Phase1Slots(s: Start, v: State, vert: nat, rest: seq<AccountId>, slotsCount: nat,
                              last0: Option<SlotId>, last: Option<SlotId>) {
    && NoEmptySlot(v.slots)
    && Below(v.slots, Limit(last)) && Limit(last0) <= Limit(last)
    && Numbering(slotsCount, s.state.slots, v.slots, last0, last)
    && (rest == [] || (|v.slots| >= slotsCount && NewFull(s, v, vert, rest, [])))
  }

  lemma Phase1Numbers(s: Start, v: State, vert: nat, rest: seq<AccountId>, slotsCount: nat, last0: Option<SlotId>, last: Option<SlotId>)
    requires |s.state.slots| < slotsCount && Limit(last0) <= Limit(last)
    requires Phase1Done(s, v, vert, rest, last, slotsCount, LastBound(last0, slotsCount - |s.state.slots|))
    ensures Phase1Slots(s, v, vert, rest, slotsCount, last0, last) && InRounds(s, v, vert, slotsCount)
  {
  }

  lemma Phase1Skipped(s: Start, vert: nat, slotsCount: nat, last: Option<SlotId>, rest: seq<AccountId>)
    requires NoEmptySlot(s.state.slots) && Below(s.state.slots, Limit(last)) && slotsCount <= |s.state.slots|
    ensures Phase1Slots(s, s.state, vert, rest, slotsCount, last, last) && InRounds(s, s.state, vert, slotsCount)
  {
  }

  method FillMissingSlots(job: Job, slotsCount: nat, v0: State, last0: Option<SlotId>, accounts: seq<AccountId>,
                          ghost s: Start, ghost t0: Trace)
    returns (v: State, last: Option<SlotId>, rest: seq<AccountId>, ghost t: Trace)
    requires Fills(job, s, v0, t0, accounts) && v0 == s.state && Apart(s.state.slots, s.home, v0, t0)
    requires NoEmptySlot(v0.slots) && Below(v0.slots, Limit(last0))
    ensures Fills(job, s, v, t, rest) && Grows(v0, t0, v, t) && Apart(s.state.slots, s.home, v, t)
    ensures Phase1Slots(s, v, job.vert, rest, slotsCount, last0, last) && InRounds(s, v, job.vert, slotsCount)
  {
    if slotsCount > |v0.slots| {
      v, last, rest, t := FillNewSlots(job, v0, slotsCount, last0, accounts, s, t0);
      Phase1Numbers(s, v, job.vert, rest, slotsCount, last0, last);
    } else {
      v, last, rest, t := v0, last0, accounts, t0;
      StartGrows(v0, t0);
      Phase1Skipped(s, job.vert, slotsCount, last0, accounts);
    }
  }

  /** How slots and accounts were served: new slots before old ones, and turn by turn. */
  ghost predicate Scheduled(job: Job, s: Start, index: SlotIndex, slotsCount: nat, v: State, t: Trace) {
    && Served(job, s, index, v, t)
    && NewFirst(s.state.slots, s.home, slotsCount, job.vert, v.slots, t.home)
    && InRounds(s, v, job.vert, slotsCount)
  }

  /** Both phases, then the expiry sweep. */
  method Fill(job: Job, slotsCount: nat, order: seq<AccountId>, v0: State, index: SlotIndex, last0: Option<SlotId>,
              ghost home0: map<AccountId, SlotId>)
    returns (v: State, last: Option<SlotId>, ghost t: Trace)
    requires CanStart(job, StartOf(job, order, v0, home0), index, last0)
    ensures Inv(job.filter, job.vert, order, v0, v, t)
    ensures Grows(v0, Trace(home0, []), v, t)
    ensures NoEmptySlot(v.slots) && Below(v.slots, Limit(last)) && Limit(last0) <= Limit(last)
    ensures Numbering(slotsCount, v0.slots, v.slots, last0, last)
    ensures WorkConserving(job, slotsCount, v, t)
    ensures Expires(job.filter, job.vert, v0.grp, v.buf, t.log)
    ensures InTurn(order, job.skip, job.vert, v0.grp, v.buf, t.log)
    ensures Scheduled(job, StartOf(job, order, v0, home0), index, slotsCount, v, t)
  {
    ghost var s := StartOf(job, order, v0, home0);
    StartFills(job, s);
    ghost var t0 := Trace(home0, []);
    StartApart(s);
    StartResidents(s);
    var accounts;
    v, last, accounts, t := FillMissingSlots(job, slotsCount, v0, last0, order, s, t0);
    ghost var v1, t1, rest1 := v, t, accounts;
    ghost var swept;
    v, accounts, t, swept := FillListedSlots(job, v, index, accounts, s, t);
    GrowsTransitive(v0, t0, v1, t1, v, t);
    AfterPhases(s, v1, t1, rest1, v, t, accounts, job.vert, slotsCount, last0, last);
    NewBeforeOld(s, v1, t1, rest1, v, t, job.vert, slotsCount, last0, last);
    RoundsStay(s, v1, v, job.vert, slotsCount);
    if job.filter.CanSkip() {
      ghost var x := v;
      v := DropExpired(job, v, accounts, s, t);
      GrowsTransitive(v0, t0, x, t, v, t);
      SweptStable(job, s, x, t, accounts, v, t, swept);
      AfterPhases(s, x, t, accounts, v, t, accounts, job.vert, slotsCount, last0, last);
      ScheduledStays(job, s, index, slotsCount, x, v, t);
    }
    Conserving(job, s, v, t, accounts, swept, index, slotsCount);
    FillExpires(job, s, v, t, accounts);
    FillInTurn(job, s, v, t, accounts);
  }

  /** Phase 2 had something to give only after phase 1 had filled all new slots. */
  lemma NewBeforeOld(s: Start, v1: State, t1: Trace, rest1: seq<AccountId>, v: State, t: Trace, vert: nat,
                     slotsCount: nat, last0: Option<SlotId>, last: Option<SlotId>)
    requires Apart(s.state.slots, s.home, v1, t1) && Phase1Slots(s, v1, vert, rest1, slotsCount, last0, last)
    requires v.slots.Keys == v1.slots.Keys && SameNew(s, v1, v) && (rest1 == [] ==> t.home == t1.home)
    ensures NewFirst(s.state.slots, s.home, slotsCount, vert, v.slots, t.home)
  {
    assert |v.slots| == |v.slots.Keys| && |v1.slots| == |v1.slots.Keys|;
    NewFirstIs(s.state.slots, s.home, slotsCount, vert, v1, t1, v, t);
  }

  lemma ScheduledStays(job: Job, s: Start, index: SlotIndex, slotsCount: nat, x: State, v: State, t: Trace)
    requires Scheduled(job, s, index, slotsCount, x, t) && Grows(x, t, v, t) && v.slots == x.slots
    ensures Scheduled(job, s, index, slotsCount, v, t)
  {
    forall id | id in s.state.slots ensures ServedAt(job, s, v, t, id) {
      assert ServedAt(job, s, x, t, id);
      var accounts := s.state.slots[id].accounts;
      forall i | 0 <= i < |accounts| && Spent(job.skip, x.buf, accounts[i]) ensures Spent(job.skip, v.buf, accounts[i]) {
        SpentStays(job.skip, x, t, v, t, accounts[i]);
      }
    }
  }

  lemma SameHomeStart(s: Start, v: State, t: Trace)
    requires Grows(s.state, Trace(s.home, []), v, t)
    ensures SameHome(s, t)
  {
  }

  /** What phase 1 leaves is kept by steps that open and close no slot. */
  lemma AfterPhases(s: Start, v: State, t: Trace, rest: seq<AccountId>, w: State, u: Trace, rest': seq<AccountId>,
                    vert: nat, slotsCount: nat, last0: Option<SlotId>, last: Option<SlotId>)
    requires Grows(v, t, w, u) && w.slots.Keys == v.slots.Keys && |rest'| <= |rest|
    requires Phase1Slots(s, v, vert, rest, slotsCount, last0, last)
    ensures Phase1Slots(s, w, vert, rest', slotsCount, last0, last)
  {
    assert |w.slots| == |w.slots.Keys| && |v.slots| == |v.slots.Keys|;
  }

  lemma RoundsStay(s: Start, v: State, w: State, vert: nat, slotsCount: nat)
    requires InRounds(s, v, vert, slotsCount) && w.slots.Keys == v.slots.Keys && SameNew(s, v, w)
    ensures InRounds(s, w, vert, slotsCount)
  {
    assert |w.slots| == |w.slots.Keys| && |v.slots| == |v.slots.Keys|;
  }

  lemma SweptStable(job: Job, s: Start, v: State, t: Trace, rest: seq<AccountId>, w: State, u: Trace, ids: set<SlotId>)
    requires Swept(job, s, v, t, rest, ids) && Grows(v, t, w, u)
    ensures Swept(job, s, w, u, rest, ids)
  {
    forall id | id in ids ensures Finished(job, s, w, u, rest, id) {
      FinishedStable(job, s, v, t, rest, w, u, rest, id);
    }
  }
}
