/** Slots of a message group: how accounts are packed, and what the slot index covers. */
module Slots {
  import opened Messages
  import opened Sequences
  import opened Wrappers

  // Unbounded here; `FillMessageGroup` bounds how far a fill can push the last id.
  type SlotId = nat

  datatype Slot = Slot(accounts: seq<AccountId>, intCount: int, extCount: int) {
    function Size(): int { intCount + extCount }
  }

  type SlotMap = map<SlotId, Slot>
  type SlotIndex = map<nat, seq<SlotId>>

  /** One past the largest id handed out so far. */
  function Limit(last: Option<SlotId>): nat {
    if last.None? then 0 else last.value + 1
  }

  /** `home` names the one slot each grouped account sits in. */
  ghost predicate Homed(grp: Queues, slots: SlotMap, home: map<AccountId, SlotId>) {
    && home.Keys == grp.Keys
    && (forall a :: a in home ==> home[a] in slots && a in slots[home[a]].accounts)
    && (forall id, a {:trigger a in slots[id].accounts} :: id in slots && a in slots[id].accounts ==> a in home && home[a] == id)
  }

  /** A slot's counters are those of its accounts' grouped messages. */
  ghost predicate SlotLoaded(grp: Queues, slot: Slot) {
    && Distinct(slot.accounts)
    && slot.intCount == TotalInts(slot.accounts, grp)
    && slot.extCount == TotalExts(slot.accounts, grp)
  }

  ghost predicate Loaded(grp: Queues, slots: SlotMap) {
    forall id :: id in slots ==> SlotLoaded(grp, slots[id])
  }

  ghost predicate NoEmptyQueue(grp: Queues) {
    forall a :: a in grp ==> grp[a] != []
  }

  ghost predicate Packed(grp: Queues, slots: SlotMap, home: map<AccountId, SlotId>) {
    Homed(grp, slots, home) && Loaded(grp, slots) && NoEmptyQueue(grp)
  }

  /** Every slot is listed under its current size. */
  ghost predicate Covers(index: SlotIndex, slots: SlotMap) {
    forall id :: id in slots ==>
      slots[id].Size() >= 0 && slots[id].Size() in index && id in index[slots[id].Size()]
  }

  /** Every listed id exists, and no bucket lists an id twice. */
  ghost predicate Known(index: SlotIndex, slots: SlotMap) {
    && (forall c, id {:trigger id in index[c]} :: c in index && id in index[c] ==> id in slots)
    && (forall c :: c in index ==> Distinct(index[c]))
  }

  ghost predicate NoEmptySlot(slots: SlotMap) {
    forall id :: id in slots ==> slots[id].Size() > 0
  }

  ghost predicate Below(slots: SlotMap, limit: nat) {
    forall id :: id in slots ==> id < limit
  }

  /** Sum of the internals counters of the slots with an id below `n`. */
  function SumInts(slots: SlotMap, n: nat): int {
    if n == 0 then 0 else SumInts(slots, n - 1) + (if n - 1 in slots then slots[n - 1].intCount else 0)
  }

  function SumExts(slots: SlotMap, n: nat): int {
    if n == 0 then 0 else SumExts(slots, n - 1) + (if n - 1 in slots then slots[n - 1].extCount else 0)
  }

  /** Two packings name the same slot for an account, whichever `home` witnesses them. */
  lemma PackedOnce(grp: Queues, slots: SlotMap, home: map<AccountId, SlotId>, a: AccountId)
    requires Packed(grp, slots, home)
    ensures a in grp ==> exists id :: id in slots && a in slots[id].accounts
    ensures forall i, j :: i in slots && j in slots && a in slots[i].accounts && a in slots[j].accounts ==> i == j
    ensures a !in grp ==> forall id :: id in slots ==> a !in slots[id].accounts
  {
    if a in grp {
      assert home[a] in slots;
    }
  }

  lemma {:induction false} SumFrame(s: SlotMap, t: SlotMap, n: nat)
    requires forall id :: 0 <= id < n ==> (id in s <==> id in t) && (id in s ==> s[id].intCount == t[id].intCount && s[id].extCount == t[id].extCount)
    ensures SumInts(s, n) == SumInts(t, n) && SumExts(s, n) == SumExts(t, n)
  {
    if n > 0 {
      SumFrame(s, t, n - 1);
    }
  }

  lemma {:induction false} SumBeyond(s: SlotMap, limit: nat, n: nat)
    requires Below(s, limit) && limit <= n
    ensures SumInts(s, n) == SumInts(s, limit) && SumExts(s, n) == SumExts(s, limit)
  {
    if limit < n {
      SumBeyond(s, limit, n - 1);
    }
  }
}
