/** The messages buffer: per-account queues in insertion order, counters and the index of accounts by queue length. */
module MessagesBuffers {
  import opened Messages
  import opened Sequences
  import opened Slots
  import opened Filling
  import opened FillPhases
  import opened Schedules
  import opened MessageGroups
  import opened Wrappers

  /** The listed accounts that are (not) in `drop`, in order. */
  function Selected(order: seq<AccountId>, drop: set<AccountId>, inside: bool): seq<AccountId> {
    if order == [] then []
    else if (order[0] in drop) == inside then [order[0]] + Selected(order[1..], drop, inside)
    else Selected(order[1..], drop, inside)
  }

  lemma {:induction false} SelectedMembers(order: seq<AccountId>, drop: set<AccountId>, inside: bool)
    ensures forall a :: a in Selected(order, drop, inside) <==> a in order && (a in drop) == inside
    ensures Distinct(order) ==> Distinct(Selected(order, drop, inside))
  {
    if order != [] {
      SelectedMembers(order[1..], drop, inside);
    }
  }

  /** What is selected keeps the order it had. */
  ghost predicate InOrder(all: seq<AccountId>, some: seq<AccountId>) {
    forall i, j, p, q :: 0 <= i < j < |some| && 0 <= p < |all| && 0 <= q < |all| && all[p] == some[i] && all[q] == some[j] ==>
      p < q
  }

  lemma {:induction false} SelectedPlaces(order: seq<AccountId>, drop: set<AccountId>, inside: bool, i: nat, j: nat, p: nat, q: nat)
    requires Distinct(order) && i < j < |Selected(order, drop, inside)| && p < |order| && q < |order|
    requires order[p] == Selected(order, drop, inside)[i] && order[q] == Selected(order, drop, inside)[j]
    ensures p < q
  {
    var rest := Selected(order[1..], drop, inside);
    SelectedMembers(order[1..], drop, inside);
    if (order[0] in drop) == inside {
      assert rest[j - 1] in order[1..];
      assert q > 0;
      if i > 0 {
        assert rest[i - 1] in order[1..];
        SelectedPlaces(order[1..], drop, inside, i - 1, j - 1, p - 1, q - 1);
      } else {
        assert p == 0;
      }
    } else {
      assert rest[i] in order[1..] && rest[j] in order[1..];
      SelectedPlaces(order[1..], drop, inside, i, j, p - 1, q - 1);
    }
  }

  lemma SelectedInOrder(order: seq<AccountId>, drop: set<AccountId>, inside: bool)
    requires Distinct(order)
    ensures InOrder(order, Selected(order, drop, inside))
  {
    var some := Selected(order, drop, inside);
    forall i, j, p, q | 0 <= i < j < |some| && 0 <= p < |order| && 0 <= q < |order| && order[p] == some[i] && order[q] == some[j]
      ensures p < q
    {
      SelectedPlaces(order, drop, inside, i, j, p, q);
    }
  }

  /** Splitting the keys splits the totals. */
  lemma {:induction false} SelectedTotals(order: seq<AccountId>, drop: set<AccountId>, q: Queues)
    ensures TotalInts(order, q) == TotalInts(Selected(order, drop, false), q) + TotalInts(Selected(order, drop, true), q)
    ensures TotalLen(order, q) == TotalLen(Selected(order, drop, false), q) + TotalLen(Selected(order, drop, true), q)
  {
    if order != [] {
      SelectedTotals(order[1..], drop, q);
    }
  }

  lemma {:induction false} SelectedSnoc(order: seq<AccountId>, a: AccountId, drop: set<AccountId>, inside: bool)
    ensures Selected(order + [a], drop, inside) ==
            Selected(order, drop, inside) + (if (a in drop) == inside then [a] else [])
  {
    if order == [] {
      assert order + [a] == [a];
    } else {
      assert (order + [a])[1..] == order[1..] + [a];
      SelectedSnoc(order[1..], a, drop, inside);
    }
  }

  /** Accounts with nothing in their queue add nothing. */
  lemma {:induction false} EmptyTotals(order: seq<AccountId>, q: Queues)
    requires forall a :: a in order ==> Get(q, a) == []
    ensures TotalInts(order, q) == 0 && TotalLen(order, q) == 0
  {
    if order != [] {
      EmptyTotals(order[1..], q);
    }
  }

  /** No external message is queued for the listed accounts. */
  ghost predicate NoExternals(order: seq<AccountId>, q: Queues) {
    forall a, m :: a in order && m in Get(q, a) ==> m.Int?
  }

  lemma {:induction false} IntsAll(s: seq<Message>)
    ensures Ints(s) == |s| <==> forall m :: m in s ==> m.Int?
    ensures Ints(s) <= |s|
  {
    if s != [] {
      IntsAll(s[1..]);
      IntsBound(s[1..]);
      assert forall m :: m in s <==> m == s[0] || m in s[1..];
    }
  }

  lemma {:induction false} ExternalsCounted(order: seq<AccountId>, q: Queues)
    ensures TotalInts(order, q) <= TotalLen(order, q)
    ensures TotalInts(order, q) == TotalLen(order, q) <==> NoExternals(order, q)
  {
    if order != [] {
      ExternalsCounted(order[1..], q);
      IntsAll(Get(q, order[0]));
      assert forall a :: a in order <==> a == order[0] || a in order[1..];
    }
  }

  /** Brackets are numbered without gaps, and there is one for every length up to each queue's. */
  ghost predicate Brackets(index: map<nat, set<AccountId>>, q: Queues) {
    && (forall n :: n in index ==> n >= 1 && (n > 1 ==> n - 1 in index))
    && (forall a, n :: a in q && 1 <= n <= |q[a]| ==> n in index)
  }

  lemma BracketsShrink(index: map<nat, set<AccountId>>, q: Queues, r: Queues)
    requires Brackets(index, q)
    requires forall a :: a in r ==> a in q && |r[a]| <= |q[a]|
    ensures Brackets(index, r)
  {
  }

  /** Keys and queues of a buffer belong together. */
  ghost predicate Keyed(order: seq<AccountId>, q: Queues) {
    && KeysOf(order, q)
    && AllAddressed(q)
    && NoEmptyQueue(q)
  }

  function Appended(q: Queues, msg: Message): Queues {
    q[AccountOf(msg) := Get(q, AccountOf(msg)) + [msg]]
  }

  function AppendedOrder(order: seq<AccountId>, q: Queues, msg: Message): seq<AccountId> {
    if AccountOf(msg) in q then order else order + [AccountOf(msg)]
  }

  lemma AppendedKeyed(order: seq<AccountId>, q: Queues, msg: Message)
    requires Keyed(order, q)
    ensures Keyed(AppendedOrder(order, q, msg), Appended(q, msg))
  {
  }

  lemma AppendedTotals(order: seq<AccountId>, q: Queues, msg: Message)
    requires Keyed(order, q)
    ensures TotalInts(AppendedOrder(order, q, msg), Appended(q, msg)) ==
            TotalInts(order, q) + if msg.Int? then 1 else 0
    ensures TotalLen(AppendedOrder(order, q, msg), Appended(q, msg)) == TotalLen(order, q) + 1
  {
    var a, r := AccountOf(msg), Appended(q, msg);
    IntsConcat(Get(q, a), [msg]);
    if a in q {
      TotalUpdate(order, q, a, Get(q, a) + [msg]);
    } else {
      TotalFrame(order, q, r);
      TotalSnoc(order, r, a);
    }
  }

  /** Moving an account to the next bracket; the bracket it leaves must be there. */
  function Rebracketed(index: map<nat, set<AccountId>>, prev: nat, a: AccountId): map<nat, set<AccountId>>
    requires prev > 0 ==> prev in index
  {
    var left := if prev > 0 then index[prev := index[prev] - {a}] else index;
    left[prev + 1 := (if prev + 1 in left then left[prev + 1] else {}) + {a}]
  }

  ghost predicate InBracket(index: map<nat, set<AccountId>>, n: nat, a: AccountId) {
    n in index && a in index[n]
  }

  /** The account stands in the bracket of its queue's length, and in no other. */
  ghost predicate Standing(index: map<nat, set<AccountId>>, q: Queues, a: AccountId) {
    forall n :: InBracket(index, n, a) <==> n > 0 && n == |Get(q, a)|
  }

  /** As long as messages are only added, every account stands in the bracket of its queue's length. */
  lemma AppendedStanding(index: map<nat, set<AccountId>>, q: Queues, msg: Message, a: AccountId)
    requires Brackets(index, q) && Standing(index, q, a)
    ensures |Get(q, AccountOf(msg))| > 0 ==> |Get(q, AccountOf(msg))| in index
    ensures Standing(Rebracketed(index, |Get(q, AccountOf(msg))|, AccountOf(msg)), Appended(q, msg), a)
  {
    AppendedBrackets(index, q, msg);
    var prev, b := |Get(q, AccountOf(msg))|, AccountOf(msg);
    var after := Rebracketed(index, prev, b);
    forall n: nat ensures InBracket(after, n, a) <==> n > 0 && n == |Get(Appended(q, msg), a)| {
      assert InBracket(index, n, a) <==> n > 0 && n == |Get(q, a)|;
    }
  }

  lemma AppendedBrackets(index: map<nat, set<AccountId>>, q: Queues, msg: Message)
    requires Brackets(index, q)
    ensures |Get(q, AccountOf(msg))| > 0 ==> |Get(q, AccountOf(msg))| in index
    ensures Brackets(Rebracketed(index, |Get(q, AccountOf(msg))|, AccountOf(msg)), Appended(q, msg))
  {
  }

  /** Walks the keys, dropping the listed accounts and adding up what their queues held. */
  method RetainAccounts(order: seq<AccountId>, q: Queues, drop: set<AccountId>)
    returns (kept: seq<AccountId>, removed: nat)
    ensures kept == Selected(order, drop, false)
    ensures removed == TotalLen(Selected(order, drop, true), q)
  {
    kept, removed := [], 0;
    for i := 0 to |order|
      invariant kept == Selected(order[..i], drop, false)
      invariant removed == TotalLen(Selected(order[..i], drop, true), q)
    {
      var a := order[i];
      assert order[..i + 1] == order[..i] + [a];
      SelectedSnoc(order[..i], a, drop, false);
      SelectedSnoc(order[..i], a, drop, true);
      if a in drop {
        TotalSnoc(Selected(order[..i], drop, true), q, a);
        removed := removed + |Get(q, a)|;
      } else {
        assert Selected(order[..i + 1], drop, true) == Selected(order[..i], drop, true);
        kept := kept + [a];
      }
    }
    assert order[..|order|] == order;
  }

  lemma RetainedKeyed(order: seq<AccountId>, q: Queues, drop: set<AccountId>)
    requires Keyed(order, q)
    ensures Keyed(Selected(order, drop, false), q - drop)
  {
    SelectedMembers(order, drop, false);
  }

  lemma RetainedTotals(order: seq<AccountId>, q: Queues, drop: set<AccountId>)
    ensures TotalInts(Selected(order, drop, false), q - drop) ==
            TotalInts(order, q) - TotalInts(Selected(order, drop, true), q)
    ensures TotalLen(Selected(order, drop, false), q - drop) ==
            TotalLen(order, q) - TotalLen(Selected(order, drop, true), q)
  {
    SelectedTotals(order, drop, q);
    SelectedMembers(order, drop, false);
    TotalFrame(Selected(order, drop, false), q, q - drop);
  }

  /** The contents of a buffer; a negative counter stands for the underflow the unsigned one would have. */
  datatype Buffer = Buffer(msgs: Queues, order: seq<AccountId>, intCount: int, extCount: int) {
    /** By how much the counters differ from the buffered messages. */
    function IntDrift(): int { intCount - TotalInts(order, msgs) }
    function ExtDrift(): int { extCount - TotalExts(order, msgs) }
  }

  lemma EmptyBuffer(b: Buffer, index: map<nat, set<AccountId>>)
    requires b.msgs == map[] && b.order == [] && b.intCount == 0 && b.extCount == 0 && index == map[]
    ensures Keyed(b.order, b.msgs) && Brackets(index, b.msgs)
    ensures b.IntDrift() == 0 && b.ExtDrift() == 0
    ensures forall a :: Standing(index, b.msgs, a)
  {
  }

  class MessagesBuffer {
    var contents: Buffer
    var sortedIndex: map<nat, set<AccountId>>

    ghost predicate Valid()
      reads this
    {
      Keyed(contents.order, contents.msgs) && Brackets(sortedIndex, contents.msgs)
    }

    constructor ()
      ensures Valid() && contents.msgs == map[] && contents.order == []
      ensures contents.IntDrift() == 0 && contents.ExtDrift() == 0
      ensures sortedIndex == map[]
    {
      contents, sortedIndex := Buffer(map[], [], 0, 0), map[];
      new;
      EmptyBuffer(contents, sortedIndex);
    }

    /** Appends a message to its account's queue; the bracket the account leaves always exists. */
    method AddMessage(msg: Message)
      requires Valid()
      modifies this
      ensures Valid()
      ensures contents.msgs == Appended(old(contents.msgs), msg)
      ensures contents.order == AppendedOrder(old(contents.order), old(contents.msgs), msg)
      ensures contents.IntDrift() == old(contents.IntDrift()) && contents.ExtDrift() == old(contents.ExtDrift())
      ensures forall a :: old(Standing(sortedIndex, contents.msgs, a)) ==> Standing(sortedIndex, contents.msgs, a)
    {
      var b := contents;
      forall a | Standing(sortedIndex, b.msgs, a)
        ensures Standing(Rebracketed(sortedIndex, |Get(b.msgs, AccountOf(msg))|, AccountOf(msg)), Appended(b.msgs, msg), a)
      {
        AppendedStanding(sortedIndex, b.msgs, msg, a);
      }
      AppendedKeyed(b.order, b.msgs, msg);
      AppendedTotals(b.order, b.msgs, msg);
      AppendedBrackets(sortedIndex, b.msgs, msg);
      sortedIndex := Rebracketed(sortedIndex, |Get(b.msgs, AccountOf(msg))|, AccountOf(msg));
      contents := Buffer(Appended(b.msgs, msg), AppendedOrder(b.order, b.msgs, msg),
                         if msg.Int? then b.intCount + 1 else b.intCount,
                         if msg.Int? then b.extCount else b.extCount + 1);
    }

    /** Removes whole queues and charges all of them to the internals counter. */
    method RemoveMessagesByAccounts(drop: set<AccountId>)
      requires Valid()
      modifies this`contents
      ensures Valid()
      ensures contents.msgs == old(contents.msgs) - drop
      ensures contents.order == Selected(old(contents.order), drop, false) && InOrder(old(contents.order), contents.order)
      ensures contents.extCount == old(contents.extCount)
      ensures contents.intCount ==
              old(contents.intCount) - TotalLen(Selected(old(contents.order), drop, true), old(contents.msgs))
      ensures var gone := Selected(old(contents.order), drop, true);
              && contents.IntDrift() == old(contents.IntDrift()) - TotalExts(gone, old(contents.msgs))
              && contents.ExtDrift() == old(contents.ExtDrift()) + TotalExts(gone, old(contents.msgs))
    {
      var b := contents;
      RetainedKeyed(b.order, b.msgs, drop);
      SelectedInOrder(b.order, drop, false);
      RetainedTotals(b.order, b.msgs, drop);
      BracketsShrink(sortedIndex, b.msgs, b.msgs - drop);
      var kept, removed := RetainAccounts(b.order, b.msgs, drop);
      contents := Buffer(b.msgs - drop, kept, b.intCount - removed, b.extCount);
    }

    /**
     * Packs queued messages into the group's slots: at most `slotsCount` slots of at most `slotVertSize` messages.
     * `log` lists the moved messages in the order they were moved.
     */
    method FillMessageGroup(group: MessageGroup, slotsCount: nat, slotVertSize: nat,
                            skip: AccountId -> bool, filter: Filter)
      returns (keys: seq<nat>, skipped: int, ghost log: seq<Message>)
      requires Valid() && group.Valid()
      // a listed slot that is picked up must not be over the limit already
      requires Ready(group.contents.index, group.contents.slots, slotVertSize)
      modifies this`contents, group
      ensures Valid() && group.Valid()
      ensures Delivered(filter, old(contents), old(group.contents), contents, group.contents, log)
      ensures Counted(old(contents), contents, log, skipped) && keys == IntKeys(log)
      ensures Limited(slotsCount, slotVertSize, old(group.contents), old(group.home), group.contents, group.home)
      ensures Busy(slotsCount, slotVertSize, skip, contents, group.contents, group.home)
      ensures Expires(filter, slotVertSize, old(group.contents.msgs), contents.msgs, log)
      ensures InTurn(old(contents.order), skip, slotVertSize, old(group.contents.msgs), contents.msgs, log)
      ensures InOrder(old(contents.order), contents.order)
      ensures IndexFollows(old(group.contents).index, old(group.contents).slots, group.contents.slots, group.contents.index)
      ensures Fair(filter, slotsCount, slotVertSize, skip, old(contents), old(group.contents), old(group.home),
                   contents, group.contents, group.home, log)
    {
      var b, g;
      ghost var t;
      b, g, keys, skipped, t :=
        FillValues(Job(skip, filter, slotVertSize), slotsCount, contents, group.contents, group.home, sortedIndex);
      log := t.log;
      contents := b;
      group.contents, group.home := g, t.home;
    }
  }

  /** When exact counters stay exact: the removed accounts hold no external message. */
  lemma RemovalKeepsCounters(order: seq<AccountId>, q: Queues, drop: set<AccountId>)
    ensures TotalExts(Selected(order, drop, true), q) == 0 <==> NoExternals(Selected(order, drop, true), q)
  {
    ExternalsCounted(Selected(order, drop, true), q);
  }

  /** First-in first-out per account: a kept prefix of each queue moved; nothing is lost but what the filter drops. */
  ghost predicate Delivered(f: Filter, b0: Buffer, g0: Group, b: Buffer, g: Group, log: seq<Message>) {
    Grouped(g0.msgs, g.msgs, log) && Drawn(f, b0.msgs, b.msgs, log)
  }

  ghost predicate Drawn(f: Filter, q0: Queues, q: Queues, log: seq<Message>) {
    forall a :: Cut(f, Get(q0, a), Get(q, a), ByAccount(log, a))
  }

  /** The counters move with the messages, so their distance to the contents stays what it was. */
  ghost predicate Counted(b0: Buffer, b: Buffer, log: seq<Message>, skipped: int) {
    && b.intCount == b0.intCount - Ints(log)
    && b.extCount == b0.extCount - Exts(log) - skipped
    && b.IntDrift() == b0.IntDrift()
    && b.ExtDrift() == b0.ExtDrift()
  }

  /** Accounts keep their slot; slots that grew fit; slots are opened one id after the other, no more than asked for. */
  ghost predicate Limited(slotsCount: nat, vert: nat, g0: Group, home0: map<AccountId, SlotId>,
                          g: Group, home: map<AccountId, SlotId>) {
    && (forall a :: a in home0 ==> a in home && home[a] == home0[a])
    && Within(vert, g0.slots, g.slots)
    && Numbering(slotsCount, g0.slots, g.slots, g0.lastSlotId, g.lastSlotId)
  }

  /** No account that passes the check is left behind while there is room for it. */
  ghost predicate Busy(slotsCount: nat, vert: nat, skip: AccountId -> bool, b: Buffer, g: Group,
                       home: map<AccountId, SlotId>) {
    vert > 0 ==> forall a :: a in b.msgs && !skip(a) ==>
      || (a in home && home[a] in g.slots && g.slots[home[a]].Size() >= vert)
      || (|g.slots| >= slotsCount && AllFull(g.slots, vert))
  }

  /**
   * Who is served when. New slots come before old ones, and each gets one account before any gets a second one;
   * while nothing is expired none gets two ahead of another that has room. Old slots are served in the order of the
   * index, each from its own accounts in their order before anyone else joins.
   */
  ghost predicate Fair(f: Filter, slotsCount: nat, vert: nat, skip: AccountId -> bool,
                       b0: Buffer, g0: Group, home0: map<AccountId, SlotId>, b: Buffer, g: Group, home: map<AccountId, SlotId>,
                       log: seq<Message>)
  {
    && NewFirst(g0.slots, home0, slotsCount, vert, g.slots, home)
    && (|g.slots| < slotsCount ==> OneEach(g0.slots, g.slots))
    && (Calm(f, b0.msgs) ==> Even(g0.slots, g.slots, vert))
    && InListOrder(g0.index, g0.slots, home0, vert, g.slots, home)
    && (forall id :: id in g0.slots ==>
          id in g.slots && TakesTurns(skip, g0.slots[id].accounts, home0, id, b.msgs, g.slots[id].accounts, home, log))
  }

  /** A fill on the contents of a buffer and a group. */
  method FillValues(job: Job, slotsCount: nat, b0: Buffer, g0: Group, ghost home0: map<AccountId, SlotId>,
                    ghost brackets: map<nat, set<AccountId>>)
    returns (b: Buffer, g: Group, keys: seq<nat>, skipped: int, ghost t: Trace)
    requires Keyed(b0.order, b0.msgs) && Brackets(brackets, b0.msgs)
    requires GroupOk(g0, home0) && Ready(g0.index, g0.slots, job.vert)
    ensures Keyed(b.order, b.msgs) && Brackets(brackets, b.msgs)
    ensures GroupOk(g, t.home) && IndexFollows(g0.index, g0.slots, g.slots, g.index)
    ensures Delivered(job.filter, b0, g0, b, g, t.log)
    ensures Counted(b0, b, t.log, skipped) && keys == IntKeys(t.log)
    ensures Limited(slotsCount, job.vert, g0, home0, g, t.home)
    ensures Busy(slotsCount, job.vert, job.skip, b, g, t.home)
    ensures Expires(job.filter, job.vert, g0.msgs, b.msgs, t.log)
    ensures InTurn(b0.order, job.skip, job.vert, g0.msgs, b.msgs, t.log)
    ensures InOrder(b0.order, b.order)
    ensures Fair(job.filter, slotsCount, job.vert, job.skip, b0, g0, home0, b, g, t.home, t.log)
  {
    var v0 := State(b0.msgs, b0.intCount, b0.extCount, g0.msgs, g0.slots, map[], [], 0);
    FillStart(job, b0, g0, home0, v0);
    var v, last;
    v, last, t := Fill(job, slotsCount, b0.order, v0, g0.index, g0.lastSlotId, home0);
    FilledTracked(job, b0.order, v0, v, t);
    g := FinishGroup(g0, v, last, home0, t);
    b := FinishBuffer(b0.order, v);
    FinishedBuffer(job, b0, v0, v, brackets, t, b);
    keys, skipped := v.keys, v.skipped;
    FilledWork(job, slotsCount, v, t, b, g);
    FilledTurns(job, b0.order, g0, v, t, b);
    FilledFair(job, slotsCount, b0, g0, home0, v0, v, t, b, g);
    SelectedInOrder(b0.order, Drainable(v), false);
    FilledLimits(job, slotsCount, b0.order, v0, home0, v, t, g0, g);
  }

  /** The group after a fill, with its index and totals brought up to date. */
  method FinishGroup(g0: Group, v: State, last: Option<SlotId>, ghost home0: map<AccountId, SlotId>, ghost t: Trace)
    returns (g: Group)
    requires GroupOk(g0, home0)
    requires Tracked(g0.slots, v.slots, v.updates) && Packed(v.grp, v.slots, t.home) && NoEmptySlot(v.slots)
    requires Below(v.slots, Limit(last)) && Limit(g0.lastSlotId) <= Limit(last)
    ensures GroupOk(g, t.home)
    ensures g.msgs == v.grp && g.slots == v.slots && g.lastSlotId == last
    ensures IndexFollows(g0.index, g0.slots, g.slots, g.index)
  {
    var index, ints, exts := ApplyIndexUpdates(g0.index, v.slots, g0.intCount, g0.extCount, Limit(last),
                                               v.updates, g0.slots, Limit(g0.lastSlotId));
    FollowsIs(g0.index, g0.slots, v.slots, index, v.updates, Limit(last));
    g := Group(v.grp, v.slots, last, index, ints, exts);
  }

  ghost function Drainable(v: State): set<AccountId> {
    set a | a in v.buf && v.buf[a] == []
  }

  /** The buffer after a fill, with drained accounts taken out. */
  method FinishBuffer(order: seq<AccountId>, v: State)
    returns (b: Buffer)
    ensures b == Buffer(v.buf - Drainable(v), Selected(order, Drainable(v), false), v.ints, v.exts)
  {
    var empty := set a | a in v.buf && v.buf[a] == [];
    var kept, _ := RetainAccounts(order, v.buf, empty);
    b := Buffer(v.buf - empty, kept, v.ints, v.exts);
  }

  lemma FinishedBuffer(job: Job, b0: Buffer, v0: State, v: State, brackets: map<nat, set<AccountId>>, t: Trace, b: Buffer)
    requires Keyed(b0.order, b0.msgs) && Brackets(brackets, b0.msgs)
    requires Inv(job.filter, job.vert, b0.order, v0, v, t) && v0.skipped == 0
    requires v0.buf == b0.msgs && v0.ints == b0.intCount && v0.exts == b0.extCount
    requires b == Buffer(v.buf - Drainable(v), Selected(b0.order, Drainable(v), false), v.ints, v.exts)
    ensures Keyed(b.order, b.msgs) && Brackets(brackets, b.msgs)
    ensures Drawn(job.filter, b0.msgs, b.msgs, t.log)
    ensures Counted(b0, b, t.log, v.skipped)
  {
    FilledQueues(job, b0.order, v0, v, t, Drainable(v));
    FilledKeys(job, b0.order, v0, v, t, Drainable(v));
    FilledBrackets(job, b0.order, v0, v, t, brackets, Drainable(v));
    FilledCounts(job, b0, v0, v, t, Drainable(v), b);
  }

  lemma FilledLimits(job: Job, slotsCount: nat, order: seq<AccountId>, v0: State, home0: map<AccountId, SlotId>,
                     v: State, t: Trace, g0: Group, g: Group)
    requires Inv(job.filter, job.vert, order, v0, v, t) && Grows(v0, Trace(home0, []), v, t)
    requires g0.slots == v0.slots && g.slots == v.slots
    requires Numbering(slotsCount, g0.slots, g.slots, g0.lastSlotId, g.lastSlotId)
    ensures Limited(slotsCount, job.vert, g0, home0, g, t.home)
  {
  }

  lemma FillStart(job: Job, b0: Buffer, g0: Group, home0: map<AccountId, SlotId>, v0: State)
    requires Keyed(b0.order, b0.msgs) && GroupOk(g0, home0) && Ready(g0.index, g0.slots, job.vert)
    requires v0 == State(b0.msgs, b0.intCount, b0.extCount, g0.msgs, g0.slots, map[], [], 0)
    ensures CanStart(job, StartOf(job, b0.order, v0, home0), g0.index, g0.lastSlotId)
  {
  }

  lemma FilledTracked(job: Job, order: seq<AccountId>, v0: State, v: State, t: Trace)
    requires Inv(job.filter, job.vert, order, v0, v, t)
    ensures Tracked(v0.slots, v.slots, v.updates) && Packed(v.grp, v.slots, t.home)
    ensures Within(job.vert, v0.slots, v.slots)
    ensures v0.keys == [] ==> v.keys == IntKeys(t.log)
    ensures Grouped(v0.grp, v.grp, t.log)
  {
  }

  lemma CutShorter(f: Filter, b0: seq<Message>, b: seq<Message>, x: seq<Message>)
    requires Cut(f, b0, b, x)
    ensures |b| <= |b0|
  {
    var k :| CutAt(f, b0, b, x, k);
    KeptMembers(f, b0[k..]);
  }

  lemma FilledQueue(f: Filter, buf0: Queues, buf: Queues, log: seq<Message>, empty: set<AccountId>, a: AccountId)
    requires Drained(f, buf0, buf, log)
    requires a in empty ==> a in buf && buf[a] == []
    ensures Cut(f, Get(buf0, a), Get(buf - empty, a), ByAccount(log, a))
  {
    if a in buf {
      assert Cut(f, buf0[a], buf[a], ByAccount(log, a));
      assert Get(buf - empty, a) == buf[a];
    } else {
      CutStart(f, []);
    }
  }

  /** Each queue after a fill, once drained accounts are taken out. */
  lemma FilledQueues(job: Job, order: seq<AccountId>, v0: State, v: State, t: Trace, empty: set<AccountId>)
    requires Inv(job.filter, job.vert, order, v0, v, t)
    requires empty == Drainable(v)
    ensures Drawn(job.filter, v0.buf, v.buf - empty, t.log)
  {
    forall a ensures Cut(job.filter, Get(v0.buf, a), Get(v.buf - empty, a), ByAccount(t.log, a)) {
      FilledQueue(job.filter, v0.buf, v.buf, t.log, empty, a);
    }
  }

  lemma FilledKeys(job: Job, order: seq<AccountId>, v0: State, v: State, t: Trace, empty: set<AccountId>)
    requires Inv(job.filter, job.vert, order, v0, v, t) && Keyed(order, v0.buf)
    requires empty == Drainable(v)
    ensures Keyed(Selected(order, empty, false), v.buf - empty)
  {
    SelectedMembers(order, empty, false);
  }

  lemma FilledBrackets(job: Job, order: seq<AccountId>, v0: State, v: State, t: Trace,
                       index: map<nat, set<AccountId>>, empty: set<AccountId>)
    requires Inv(job.filter, job.vert, order, v0, v, t) && Brackets(index, v0.buf)
    ensures Brackets(index, v.buf - empty)
  {
    forall a | a in v.buf ensures |v.buf[a]| <= |v0.buf[a]| {
      CutShorter(job.filter, v0.buf[a], v.buf[a], ByAccount(t.log, a));
    }
    BracketsShrink(index, v0.buf, v.buf - empty);
  }

  lemma FilledCounts(job: Job, b0: Buffer, v0: State, v: State, t: Trace, empty: set<AccountId>, b: Buffer)
    requires Inv(job.filter, job.vert, b0.order, v0, v, t) && v0.skipped == 0
    requires v0.buf == b0.msgs && v0.ints == b0.intCount && v0.exts == b0.extCount
    requires empty == Drainable(v)
    requires b == Buffer(v.buf - empty, Selected(b0.order, empty, false), v.ints, v.exts)
    ensures Counted(b0, b, t.log, v.skipped)
  {
    FilledTotals(b0.order, v, empty);
    BalancedCounts(b0, v0, v, t.log, b);
  }

  lemma BalancedCounts(b0: Buffer, v0: State, v: State, log: seq<Message>, b: Buffer)
    requires Balanced(b0.order, v0, v, log) && v0.skipped == 0
    requires v0.buf == b0.msgs && v0.ints == b0.intCount && v0.exts == b0.extCount
    requires b.intCount == v.ints && b.extCount == v.exts
    requires TotalInts(b.order, b.msgs) == TotalInts(b0.order, v.buf) && TotalLen(b.order, b.msgs) == TotalLen(b0.order, v.buf)
    ensures Counted(b0, b, log, v.skipped)
  {
  }

  lemma FilledTotals(order: seq<AccountId>, v: State, empty: set<AccountId>)
    requires empty == Drainable(v)
    ensures TotalInts(Selected(order, empty, false), v.buf - empty) == TotalInts(order, v.buf)
    ensures TotalLen(Selected(order, empty, false), v.buf - empty) == TotalLen(order, v.buf)
  {
    RetainedTotals(order, v.buf, empty);
    SelectedMembers(order, empty, true);
    EmptyTotals(Selected(order, empty, true), v.buf);
  }

  /** Taking drained accounts out changes no queue. */
  lemma FilledTurns(job: Job, order: seq<AccountId>, g0: Group, v: State, t: Trace, b: Buffer)
    requires b.msgs == v.buf - Drainable(v)
    requires Expires(job.filter, job.vert, g0.msgs, v.buf, t.log)
    requires InTurn(order, job.skip, job.vert, g0.msgs, v.buf, t.log)
    ensures Expires(job.filter, job.vert, g0.msgs, b.msgs, t.log)
    ensures InTurn(order, job.skip, job.vert, g0.msgs, b.msgs, t.log)
  {
    assert forall a :: Get(b.msgs, a) == Get(v.buf, a);
  }

  lemma FilledFair(job: Job, slotsCount: nat, b0: Buffer, g0: Group, home0: map<AccountId, SlotId>,
                   v0: State, v: State, t: Trace, b: Buffer, g: Group)
    requires v0.buf == b0.msgs && v0.slots == g0.slots && b.msgs == v.buf - Drainable(v) && g.slots == v.slots
    requires Scheduled(job, StartOf(job, b0.order, v0, home0), g0.index, slotsCount, v, t)
    ensures Fair(job.filter, slotsCount, job.vert, job.skip, b0, g0, home0, b, g, t.home, t.log)
  {
    forall id | id in g0.slots
      ensures id in g.slots
      ensures TakesTurns(job.skip, g0.slots[id].accounts, home0, id, b.msgs, g.slots[id].accounts, t.home, t.log)
    {
      ServedOf(job, StartOf(job, b0.order, v0, home0), g0.index, v, t, id);
      SameSpent(job.skip, v, b.msgs, g0.slots[id].accounts);
    }
  }

  lemma SameSpent(skip: AccountId -> bool, v: State, buf: Queues, list: seq<AccountId>)
    requires buf == v.buf - Drainable(v)
    ensures forall i :: 0 <= i < |list| ==> (Spent(skip, buf, list[i]) <==> Spent(skip, v.buf, list[i]))
  {
    forall i | 0 <= i < |list| ensures Get(buf, list[i]) == Get(v.buf, list[i]) {
    }
  }

  lemma FilledWork(job: Job, slotsCount: nat, v: State, t: Trace, b: Buffer, g: Group)
    requires WorkConserving(job, slotsCount, v, t)
    requires g.slots == v.slots && b.msgs == v.buf - Drainable(v)
    ensures Busy(slotsCount, job.vert, job.skip, b, g, t.home)
  {
  }
}
