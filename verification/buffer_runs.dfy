/** Whole runs of calls on a messages buffer, seen from each account. */
module BufferRuns {
  import opened Messages
  import opened Slots
  import opened Filling
  import opened FillPhases
  import opened MessageGroups
  import opened MessagesBuffers
  import opened Sequences
  import FillRuns

  /** A call with what it did: `log` lists the messages a fill moved, in order; `externals` were among those removed. */
  datatype Call =
    | AddMessage(msg: Message)
    | FillGroup(filter: Filter, log: seq<Message>)
    | RemoveAccounts(drop: set<AccountId>, externals: nat)

  /** How many external messages the listed accounts hold. */
  ghost predicate Externals(q: Queues, drop: set<AccountId>, n: int) {
    exists order :: KeysOf(order, q) && n == TotalExts(Selected(order, drop, true), q)
  }

  ghost predicate NoneExternal(q: Queues, drop: set<AccountId>) {
    forall a, m :: a in drop && m in Get(q, a) ==> m.Int?
  }

  lemma NoExternalsCounted(q: Queues, drop: set<AccountId>, n: int)
    requires Externals(q, drop, n)
    ensures 0 <= n && (n == 0 <==> NoneExternal(q, drop))
  {
    var order :| KeysOf(order, q) && n == TotalExts(Selected(order, drop, true), q);
    ExternalsCounted(Selected(order, drop, true), q);
    SelectedMembers(order, drop, true);
    forall a | a in drop && Get(q, a) != []
      ensures a in Selected(order, drop, true)
    {
      assert a in order;
    }
  }

  /** What a call does to the queues, as the buffer's methods promise it. */
  ghost predicate CallStep(q: Queues, call: Call, q': Queues) {
    match call
    case AddMessage(m) => q' == Appended(q, m)
    case FillGroup(f, log) => Drawn(f, q, q', log)
    case RemoveAccounts(drop, externals) => q' == q - drop && Externals(q, drop, externals)
  }

  /** The call as one account sees it, if it sees it at all. */
  function EventsFor(call: Call, q: Queues, q': Queues, a: AccountId): seq<FillRuns.Event> {
    match call
    case AddMessage(m) => if AccountOf(m) == a then [FillRuns.Add(m)] else []
    case FillGroup(f, log) => [FillRuns.Fill(f, Get(q', a), ByAccount(log, a))]
    case RemoveAccounts(drop, _) => if a in drop then [FillRuns.Remove(Get(q, a))] else []
  }

  ghost predicate CallRun(queues: seq<Queues>, calls: seq<Call>) {
    |queues| == |calls| + 1 && forall i :: 0 <= i < |calls| ==> CallAt(queues, calls, i)
  }

  ghost predicate CallAt(queues: seq<Queues>, calls: seq<Call>, i: int) {
    0 <= i < |calls| && i + 1 < |queues| && CallStep(queues[i], calls[i], queues[i + 1])
  }

  lemma CallRunPrefix(queues: seq<Queues>, calls: seq<Call>, n: nat)
    requires CallRun(queues, calls) && n <= |calls|
    ensures CallRun(queues[..n + 1], calls[..n])
  {
    var (qs, cs) := (queues[..n + 1], calls[..n]);
    forall i | 0 <= i < n
      ensures CallAt(qs, cs, i)
    {
      assert CallAt(queues, calls, i);
    }
  }

  function EventsOf(queues: seq<Queues>, calls: seq<Call>, a: AccountId): seq<FillRuns.Event>
    requires |queues| == |calls| + 1
  {
    if calls == [] then []
    else
      var n := |calls| - 1;
      EventsOf(queues[..n + 1], calls[..n], a) + EventsFor(calls[n], queues[n], queues[n + 1], a)
  }

  lemma {:induction false} LeadsConcat(x: seq<FillRuns.Event>, y: seq<FillRuns.Event>,
                                       p: seq<Message>, q: seq<Message>, r: seq<Message>)
    requires FillRuns.Leads(x, p, q) && FillRuns.Leads(y, q, r)
    ensures FillRuns.Leads(x + y, p, r)
    decreases |x|
  {
    if x == [] {
      assert x + y == y;
    } else {
      assert (x + y)[1..] == x[1..] + y && (x + y)[0] == x[0];
      match x[0]
      case Add(m) => LeadsConcat(x[1..], y, p + [m], q, r);
      case Fill(f, b, _) => LeadsConcat(x[1..], y, b, q, r);
      case Remove(_) => LeadsConcat(x[1..], y, [], q, r);
    }
  }

  lemma CallLeads(q: Queues, call: Call, q': Queues, a: AccountId)
    requires CallStep(q, call, q')
    ensures FillRuns.Leads(EventsFor(call, q, q', a), Get(q, a), Get(q', a))
  {
    var es := EventsFor(call, q, q', a);
    assert es != [] ==> es[1..] == [];
  }

  /** Any sequence of calls on a buffer is, for each account, a run of its events. */
  lemma {:induction false} CallsLead(queues: seq<Queues>, calls: seq<Call>, a: AccountId)
    requires CallRun(queues, calls)
    ensures FillRuns.Leads(EventsOf(queues, calls, a), Get(queues[0], a), Get(queues[|calls|], a))
    decreases |calls|
  {
    if calls != [] {
      var n := |calls| - 1;
      CallRunPrefix(queues, calls, n);
      CallsLead(queues[..n + 1], calls[..n], a);
      assert CallAt(queues, calls, n);
      CallLeads(queues[n], calls[n], queues[n + 1], a);
      LeadsConcat(EventsOf(queues[..n + 1], calls[..n], a), EventsFor(calls[n], queues[n], queues[n + 1], a),
                  Get(queues[0], a), Get(queues[n], a), Get(queues[n + 1], a));
    }
  }

  /** The messages added for an account, in the order of the calls. */
  function AddedFor(calls: seq<Call>, a: AccountId): seq<Message> {
    if calls == [] then []
    else
      var n := |calls| - 1;
      AddedFor(calls[..n], a) + if calls[n].AddMessage? && AccountOf(calls[n].msg) == a then [calls[n].msg] else []
  }

  /** The messages all fills moved, in order. */
  function LogOf(calls: seq<Call>): seq<Message> {
    if calls == [] then []
    else
      var n := |calls| - 1;
      LogOf(calls[..n]) + if calls[n].FillGroup? then calls[n].log else []
  }

  lemma {:induction false} AddedConcat(x: seq<FillRuns.Event>, y: seq<FillRuns.Event>)
    ensures FillRuns.Added(x + y) == FillRuns.Added(x) + FillRuns.Added(y)
  {
    if x == [] {
      assert x + y == y;
    } else {
      assert (x + y)[1..] == x[1..] + y;
      AddedConcat(x[1..], y);
      ConcatAssoc(if x[0].Add? then [x[0].msg] else [], FillRuns.Added(x[1..]), FillRuns.Added(y));
    }
  }

  lemma {:induction false} DeliveredConcat(x: seq<FillRuns.Event>, y: seq<FillRuns.Event>)
    ensures FillRuns.Delivered(x + y) == FillRuns.Delivered(x) + FillRuns.Delivered(y)
  {
    if x == [] {
      assert x + y == y;
    } else {
      assert (x + y)[1..] == x[1..] + y;
      DeliveredConcat(x[1..], y);
      ConcatAssoc(if x[0].Fill? then x[0].moved else [], FillRuns.Delivered(x[1..]), FillRuns.Delivered(y));
    }
  }

  lemma EventsForCall(call: Call, q: Queues, q': Queues, a: AccountId)
    ensures FillRuns.Added(EventsFor(call, q, q', a)) == if call.AddMessage? && AccountOf(call.msg) == a then [call.msg] else []
    ensures FillRuns.Delivered(EventsFor(call, q, q', a)) == ByAccount(if call.FillGroup? then call.log else [], a)
  {
    var es := EventsFor(call, q, q', a);
    assert es != [] ==> es[1..] == [];
  }

  /** Each account's events tell what was added for it and what was moved of it. */
  lemma {:induction false} EventsTell(queues: seq<Queues>, calls: seq<Call>, a: AccountId)
    requires |queues| == |calls| + 1
    ensures FillRuns.Added(EventsOf(queues, calls, a)) == AddedFor(calls, a)
    ensures FillRuns.Delivered(EventsOf(queues, calls, a)) == ByAccount(LogOf(calls), a)
    decreases |calls|
  {
    if calls != [] {
      var n := |calls| - 1;
      EventsTell(queues[..n + 1], calls[..n], a);
      EventsForCall(calls[n], queues[n], queues[n + 1], a);
      AddedConcat(EventsOf(queues[..n + 1], calls[..n], a), EventsFor(calls[n], queues[n], queues[n + 1], a));
      DeliveredConcat(EventsOf(queues[..n + 1], calls[..n], a), EventsFor(calls[n], queues[n], queues[n + 1], a));
      ByAccountConcat(LogOf(calls[..n]), if calls[n].FillGroup? then calls[n].log else [], a);
    }
  }

  ghost predicate Within(calls: seq<Call>, strict: Filter) {
    forall i :: 0 <= i < |calls| && calls[i].FillGroup? ==> FillRuns.Weaker(calls[i].filter, strict)
  }

  lemma {:induction false} EventFilters(queues: seq<Queues>, calls: seq<Call>, a: AccountId, strict: Filter)
    requires |queues| == |calls| + 1 && Within(calls, strict)
    ensures forall e :: e in EventsOf(queues, calls, a) && e.Fill? ==> FillRuns.Weaker(e.filter, strict)
    decreases |calls|
  {
    if calls != [] {
      var n := |calls| - 1;
      EventFilters(queues[..n + 1], calls[..n], a, strict);
    }
  }

  /** Over any sequence of additions, fills and removals: what the strictest filter keeps of an account's messages leaves
    its queue in the order of the additions, and what is left is still queued. */
  lemma CallsInOrder(queues: seq<Queues>, calls: seq<Call>, a: AccountId, strict: Filter)
    requires CallRun(queues, calls) && Within(calls, strict)
    ensures Kept(strict, FillRuns.Left(EventsOf(queues, calls, a))) + Kept(strict, Get(queues[|calls|], a))
         == Kept(strict, Get(queues[0], a) + AddedFor(calls, a))
  {
    CallsLead(queues, calls, a);
    EventFilters(queues, calls, a, strict);
    EventsTell(queues, calls, a);
    FillRuns.RunInOrder(EventsOf(queues, calls, a), Get(queues[0], a), Get(queues[|calls|], a), strict);
  }

  // --- the objects ---

  datatype Request =
    | ToAdd(msg: Message)
    | ToFill(slotsCount: nat, skip: AccountId -> bool, filter: Filter)
    | ToRemove(drop: set<AccountId>)

  ghost predicate Answers(r: Request, call: Call) {
    match r
    case ToAdd(m) => call == AddMessage(m)
    case ToFill(_, _, f) => call.FillGroup? && call.filter == f
    case ToRemove(drop) => call.RemoveAccounts? && call.drop == drop
  }

  /** No slot is higher than `vert`. */
  ghost predicate Low(slots: SlotMap, vert: nat) {
    forall id :: id in slots ==> slots[id].Size() <= vert
  }

  /** How many external messages a call removed. */
  function ExternalsOf(call: Call): nat {
    if call.RemoveAccounts? then call.externals else 0
  }

  function RemovedExternals(calls: seq<Call>): nat {
    if calls == [] then 0
    else
      var n := |calls| - 1;
      RemovedExternals(calls[..n]) + ExternalsOf(calls[n])
  }

  lemma RemovedSnoc(calls: seq<Call>, call: Call)
    ensures RemovedExternals(calls + [call]) == RemovedExternals(calls) + ExternalsOf(call)
  {
    assert (calls + [call])[..|calls|] == calls;
  }

  ghost predicate KeepsExternals(queues: seq<Queues>, calls: seq<Call>, i: int) {
    0 <= i < |calls| && i < |queues| && calls[i].RemoveAccounts? ==> NoneExternal(queues[i], calls[i].drop)
  }

  ghost predicate AllKeep(queues: seq<Queues>, calls: seq<Call>, n: nat) {
    forall i :: 0 <= i < n ==> KeepsExternals(queues, calls, i)
  }

  lemma KeepsIff(q: Queues, call: Call, q': Queues)
    requires CallStep(q, call, q')
    ensures ExternalsOf(call) == 0 <==> (call.RemoveAccounts? ==> NoneExternal(q, call.drop))
  {
    if call.RemoveAccounts? {
      NoExternalsCounted(q, call.drop, call.externals);
    }
  }

  /** A run removes no external message exactly when no removed queue held one. */
  lemma {:induction false} NoneRemovedIff(queues: seq<Queues>, calls: seq<Call>, n: nat)
    requires CallRun(queues, calls) && n <= |calls|
    ensures RemovedExternals(calls[..n]) == 0 <==> AllKeep(queues, calls, n)
  {
    if n > 0 {
      NoneRemovedIff(queues, calls, n - 1);
      RemovedSnoc(calls[..n - 1], calls[n - 1]);
      assert calls[..n] == calls[..n - 1] + [calls[n - 1]];
      assert CallAt(queues, calls, n - 1);
      KeepsIff(queues[n - 1], calls[n - 1], queues[n]);
      AllKeepOneMore(queues, calls, n - 1);
    }
  }

  lemma AllKeepOneMore(queues: seq<Queues>, calls: seq<Call>, n: nat)
    ensures AllKeep(queues, calls, n + 1) <==> AllKeep(queues, calls, n) && KeepsExternals(queues, calls, n)
  {
  }

  /** Both counters have moved away from the contents by this number. */
  ghost predicate Shifted(b0: Buffer, b: Buffer, n: int) {
    b.IntDrift() == b0.IntDrift() - n && b.ExtDrift() == b0.ExtDrift() + n
  }

  lemma ShiftedTwice(b0: Buffer, b1: Buffer, b2: Buffer, n: int, k: int)
    requires Shifted(b0, b1, n) && Shifted(b1, b2, k)
    ensures Shifted(b0, b2, n + k)
  {
  }

  /** A fill with one slot height finds no slot above it and leaves none. */
  method PerformFill(b: MessagesBuffer, g: MessageGroup, slotsCount: nat, skip: AccountId -> bool, f: Filter, vert: nat)
    returns (ghost log: seq<Message>)
    requires b.Valid() && g.Valid() && Low(g.contents.slots, vert)
    modifies b, g
    ensures b.Valid() && g.Valid() && Low(g.contents.slots, vert)
    ensures Drawn(f, old(b.contents.msgs), b.contents.msgs, log)
    ensures Grouped(old(g.contents.msgs), g.contents.msgs, log)
    ensures Shifted(old(b.contents), b.contents, 0)
  {
    LowIsReady(g.contents, g.home, vert);
    ghost var (before, home) := (g.contents, g.home);
    var _, _, moved := b.FillMessageGroup(g, slotsCount, vert, skip, f);
    log := moved;
    StaysLow(slotsCount, vert, before, home, g.contents, g.home);
  }

  lemma LowIsReady(g: Group, home: map<AccountId, SlotId>, vert: nat)
    requires GroupOk(g, home) && Low(g.slots, vert)
    ensures Ready(g.index, g.slots, vert)
  {
  }

  lemma StaysLow(slotsCount: nat, vert: nat, g0: Group, home0: map<AccountId, SlotId>, g: Group, home: map<AccountId, SlotId>)
    requires Limited(slotsCount, vert, g0, home0, g, home) && Low(g0.slots, vert)
    ensures Low(g.slots, vert)
  {
  }

  lemma GroupedSame(grp: Queues)
    ensures Grouped(grp, grp, [])
  {
    assert forall a :: Get(grp, a) + [] == Get(grp, a);
  }

  lemma RemovedBy(b: Buffer, drop: set<AccountId>) returns (n: nat)
    requires KeysOf(b.order, b.msgs)
    ensures n == TotalExts(Selected(b.order, drop, true), b.msgs) && Externals(b.msgs, drop, n)
  {
    ExternalsCounted(Selected(b.order, drop, true), b.msgs);
    n := TotalExts(Selected(b.order, drop, true), b.msgs);
  }

  /** One call on a buffer and the group it fills. */
  method Perform(b: MessagesBuffer, g: MessageGroup, r: Request, vert: nat) returns (ghost call: Call)
    requires b.Valid() && g.Valid() && Low(g.contents.slots, vert)
    modifies b, g
    ensures b.Valid() && g.Valid() && Low(g.contents.slots, vert)
    ensures Answers(r, call) && CallStep(old(b.contents.msgs), call, b.contents.msgs)
    ensures Grouped(old(g.contents.msgs), g.contents.msgs, if call.FillGroup? then call.log else [])
    ensures Shifted(old(b.contents), b.contents, ExternalsOf(call))
  {
    GroupedSame(g.contents.msgs);
    match r {
      case ToAdd(m) =>
        b.AddMessage(m);
        call := AddMessage(m);
      case ToFill(slotsCount, skip, f) =>
        ghost var log := PerformFill(b, g, slotsCount, skip, f, vert);
        call := FillGroup(f, log);
      case ToRemove(drop) =>
        ghost var externals := RemovedBy(b.contents, drop);
        b.RemoveMessagesByAccounts(drop);
        call := RemoveAccounts(drop, externals);
    }
  }

  ghost predicate AllAnswered(requests: seq<Request>, calls: seq<Call>) {
    |calls| <= |requests| && forall i :: 0 <= i < |calls| ==> Answers(requests[i], calls[i])
  }

  lemma AnsweredOneMore(requests: seq<Request>, calls: seq<Call>, call: Call)
    requires AllAnswered(requests, calls) && |calls| < |requests| && Answers(requests[|calls|], call)
    ensures AllAnswered(requests, calls + [call])
  {
  }

  /** The first requests are answered: from buffer `b0` and grouped messages `g0` to `b` and `g`. */
  ghost predicate Performed(requests: seq<Request>, n: nat, b0: Buffer, g0: Queues, b: Buffer, g: Queues,
                            queues: seq<Queues>, calls: seq<Call>)
  {
    && n == |calls| && AllAnswered(requests, calls)
    && CallRun(queues, calls) && queues[0] == b0.msgs && queues[n] == b.msgs
    && Grouped(g0, g, LogOf(calls)) && Shifted(b0, b, RemovedExternals(calls))
  }

  lemma PerformedOneMore(requests: seq<Request>, n: nat, b0: Buffer, g0: Queues, b1: Buffer, g1: Queues, b2: Buffer, g2: Queues,
                         queues: seq<Queues>, calls: seq<Call>, call: Call)
    requires Performed(requests, n, b0, g0, b1, g1, queues, calls) && n < |requests| && Answers(requests[n], call)
    requires CallStep(b1.msgs, call, b2.msgs) && Grouped(g1, g2, if call.FillGroup? then call.log else [])
    requires Shifted(b1, b2, ExternalsOf(call))
    ensures Performed(requests, n + 1, b0, g0, b2, g2, queues + [b2.msgs], calls + [call])
  {
    AnsweredOneMore(requests, calls, call);
    CallRunOneMore(queues, calls, call, b2.msgs);
    GroupedOneMore(g0, g1, g2, calls, call);
    RemovedSnoc(calls, call);
    ShiftedTwice(b0, b1, b2, RemovedExternals(calls), ExternalsOf(call));
  }

  lemma PerformedNone(requests: seq<Request>, b: Buffer, g: Queues)
    ensures Performed(requests, 0, b, g, b, g, [b.msgs], [])
  {
    GroupedSame(g);
  }

  /** Any sequence of calls with one slot height is a run of calls, the group holds exactly what the fills moved, and the
    counters are off by exactly the externals removed. */
  method PerformAll(b: MessagesBuffer, g: MessageGroup, requests: seq<Request>, vert: nat)
    returns (ghost queues: seq<Queues>, ghost calls: seq<Call>)
    requires b.Valid() && g.Valid() && Low(g.contents.slots, vert)
    modifies b, g
    ensures b.Valid() && g.Valid()
    ensures Performed(requests, |requests|, old(b.contents), old(g.contents.msgs), b.contents, g.contents.msgs, queues, calls)
  {
    queues, calls := [b.contents.msgs], [];
    PerformedNone(requests, b.contents, g.contents.msgs);
    for i := 0 to |requests|
      invariant b.Valid() && g.Valid() && Low(g.contents.slots, vert)
      invariant Performed(requests, i, old(b.contents), old(g.contents.msgs), b.contents, g.contents.msgs, queues, calls)
    {
      ghost var b1, g1 := b.contents, g.contents.msgs;
      ghost var call := Perform(b, g, requests[i], vert);
      PerformedOneMore(requests, i, old(b.contents), old(g.contents.msgs), b1, g1, b.contents, g.contents.msgs,
                       queues, calls, call);
      queues, calls := queues + [b.contents.msgs], calls + [call];
    }
  }

  /** Counters that start exact stay exact over a run exactly when no removed queue held an external message. */
  lemma CountersExactIff(requests: seq<Request>, b0: Buffer, g0: Queues, b: Buffer, g: Queues,
                         queues: seq<Queues>, calls: seq<Call>)
    requires Performed(requests, |requests|, b0, g0, b, g, queues, calls)
    requires b0.IntDrift() == 0 && b0.ExtDrift() == 0
    ensures b.IntDrift() == 0 && b.ExtDrift() == 0 <==> AllKeep(queues, calls, |calls|)
  {
    assert calls[..|calls|] == calls;
    NoneRemovedIff(queues, calls, |calls|);
  }

  lemma CallRunOneMore(queues: seq<Queues>, calls: seq<Call>, call: Call, q: Queues)
    requires CallRun(queues, calls) && CallStep(queues[|calls|], call, q)
    ensures CallRun(queues + [q], calls + [call])
  {
    var (qs, cs) := (queues + [q], calls + [call]);
    forall i | 0 <= i < |cs|
      ensures CallAt(qs, cs, i)
    {
      if i < |calls| {
        assert CallAt(queues, calls, i);
      }
    }
  }

  lemma GroupedOneMore(g0: Queues, g1: Queues, g2: Queues, calls: seq<Call>, call: Call)
    requires Grouped(g0, g1, LogOf(calls)) && Grouped(g1, g2, if call.FillGroup? then call.log else [])
    ensures Grouped(g0, g2, LogOf(calls + [call]))
  {
    LogSnoc(calls, call);
    forall a
      ensures Get(g2, a) == Get(g0, a) + ByAccount(LogOf(calls + [call]), a)
    {
      GroupedAt(g0, g1, g2, LogOf(calls), if call.FillGroup? then call.log else [], a);
    }
  }

  lemma LogSnoc(calls: seq<Call>, call: Call)
    ensures LogOf(calls + [call]) == LogOf(calls) + if call.FillGroup? then call.log else []
  {
    assert (calls + [call])[..|calls|] == calls;
  }

  lemma GroupedAt(g0: Queues, g1: Queues, g2: Queues, x: seq<Message>, y: seq<Message>, a: AccountId)
    requires Grouped(g0, g1, x) && Grouped(g1, g2, y)
    ensures Get(g2, a) == Get(g0, a) + ByAccount(x + y, a)
  {
    ByAccountConcat(x, y, a);
    ConcatAssoc(Get(g0, a), ByAccount(x, a), ByAccount(y, a));
  }

}
