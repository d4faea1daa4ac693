/** What a whole run of additions and fills does to one account's messages. */
module FillRuns {
  import opened Messages
  import opened Filling

  /** One account's view of a run: a message is added, a fill leaves `queue` behind and delivers `moved`,
    or the account is removed with the messages `gone`. */
  datatype Event =
    | Add(msg: Message)
    | Fill(filter: Filter, queue: seq<Message>, moved: seq<Message>)
    | Remove(gone: seq<Message>)

  /** A run leads from queue `q0` to queue `q`, every fill cutting the queue it found. */
  ghost predicate Leads(events: seq<Event>, q0: seq<Message>, q: seq<Message>)
    decreases |events|
  {
    if events == [] then q == q0
    else match events[0]
      case Add(m) => Leads(events[1..], q0 + [m], q)
      case Fill(f, b, x) => Cut(f, q0, b, x) && Leads(events[1..], b, q)
      case Remove(x) => x == q0 && Leads(events[1..], [], q)
  }

  function Added(events: seq<Event>): seq<Message> {
    if events == [] then []
    else (if events[0].Add? then [events[0].msg] else []) + Added(events[1..])
  }

  function Delivered(events: seq<Event>): seq<Message> {
    if events == [] then []
    else (if events[0].Fill? then events[0].moved else []) + Delivered(events[1..])
  }

  /** What left the queue, in order: delivered, or gone with the account. */
  function Left(events: seq<Event>): seq<Message> {
    if events == [] then []
    else LeftBy(events[0]) + Left(events[1..])
  }

  function LeftBy(e: Event): seq<Message> {
    match e
    case Add(_) => []
    case Fill(_, _, x) => x
    case Remove(x) => x
  }

  ghost predicate NoRemoval(events: seq<Event>) {
    forall e :: e in events ==> !e.Remove?
  }

  lemma {:induction false} LeftIsDelivered(events: seq<Event>)
    requires NoRemoval(events)
    ensures Left(events) == Delivered(events)
  {
    if events != [] {
      LeftIsDelivered(events[1..]);
    }
  }

  /** Everything `f` drops, `g` drops. */
  predicate Weaker(f: Filter, g: Filter) {
    f.IncludeAll? || (g.SkipExpired? && f.threshold <= g.threshold)
  }

  lemma {:induction false} KeptWeaker(f: Filter, g: Filter, s: seq<Message>)
    requires Weaker(f, g)
    ensures Kept(g, Kept(f, s)) == Kept(g, s)
  {
    if s != [] {
      KeptWeaker(f, g, s[1..]);
      if !f.ShouldSkip(s[0]) {
        KeptConcat(g, [s[0]], Kept(f, s[1..]));
        KeptConcat(g, [s[0]], s[1..]);
        assert s == [s[0]] + s[1..];
      }
    }
  }

  /** A cut delivers no dropped message, and loses nothing that filter `g` keeps. */
  lemma CutKeeps(f: Filter, g: Filter, b0: seq<Message>, b: seq<Message>, x: seq<Message>)
    requires Cut(f, b0, b, x) && Weaker(f, g)
    ensures Kept(f, x) == x
    ensures Kept(g, x) + Kept(g, b) == Kept(g, b0)
  {
    var k :| CutAt(f, b0, b, x, k);
    KeptMembers(f, b0[..k]);
    KeptAll(f, x);
    KeptWeaker(f, g, b0[..k]);
    KeptWeaker(f, g, b0[k..]);
    assert b0 == b0[..k] + b0[k..];
    KeptConcat(g, b0[..k], b0[k..]);
  }

  /** Conservation over two legs: `x` then `d` leave, `added` arrives in between. */
  lemma KeptChain(g: Filter, q0: seq<Message>, b: seq<Message>, x: seq<Message>, d: seq<Message>, q: seq<Message>,
                  added: seq<Message>)
    requires Kept(g, x) + Kept(g, b) == Kept(g, q0)
    requires Kept(g, d) + Kept(g, q) == Kept(g, b + added)
    ensures Kept(g, x + d) + Kept(g, q) == Kept(g, q0 + added)
  {
    KeptConcat(g, x, d);
    KeptConcat(g, b, added);
    KeptConcat(g, q0, added);
    Chain(Kept(g, x), Kept(g, b), Kept(g, q0), Kept(g, d), Kept(g, q), Kept(g, added));
  }

  lemma Chain<T>(x: seq<T>, b: seq<T>, q0: seq<T>, d: seq<T>, q: seq<T>, added: seq<T>)
    requires x + b == q0 && d + q == b + added
    ensures (x + d) + q == q0 + added
  {
    assert (x + d) + q == x + (d + q);
    assert x + (b + added) == (x + b) + added;
  }

  ghost predicate InOrder(strict: Filter, events: seq<Event>, q0: seq<Message>, q: seq<Message>) {
    Kept(strict, Left(events)) + Kept(strict, q) == Kept(strict, q0 + Added(events))
  }

  lemma OrderAdd(strict: Filter, events: seq<Event>, q0: seq<Message>, q: seq<Message>)
    requires events != [] && events[0].Add? && InOrder(strict, events[1..], q0 + [events[0].msg], q)
    ensures InOrder(strict, events, q0, q)
  {
    var m, rest := events[0].msg, events[1..];
    assert Left(events) == Left(rest);
    assert (q0 + [m]) + Added(rest) == q0 + ([m] + Added(rest));
  }

  lemma OrderFill(strict: Filter, events: seq<Event>, q0: seq<Message>, q: seq<Message>)
    requires events != [] && events[0].Fill? && Weaker(events[0].filter, strict)
    requires Cut(events[0].filter, q0, events[0].queue, events[0].moved)
    requires InOrder(strict, events[1..], events[0].queue, q)
    ensures InOrder(strict, events, q0, q)
  {
    var e, rest := events[0], events[1..];
    assert Added(events) == Added(rest);
    CutKeeps(e.filter, strict, q0, e.queue, e.moved);
    KeptChain(strict, q0, e.queue, e.moved, Left(rest), q, Added(rest));
  }

  lemma OrderRemove(strict: Filter, events: seq<Event>, q0: seq<Message>, q: seq<Message>)
    requires events != [] && events[0] == Remove(q0) && InOrder(strict, events[1..], [], q)
    ensures InOrder(strict, events, q0, q)
  {
    var rest := events[1..];
    assert Added(events) == Added(rest) && Kept(strict, []) == [];
    assert Kept(strict, q0) + [] == Kept(strict, q0);
    KeptChain(strict, q0, [], q0, Left(rest), q, Added(rest));
  }

  /**
   * First-in first-out over any run: whatever the strictest filter used keeps leaves the queue once,
   * in the order it was added, with the rest still queued.
   */
  lemma {:induction false} RunInOrder(events: seq<Event>, q0: seq<Message>, q: seq<Message>, strict: Filter)
    requires Leads(events, q0, q)
    requires forall e :: e in events && e.Fill? ==> Weaker(e.filter, strict)
    ensures Kept(strict, Left(events)) + Kept(strict, q) == Kept(strict, q0 + Added(events))
    decreases |events|
  {
    if events == [] {
      assert q0 + [] == q0;
    } else if events[0].Add? {
      RunInOrder(events[1..], q0 + [events[0].msg], q, strict);
      OrderAdd(strict, events, q0, q);
    } else if events[0].Fill? {
      RunInOrder(events[1..], events[0].queue, q, strict);
      OrderFill(strict, events, q0, q);
    } else {
      RunInOrder(events[1..], [], q, strict);
      OrderRemove(strict, events, q0, q);
    }
  }

  lemma {:induction false} KeptIncludeAll(s: seq<Message>)
    ensures Kept(IncludeAll, s) == s
  {
    KeptAll(IncludeAll, s);
  }

  /** Without expiry a run neither loses nor reorders anything. */
  lemma RunWithoutExpiry(events: seq<Event>, q0: seq<Message>, q: seq<Message>)
    requires Leads(events, q0, q)
    requires forall e :: e in events && e.Fill? ==> e.filter.IncludeAll?
    ensures Left(events) + q == q0 + Added(events)
    ensures NoRemoval(events) ==> Delivered(events) + q == q0 + Added(events)
  {
    RunInOrder(events, q0, q, IncludeAll);
    KeptIncludeAll(Left(events));
    KeptIncludeAll(q);
    KeptIncludeAll(q0 + Added(events));
    if NoRemoval(events) {
      LeftIsDelivered(events);
    }
  }
}
