/** Buffered messages, the expiry filters and the sequence algebra both sides of a fill share. */
module Messages {
  import opened Sequences

  // Account hashes are only compared, so any countable type serves.
  type AccountId = nat

  // `dst.as_std()`: an address that is not standard falls back to the zero account.
  datatype Address = Std(account: AccountId) | Var

  // An outbound external or a special-origin message panics on insertion and has no counterpart.
  // `key` stands for the (created_lt, repr_hash) pair of an internal message.
  datatype Message =
    | Int(dst: Address, key: nat)
    | ExtIn(dst: Address, chainTime: nat, hash: nat)

  type Queues = map<AccountId, seq<Message>>

  function AccountOf(m: Message): AccountId {
    if m.dst.Std? then m.dst.account else 0
  }

  function Get(q: Queues, a: AccountId): seq<Message> {
    if a in q then q[a] else []
  }

  datatype Filter = IncludeAll | SkipExpired(threshold: nat) {
    predicate CanSkip() { SkipExpired? }

    predicate ShouldSkip(m: Message) {
      SkipExpired? && m.ExtIn? && m.chainTime < threshold
    }
  }

  /** How many internals a queue holds. */
  function Ints(s: seq<Message>): nat {
    if s == [] then 0 else (if s[0].Int? then 1 else 0) + Ints(s[1..])
  }

  function Exts(s: seq<Message>): int {
    |s| - Ints(s)
  }

  /** What a filter lets through, in order. */
  function Kept(f: Filter, s: seq<Message>): seq<Message>
  {
    if s == [] then []
    else if f.ShouldSkip(s[0]) then Kept(f, s[1..])
    else [s[0]] + Kept(f, s[1..])
  }

  /** The queue keys of the internals of a queue, in order. */
  function IntKeys(s: seq<Message>): seq<nat> {
    if s == [] then []
    else if s[0].Int? then [s[0].key] + IntKeys(s[1..])
    else IntKeys(s[1..])
  }

  /** The part of a log of moved messages that concerns one account. */
  function ByAccount(log: seq<Message>, a: AccountId): seq<Message> {
    if log == [] then []
    else if AccountOf(log[0]) == a then [log[0]] + ByAccount(log[1..], a)
    else ByAccount(log[1..], a)
  }

  predicate Addressed(s: seq<Message>, a: AccountId) {
    forall m :: m in s ==> AccountOf(m) == a
  }

  /** Sum of the internals of the listed accounts. */
  function TotalInts(accounts: seq<AccountId>, q: Queues): nat {
    if accounts == [] then 0 else Ints(Get(q, accounts[0])) + TotalInts(accounts[1..], q)
  }

  function TotalLen(accounts: seq<AccountId>, q: Queues): nat {
    if accounts == [] then 0 else |Get(q, accounts[0])| + TotalLen(accounts[1..], q)
  }

  function TotalExts(accounts: seq<AccountId>, q: Queues): int {
    TotalLen(accounts, q) - TotalInts(accounts, q)
  }

  lemma {:induction false} IntsConcat(s: seq<Message>, t: seq<Message>)
    ensures Ints(s + t) == Ints(s) + Ints(t)
  {
    if s == [] {
      assert s + t == t;
    } else {
      assert (s + t)[1..] == s[1..] + t;
      IntsConcat(s[1..], t);
    }
  }

  lemma {:induction false} IntsBound(s: seq<Message>)
    ensures Ints(s) <= |s|
  {
    if s != [] {
      IntsBound(s[1..]);
    }
  }

  lemma {:induction false} KeptConcat(f: Filter, s: seq<Message>, t: seq<Message>)
    ensures Kept(f, s + t) == Kept(f, s) + Kept(f, t)
  {
    if s == [] {
      assert s + t == t;
    } else {
      assert (s + t)[1..] == s[1..] + t;
      KeptConcat(f, s[1..], t);
    }
  }

  lemma {:induction false} KeptMembers(f: Filter, s: seq<Message>)
    ensures |Kept(f, s)| <= |s|
    ensures forall m :: m in Kept(f, s) ==> m in s && !f.ShouldSkip(m)
  {
    if s != [] {
      KeptMembers(f, s[1..]);
    }
  }

  lemma {:induction false} KeptAll(f: Filter, s: seq<Message>)
    requires forall m :: m in s ==> !f.ShouldSkip(m)
    ensures Kept(f, s) == s
  {
    if s != [] {
      KeptAll(f, s[1..]);
    }
  }

  /** Expiry by its own words: an external older than the threshold goes, everything else stays. */
  lemma {:induction false} KeptExactly(f: Filter, s: seq<Message>)
    ensures forall m :: m in Kept(f, s) <==> m in s && !(f.SkipExpired? && m.ExtIn? && m.chainTime < f.threshold)
    ensures f == IncludeAll ==> Kept(f, s) == s
  {
    if s != [] {
      KeptExactly(f, s[1..]);
      assert s == [s[0]] + s[1..];
    }
  }

  lemma KeptFirst(f: Filter, m: Message, s: seq<Message>)
    ensures Kept(f, [m] + s) == (if f.ShouldSkip(m) then [] else [m]) + Kept(f, s)
  {
    assert ([m] + s)[1..] == s;
  }

  /** A filtered queue is cut where some cut of the unfiltered one falls. */
  lemma {:induction false} KeptCut(f: Filter, s: seq<Message>, j: nat) returns (i: nat)
    requires j <= |Kept(f, s)|
    ensures i <= |s|
    ensures Kept(f, s)[..j] == Kept(f, s[..i])
    ensures Kept(f, s)[j..] == Kept(f, s[i..])
  {
    if j == 0 {
      i := 0;
    } else {
      i := KeptCut(f, s[1..], if f.ShouldSkip(s[0]) then j else j - 1);
      i := i + 1;
      TailSlices(s, i);
      KeptFirst(f, s[0], s[1..][..i - 1]);
      if !f.ShouldSkip(s[0]) {
        TailSlices(Kept(f, s), j);
      }
    }
  }

  /** Only externals are dropped, so a filter never changes the internals count. */
  lemma {:induction false} KeptInts(f: Filter, s: seq<Message>)
    ensures Ints(Kept(f, s)) == Ints(s)
  {
    if s != [] {
      KeptInts(f, s[1..]);
      if !f.ShouldSkip(s[0]) {
        IntsConcat([s[0]], Kept(f, s[1..]));
      }
    }
  }

  lemma {:induction false} IntKeysConcat(s: seq<Message>, t: seq<Message>)
    ensures IntKeys(s + t) == IntKeys(s) + IntKeys(t)
  {
    if s == [] {
      assert s + t == t;
    } else {
      IntKeysConcat(s[1..], t);
      assert (s + t)[1..] == s[1..] + t;
    }
  }

  /** One key for each internal, at the place of the internal among the internals. */
  lemma {:induction false} IntKeysAt(s: seq<Message>, i: nat)
    requires i < |s| && s[i].Int?
    ensures |IntKeys(s)| == Ints(s) && Ints(s[..i]) < |IntKeys(s)|
    ensures IntKeys(s)[Ints(s[..i])] == s[i].key
  {
    IntKeysCount(s);
    assert s == s[..i] + s[i..];
    IntsConcat(s[..i], s[i..]);
    IntKeysConcat(s[..i], s[i..]);
    IntKeysCount(s[..i]);
    assert IntKeys(s[i..])[0] == s[i].key;
  }

  lemma {:induction false} IntKeysCount(s: seq<Message>)
    ensures |IntKeys(s)| == Ints(s)
  {
    if s != [] {
      IntKeysCount(s[1..]);
    }
  }

  lemma {:induction false} ByAccountConcat(s: seq<Message>, t: seq<Message>, a: AccountId)
    ensures ByAccount(s + t, a) == ByAccount(s, a) + ByAccount(t, a)
  {
    if s == [] {
      assert s + t == t;
    } else {
      ConcatTail(s, t);
      ByAccountConcat(s[1..], t, a);
      if AccountOf(s[0]) == a {
        ConcatAssoc([s[0]], ByAccount(s[1..], a), ByAccount(t, a));
      }
    }
  }

  /** A queue holds what is addressed to its account; the zero account also gets what is not addressed to a standard one. */
  lemma {:induction false} ByAccountMembers(log: seq<Message>, a: AccountId)
    ensures forall m :: m in ByAccount(log, a) <==> m in log && (m.dst == Std(a) || (m.dst == Var && a == 0))
  {
    if log != [] {
      ByAccountMembers(log[1..], a);
      assert log == [log[0]] + log[1..];
    }
  }

  lemma {:induction false} ByAccountAddressed(s: seq<Message>, a: AccountId, b: AccountId)
    requires Addressed(s, a)
    ensures ByAccount(s, b) == if a == b then s else []
  {
    if s != [] {
      ByAccountAddressed(s[1..], a, b);
    }
  }

  /** Replacing one queue shifts the totals by exactly that queue's change. */
  lemma {:induction false} TotalUpdate(accounts: seq<AccountId>, q: Queues, a: AccountId, s: seq<Message>)
    requires Distinct(accounts) && a in accounts
    ensures TotalInts(accounts, q[a := s]) == TotalInts(accounts, q) - Ints(Get(q, a)) + Ints(s)
    ensures TotalLen(accounts, q[a := s]) == TotalLen(accounts, q) - |Get(q, a)| + |s|
  {
    if accounts[0] == a {
      TotalFrame(accounts[1..], q, q[a := s]);
    } else {
      TotalUpdate(accounts[1..], q, a, s);
    }
  }

  lemma {:induction false} TotalSnoc(accounts: seq<AccountId>, q: Queues, a: AccountId)
    ensures TotalInts(accounts + [a], q) == TotalInts(accounts, q) + Ints(Get(q, a))
    ensures TotalLen(accounts + [a], q) == TotalLen(accounts, q) + |Get(q, a)|
  {
    if accounts == [] {
      assert accounts + [a] == [a];
    } else {
      assert (accounts + [a])[1..] == accounts[1..] + [a];
      TotalSnoc(accounts[1..], q, a);
    }
  }

  /** Totals depend only on the listed accounts' queues. */
  lemma {:induction false} TotalFrame(accounts: seq<AccountId>, q: Queues, r: Queues)
    requires forall a :: a in accounts ==> Get(q, a) == Get(r, a)
    ensures TotalInts(accounts, q) == TotalInts(accounts, r)
    ensures TotalLen(accounts, q) == TotalLen(accounts, r)
  {
    if accounts != [] {
      TotalFrame(accounts[1..], q, r);
    }
  }
}
