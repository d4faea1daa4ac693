/** What the bytes of a queue diff are, field by field, and which diffs are well-formed, said without the codec. */
module QueueLayout {
  import opened Wrappers
  import opened QueueKeys
  import opened Words
  import opened TlCodecs
  import opened QueueDiffs

  // --- integers ---

  lemma {:induction false} PowPositive(n: nat)
    ensures Pow256(n) > 0
  {
    if n > 0 {
      PowPositive(n - 1);
    }
  }

  lemma OneStepMore(p: nat, x: nat, y: nat)
    requires x < y
    ensures p * x + p <= p * y
  {
    assert p * y == p * x + p * (y - x);
    assert p * (y - x) == p + p * (y - x - 1);
  }

  lemma DivBy(n: nat, p: nat, q: nat, r: nat)
    requires 0 < p && n == p * q + r && r < p
    ensures n / p == q
  {
    var d := n / p;
    assert n == p * d + n % p;
    if d > q {
      OneStepMore(p, q, d);
    } else if d < q {
      OneStepMore(p, d, q);
    }
  }

  lemma DivTwice(n: nat, p: nat)
    requires 0 < p
    ensures n / 256 / p == n / (256 * p)
  {
    var (q, r) := (n / 256 / p, n / 256 % p);
    assert n / 256 == p * q + r;
    assert n == 256 * (p * q + r) + n % 256;
    assert 256 * (p * q + r) == 256 * p * q + 256 * r;
    assert 256 * r + n % 256 < 256 * p;
    DivBy(n, 256 * p, q, 256 * r + n % 256);
  }

  /** The i-th byte of a little-endian integer. */
  lemma {:induction false} LittleEndianAt(n: nat, size: nat, i: nat)
    requires i < size
    ensures Pow256(i) > 0 && |LittleEndian(n, size)| == size && LittleEndian(n, size)[i] == n / Pow256(i) % 256
  {
    PowPositive(i);
    LittleEndianLength(n, size);
    if i > 0 {
      LittleEndianAt(n / 256, size - 1, i - 1);
      DivTwice(n, Pow256(i - 1));
    }
  }

  function Le(n: nat, size: nat): seq<byte> {
    seq(size, i requires 0 <= i => PowPositive(i); n / Pow256(i) % 256)
  }

  lemma LeIs(n: nat, size: nat)
    ensures LittleEndian(n, size) == Le(n, size)
  {
    LittleEndianLength(n, size);
    forall i: nat | i < size
      ensures LittleEndian(n, size)[i] == Le(n, size)[i]
    {
      LittleEndianAt(n, size, i);
    }
  }

  // --- the bytes ---

  function Concat(parts: seq<Bytes>): Bytes {
    if parts == [] then [] else parts[0] + Concat(parts[1..])
  }

  /** A list: its length in four bytes, then its items. */
  function ListBytes(items: seq<Bytes>): Bytes {
    Le(|items|, 4) + Concat(items)
  }

  /** Signed integers in two's complement. */
  function ShardBytes(s: Shard): Bytes {
    Le(s.workchain % 0x1_0000_0000, 4) + Le(s.prefix, 8)
  }

  function KeyBytes(k: QueueKey): Bytes {
    Le(k.lt, 8) + k.hash
  }

  function AddrBytes(a: RouterAddr): Bytes {
    Le(a.workchain % 0x1_0000_0000, 4) + a.account
  }

  function ProcessedBytes(p: ProcessedTo): Bytes {
    ListBytes(seq(|p|, i requires 0 <= i < |p| => ShardBytes(p[i].head) + KeyBytes(p[i].body)))
  }

  function MessageBytes(m: Hashes): Bytes {
    ListBytes(seq(|m|, i requires 0 <= i < |m| => m[i].head))
  }

  function AccountBytes(a: Accounts): Bytes {
    ListBytes(seq(|a|, i requires 0 <= i < |a| => AddrBytes(a[i].head)))
  }

  function RouterBytes(p: Partitions): Bytes {
    ListBytes(seq(|p|, i requires 0 <= i < |p| => Le(p[i].head, 4) + AccountBytes(p[i].body)))
  }

  /** block.queueDiff of the TL scheme: every field but the hash, in this order. */
  function DiffBytes(env: Env, d: QueueDiff): Bytes {
    Concat([Le(env.tlId, 4), d.prevHash, ShardBytes(d.shard), Le(d.seqno, 4), ProcessedBytes(d.processedTo),
            KeyBytes(d.minMessage), KeyBytes(d.maxMessage), MessageBytes(d.messages),
            RouterBytes(d.routerSrc), RouterBytes(d.routerDst)])
  }

  // --- they are what the codec writes ---

  ghost predicate Parts<H, B>(c: EntryCodec<H, B>, es: seq<Entry<H, B>>, items: seq<Bytes>) {
    |items| == |es| && forall i :: 0 <= i < |es| ==> items[i] == c.writeHead(es[i].head) + c.writeBody(es[i].body)
  }

  lemma {:induction false} EntriesAre<H, B>(c: EntryCodec<H, B>, es: seq<Entry<H, B>>, items: seq<Bytes>)
    requires Parts(c, es, items)
    ensures WriteEntries(c, es) == Concat(items)
  {
    if es != [] {
      EntriesAre(c, es[1..], items[1..]);
    }
  }

  lemma ListIs<H, B>(c: EntryCodec<H, B>, es: seq<Entry<H, B>>, items: seq<Bytes>)
    requires Parts(c, es, items)
    ensures WriteList(c, es) == ListBytes(items)
  {
    EntriesAre(c, es, items);
    LeIs(|es|, 4);
  }

  lemma ShardIs(s: Shard)
    ensures WriteShard(s) == ShardBytes(s)
  {
    LeIs(s.workchain % 0x1_0000_0000, 4);
    LeIs(s.prefix, 8);
  }

  lemma KeyIs(k: QueueKey)
    ensures WriteKey(k) == KeyBytes(k)
  {
    LeIs(k.lt, 8);
  }

  lemma ProcessedIs(env: Env, p: ProcessedTo)
    ensures WriteList(ShardCodec(env), p) == ProcessedBytes(p)
  {
    var items := seq(|p|, i requires 0 <= i < |p| => ShardBytes(p[i].head) + KeyBytes(p[i].body));
    forall i | 0 <= i < |p|
      ensures items[i] == WriteShard(p[i].head) + WriteKey(p[i].body)
    {
      ShardIs(p[i].head);
      KeyIs(p[i].body);
    }
    ListIs(ShardCodec(env), p, items);
  }

  lemma MessagesAre(m: Hashes)
    ensures WriteList(HashCodec(), m) == MessageBytes(m)
  {
    var items := seq(|m|, i requires 0 <= i < |m| => m[i].head);
    forall i | 0 <= i < |m|
      ensures items[i] == m[i].head + []
    {
    }
    ListIs(HashCodec(), m, items);
  }

  lemma AddrIs(a: RouterAddr)
    ensures WriteAddr(a) == AddrBytes(a)
  {
    LeIs(a.workchain % 0x1_0000_0000, 4);
  }

  lemma AccountsAre(a: Accounts)
    ensures WriteList(AddrCodec(), a) == AccountBytes(a)
  {
    var items := seq(|a|, i requires 0 <= i < |a| => AddrBytes(a[i].head));
    forall i | 0 <= i < |a|
      ensures items[i] == WriteAddr(a[i].head) + []
    {
      AddrIs(a[i].head);
    }
    ListIs(AddrCodec(), a, items);
  }

  lemma RouterIs(p: Partitions)
    ensures WritePartitions(p) == RouterBytes(p)
  {
    var items := seq(|p|, i requires 0 <= i < |p| => Le(p[i].head, 4) + AccountBytes(p[i].body));
    forall i | 0 <= i < |p|
      ensures items[i] == LittleEndian(p[i].head, 4) + WriteList(AddrCodec(), p[i].body)
    {
      LeIs(p[i].head, 4);
      AccountsAre(p[i].body);
    }
    ListIs(PartitionCodec(), p, items);
  }

  lemma ConcatFive(a: Bytes, b: Bytes, c: Bytes, d: Bytes, e: Bytes, more: seq<Bytes>)
    ensures Concat([a, b, c, d, e] + more) == a + b + c + d + e + Concat(more)
  {
    ConcatMore(a, [b, c, d, e], more);
    ConcatMore(b, [c, d, e], more);
    ConcatMore(c, [d, e], more);
    ConcatMore(d, [e], more);
    ConcatMore(e, [], more);
    assert [a, b, c, d, e] == [a] + [b, c, d, e] && [b, c, d, e] == [b] + [c, d, e] && [c, d, e] == [c] + [d, e];
    assert [d, e] == [d] + [e] && [e] == [e] + [];
    assert [] + more == more;
    Nest(a, b, c, d, e, Concat(more));
  }

  lemma ConcatMore(a: Bytes, s: seq<Bytes>, more: seq<Bytes>)
    ensures Concat([a] + s + more) == a + Concat(s + more)
  {
    assert ([a] + s + more)[1..] == s + more;
  }

  lemma HeadLayout(env: Env, d: QueueDiff)
    ensures WriteHead(env, HeadOf(d))
      == Le(env.tlId, 4) + d.prevHash + ShardBytes(d.shard) + Le(d.seqno, 4) + ProcessedBytes(d.processedTo)
  {
    LeIs(env.tlId, 4);
    ShardIs(d.shard);
    LeIs(d.seqno, 4);
    ProcessedIs(env, d.processedTo);
  }

  /** A diff is written field by field, in the order of the scheme. */
  lemma DiffLayout(env: Env, d: QueueDiff)
    ensures WriteDiff(env, d) == DiffBytes(env, d)
  {
    var more := [KeyBytes(d.minMessage), KeyBytes(d.maxMessage), MessageBytes(d.messages),
                 RouterBytes(d.routerSrc), RouterBytes(d.routerDst)];
    HeadLayout(env, d);
    TailLayout(d);
    ConcatFive(Le(env.tlId, 4), d.prevHash, ShardBytes(d.shard), Le(d.seqno, 4), ProcessedBytes(d.processedTo), more);
    TenParts(Le(env.tlId, 4), d.prevHash, ShardBytes(d.shard), Le(d.seqno, 4), ProcessedBytes(d.processedTo),
             KeyBytes(d.minMessage), KeyBytes(d.maxMessage), MessageBytes(d.messages),
             RouterBytes(d.routerSrc), RouterBytes(d.routerDst));
  }

  lemma TenParts(a: Bytes, b: Bytes, c: Bytes, d: Bytes, e: Bytes, f: Bytes, g: Bytes, h: Bytes, i: Bytes, j: Bytes)
    ensures [a, b, c, d, e] + [f, g, h, i, j] == [a, b, c, d, e, f, g, h, i, j]
  {
  }

  lemma TailLayout(d: QueueDiff)
    ensures WriteTail(TailOf(d)) == Concat([KeyBytes(d.minMessage), KeyBytes(d.maxMessage), MessageBytes(d.messages),
                                            RouterBytes(d.routerSrc), RouterBytes(d.routerDst)])
  {
    var (a, b, c) := (KeyBytes(d.minMessage), KeyBytes(d.maxMessage), MessageBytes(d.messages));
    var (x, y) := (RouterBytes(d.routerSrc), RouterBytes(d.routerDst));
    KeyIs(d.minMessage);
    KeyIs(d.maxMessage);
    MessagesAre(d.messages);
    RouterIs(d.routerSrc);
    RouterIs(d.routerDst);
    ConcatFive(a, b, c, x, y, []);
    assert [a, b, c, x, y] + [] == [a, b, c, x, y];
    Assoc(a + b + c, x, y);
    assert a + b + c + x + y + [] == a + b + c + x + y;
  }

  // --- which diffs are accepted ---

  predicate ShardOk(env: Env, s: Shard) {
    -0x8000_0000 <= s.workchain < 0x8000_0000 && s.prefix <= U64_MAX && env.shardRule(s.workchain, s.prefix)
  }

  predicate ShardLess(a: Shard, b: Shard) {
    a.workchain < b.workchain || (a.workchain == b.workchain && a.prefix < b.prefix)
  }

  ghost predicate AddrLess(a: RouterAddr, b: RouterAddr)
    requires |a.account| == 32 && |b.account| == 32
  {
    a.workchain < b.workchain || (a.workchain == b.workchain && HashLess(a.account, b.account))
  }

  ghost predicate ProcessedOk(env: Env, p: ProcessedTo) {
    && |p| <= 1000
    && (forall i :: 0 <= i < |p| ==> ShardOk(env, p[i].head) && |p[i].body.hash| == 32)
    && (forall i, j :: 0 <= i < j < |p| ==> ShardLess(p[i].head, p[j].head))
  }

  /** Message hashes rise, and none is zero. */
  ghost predicate MessagesOk(m: Hashes) {
    && |m| <= 10_000_000
    && (forall i :: 0 <= i < |m| ==> |m[i].head| == 32)
    && (forall i, j :: 0 <= i < j < |m| ==> HashLess(m[i].head, m[j].head))
    && (m != [] ==> exists k :: 0 <= k < 32 && m[0].head[k] > 0)
  }

  ghost predicate AccountsOk(a: Accounts) {
    && |a| <= 10_000_000
    && (forall i :: 0 <= i < |a| ==> -128 <= a[i].head.workchain < 128 && |a[i].head.account| == 32)
    && (forall i, j :: 0 <= i < j < |a| ==> AddrLess(a[i].head, a[j].head))
  }

  ghost predicate RouterOk(p: Partitions) {
    && |p| <= 65536
    && (forall i :: 0 <= i < |p| ==> p[i].head < 65536 && AccountsOk(p[i].body))
    && (forall i, j :: 0 <= i < j < |p| ==> p[i].head < p[j].head)
  }

  ghost predicate DiffOk(env: Env, d: QueueDiff) {
    && |d.prevHash| == 32 && ShardOk(env, d.shard) && d.seqno < 0x1_0000_0000 && ProcessedOk(env, d.processedTo)
    && |d.minMessage.hash| == 32 && |d.maxMessage.hash| == 32 && !Less(d.maxMessage, d.minMessage)
    && MessagesOk(d.messages) && RouterOk(d.routerSrc) && RouterOk(d.routerDst)
  }

  ghost predicate Transitive<H(!new)>(less: (H, H) -> bool) {
    forall a, b, c :: less(a, b) && less(b, c) ==> less(a, c)
  }

  ghost predicate Pairwise<H, B>(less: (H, H) -> bool, es: seq<Entry<H, B>>) {
    forall i, j :: 0 <= i < j < |es| ==> less(es[i].head, es[j].head)
  }

  lemma PairwiseTail<H, B>(less: (H, H) -> bool, es: seq<Entry<H, B>>)
    requires es != []
    ensures Pairwise(less, es) <==>
      Pairwise(less, es[1..]) && forall j :: 0 < j < |es| ==> less(es[0].head, es[j].head)
  {
    assert forall j :: 0 < j < |es| ==> es[j] == es[1..][j - 1];
  }

  /** What rises from one entry to the next rises between any two. */
  lemma {:induction false} AscendingIsPairwise<H(!new), B>(less: (H, H) -> bool, prev: Option<H>, es: seq<Entry<H, B>>)
    requires Transitive(less)
    ensures Ascending(less, prev, es) <==> Pairwise(less, es) && (es != [] ==> Follows(less, prev, es[0].head))
    decreases |es|
  {
    if es != [] {
      PairwiseTail(less, es);
      AscendingIsPairwise(less, Some(es[0].head), es[1..]);
      if Pairwise(less, es[1..]) && |es| > 1 && less(es[0].head, es[1].head) {
        forall j | 0 < j < |es|
          ensures less(es[0].head, es[j].head)
        {
          assert es[1..][j - 1] == es[j] && es[1..][0] == es[1];
          if j > 1 {
            assert less(es[1..][0].head, es[1..][j - 1].head);
          }
        }
      }
    }
  }

  lemma ProcessedOkIs(env: Env, p: ProcessedTo)
    ensures ValidShards(env, p) <==> ProcessedOk(env, p)
  {
    U64Bound();
    AscendingIsPairwise(ShardBefore, None, p);
  }

  lemma HashOrder(a: Bytes, b: Bytes)
    requires |a| == |b| == 32
    ensures HashBefore(a, b) <==> HashLess(a, b)
  {
    OrdersAgree(QueueKey(0, a), QueueKey(0, b));
  }

  lemma AboveZero(h: Bytes)
    requires |h| == 32
    ensures HashBefore(ZERO_HASH, h) <==> exists k :: 0 <= k < 32 && h[k] > 0
  {
    HashOrder(ZERO_HASH, h);
    if k :| 0 <= k < 32 && h[k] > 0 {
      var i := FirstAbove(h, k);
      assert ZERO_HASH[..i] == h[..i] && ZERO_HASH[i] < h[i];
    }
  }

  lemma FirstAbove(h: Bytes, k: nat) returns (i: nat)
    requires |h| == 32 && k < 32 && h[k] > 0
    ensures i < 32 && h[i] > 0 && forall j :: 0 <= j < i ==> h[j] == 0
  {
    i := 0;
    while h[i] == 0
      invariant i <= k && forall j :: 0 <= j < i ==> h[j] == 0
      decreases k - i
    {
      i := i + 1;
    }
  }

  lemma MessagesOkIs(m: Hashes)
    ensures ValidMessages(m) <==> MessagesOk(m)
  {
    AscendingIsPairwise(HashBefore, Some(ZERO_HASH), m);
    if forall i :: 0 <= i < |m| ==> |m[i].head| == 32 {
      forall i, j | 0 <= i < j < |m|
        ensures HashBefore(m[i].head, m[j].head) <==> HashLess(m[i].head, m[j].head)
      {
        HashOrder(m[i].head, m[j].head);
      }
      if m != [] {
        AboveZero(m[0].head);
      }
    }
  }

  lemma AccountsOkIs(a: Accounts)
    ensures ValidList(AddrCodec(), None, MAX_ACCOUNTS, a) <==> AccountsOk(a)
  {
    AscendingIsPairwise(AddrBefore, None, a);
    if forall i :: 0 <= i < |a| ==> |a[i].head.account| == 32 {
      forall i, j | 0 <= i < j < |a|
        ensures AddrBefore(a[i].head, a[j].head) <==> AddrLess(a[i].head, a[j].head)
      {
        HashOrder(a[i].head.account, a[j].head.account);
      }
    }
  }

  lemma RouterOkIs(p: Partitions)
    ensures ValidPartitions(p) <==> RouterOk(p)
  {
    AscendingIsPairwise(PartitionCodec().less, None, p);
    forall i | 0 <= i < |p|
      ensures ValidList(AddrCodec(), None, MAX_ACCOUNTS, p[i].body) <==> AccountsOk(p[i].body)
    {
      AccountsOkIs(p[i].body);
    }
  }

  lemma HeadOkIs(env: Env, d: QueueDiff)
    ensures ValidHead(env, HeadOf(d)) <==>
      |d.prevHash| == 32 && ShardOk(env, d.shard) && d.seqno < 0x1_0000_0000 && ProcessedOk(env, d.processedTo)
  {
    U64Bound();
    MaxFits();
    ProcessedOkIs(env, d.processedTo);
  }

  lemma TailOkIs(d: QueueDiff)
    ensures ValidTail(TailOf(d)) <==>
      && |d.minMessage.hash| == 32 && |d.maxMessage.hash| == 32
      && MessagesOk(d.messages) && RouterOk(d.routerSrc) && RouterOk(d.routerDst)
  {
    MessagesOkIs(d.messages);
    RouterOkIs(d.routerSrc);
    RouterOkIs(d.routerDst);
  }

  lemma DiffOkIs(env: Env, d: QueueDiff)
    ensures ValidDiff(env, d) <==> DiffOk(env, d) && d.hash == env.hash(DiffBytes(env, d))
  {
    DiffLayout(env, d);
    HeadOkIs(env, d);
    TailOkIs(d);
    if |d.minMessage.hash| == 32 && |d.maxMessage.hash| == 32 {
      OrdersAgree(d.maxMessage, d.minMessage);
    }
  }

  /** A diff is read from exactly the bytes of its fields, if it is well-formed and carries their hash. */
  lemma DiffReadsBytes(env: Env, data: Bytes, d: QueueDiff, rest: Bytes)
    requires env.tlId < 0x1_0000_0000
    ensures ReadDiff(env, data) == Ok((d, rest)) <==>
      DiffOk(env, d) && d.hash == env.hash(DiffBytes(env, d)) && data == DiffBytes(env, d) + rest
  {
    MaxFits();
    DiffExact(env, data, d, rest);
    DiffLayout(env, d);
    DiffOkIs(env, d);
  }

  /** Bytes that do not begin with the constructor id are refused as such. */
  lemma OtherConstructor(env: Env, data: Bytes)
    requires env.tlId < 0x1_0000_0000
    ensures ReadDiff(env, data) == Err(UnknownConstructor) <==> |data| >= 4 && data[..4] != Le(env.tlId, 4)
  {
    MaxFits();
    LeIs(env.tlId, 4);
    LittleEndianLength(env.tlId, 4);
    if |data| >= 4 {
      var n := FromLittleEndian(data[..4]);
      LittleEndianForth(data[..4]);
      LittleEndianBack(env.tlId, 4);
      assert n == env.tlId <==> data[..4] == Le(env.tlId, 4);
    }
    if ReadUint(4, data).Err? || ReadUint(4, data).value.0 == env.tlId {
      NoConstructorInside(env, data);
    }
  }

  /** A reader that knows no constructors. */
  ghost predicate Plain<T>(read: Reader<T>) {
    forall data :: read(data) != Err(UnknownConstructor)
  }

  lemma {:induction false} PlainEntries<H, B>(c: EntryCodec<H, B>, prev: Option<H>, n: nat, data: Bytes)
    requires Plain(c.readHead) && Plain(c.readBody)
    ensures ReadEntries(c, prev, n, data) != Err(UnknownConstructor)
    decreases n
  {
    if n > 0 {
      assert c.readHead(data) != Err(UnknownConstructor);
      if c.readHead(data).Ok? {
        var (h, d1) := c.readHead(data).value;
        assert c.readBody(d1) != Err(UnknownConstructor);
        if c.readBody(d1).Ok? {
          PlainEntries(c, Some(h), n - 1, c.readBody(d1).value.1);
        }
      }
    }
  }

  lemma PlainList<H, B>(c: EntryCodec<H, B>, first: Option<H>, max: nat, data: Bytes)
    requires Plain(c.readHead) && Plain(c.readBody)
    ensures ReadList(c, first, max, data) != Err(UnknownConstructor)
  {
    if ReadUint(LEN_SIZE, data).Ok? {
      var (n, d) := ReadUint(LEN_SIZE, data).value;
      PlainEntries(c, first, n, d);
    }
  }

  lemma PlainPartitions(data: Bytes)
    ensures ReadPartitions(data) != Err(UnknownConstructor)
  {
    var c := PartitionCodec();
    forall d
      ensures c.readBody(d) != Err(UnknownConstructor)
    {
      PlainList(AddrCodec(), None, MAX_ACCOUNTS, d);
    }
    PlainList(c, None, MAX_PARTITIONS, data);
  }

  lemma PlainTail(data: Bytes)
    ensures ReadTail(data) != Err(UnknownConstructor)
  {
    if ReadKey(data).Ok? && ReadKey(ReadKey(data).value.1).Ok? {
      var d2 := ReadKey(ReadKey(data).value.1).value.1;
      PlainList(HashCodec(), Some(ZERO_HASH), MAX_MESSAGES, d2);
      if ReadMessages(d2).Ok? {
        var d3 := ReadMessages(d2).value.1;
        PlainPartitions(d3);
        if ReadPartitions(d3).Ok? {
          PlainPartitions(ReadPartitions(d3).value.1);
        }
      }
    }
  }

  lemma PlainHead(env: Env, data: Bytes)
    requires ReadUint(4, data).Ok? ==> ReadUint(4, data).value.0 == env.tlId
    ensures ReadHead(env, data) != Err(UnknownConstructor)
  {
    forall d {
      PlainList(ShardCodec(env), None, MAX_SHARDS, d);
    }
  }

  lemma NoConstructorInside(env: Env, data: Bytes)
    requires ReadUint(4, data).Ok? ==> ReadUint(4, data).value.0 == env.tlId
    ensures ReadDiff(env, data) != Err(UnknownConstructor)
  {
    PlainHead(env, data);
    if ReadHead(env, data).Ok? {
      PlainTail(ReadHead(env, data).value.1);
    }
  }

  // --- lists of diffs ---

  function DiffListBytes(env: Env, ds: DiffList): Bytes {
    ListBytes(seq(|ds|, i requires 0 <= i < |ds| => DiffBytes(env, ds[i].head)))
  }

  /** A well-formed diff that carries the hash of its bytes. */
  ghost predicate Stamped(env: Env, d: QueueDiff) {
    DiffOk(env, d) && d.hash == env.hash(DiffBytes(env, d))
  }

  /** Newest first, each naming the hash of the next one's bytes. */
  ghost predicate DiffListOk(env: Env, ds: DiffList) {
    1 <= |ds| <= 1000 && AllStamped(env, ds) && AllLinked(env, ds)
  }

  ghost predicate LinkedTo(env: Env, ds: DiffList, i: int)
    requires 0 <= i < |ds| - 1
  {
    ds[i].head.seqno > ds[i + 1].head.seqno && ds[i].head.prevHash == env.hash(DiffBytes(env, ds[i + 1].head))
  }

  lemma DiffListIs(env: Env, ds: DiffList)
    ensures WriteList(DiffCodec(env), ds) == DiffListBytes(env, ds)
  {
    var items := seq(|ds|, i requires 0 <= i < |ds| => DiffBytes(env, ds[i].head));
    forall i | 0 <= i < |ds|
      ensures items[i] == WriteDiff(env, ds[i].head) + []
    {
      DiffLayout(env, ds[i].head);
    }
    ListIs(DiffCodec(env), ds, items);
  }

  ghost predicate Steps<H, B>(less: (H, H) -> bool, es: seq<Entry<H, B>>) {
    forall i :: 0 <= i < |es| - 1 ==> StepAt(less, es, i)
  }

  ghost predicate StepAt<H, B>(less: (H, H) -> bool, es: seq<Entry<H, B>>, i: int)
    requires 0 <= i < |es| - 1
  {
    less(es[i].head, es[i + 1].head)
  }

  lemma StepsTail<H, B>(less: (H, H) -> bool, es: seq<Entry<H, B>>)
    requires |es| > 1
    ensures Steps(less, es) <==> less(es[0].head, es[1].head) && Steps(less, es[1..])
  {
    assert StepAt(less, es, 0) <==> less(es[0].head, es[1].head);
    forall i | 0 < i < |es| - 1
      ensures StepAt(less, es, i) <==> StepAt(less, es[1..], i - 1)
    {
    }
    if Steps(less, es) {
      forall i | 0 <= i < |es[1..]| - 1
        ensures StepAt(less, es[1..], i)
      {
        assert StepAt(less, es, i + 1);
      }
    }
  }

  lemma {:induction false} AscendingIsSteps<H, B>(less: (H, H) -> bool, prev: Option<H>, es: seq<Entry<H, B>>)
    ensures Ascending(less, prev, es) <==> (es != [] ==> Follows(less, prev, es[0].head)) && Steps(less, es)
    decreases |es|
  {
    if |es| > 1 {
      StepsTail(less, es);
      AscendingIsSteps(less, Some(es[0].head), es[1..]);
    }
  }

  ghost predicate AllStamped(env: Env, ds: DiffList) {
    forall i :: 0 <= i < |ds| ==> Stamped(env, ds[i].head)
  }

  lemma AllStampedIs(env: Env, ds: DiffList)
    ensures ValidEntries(DiffCodec(env), ds) <==> AllStamped(env, ds)
  {
    forall i | 0 <= i < |ds|
      ensures DiffCodec(env).validHead(ds[i].head) && DiffCodec(env).validBody(ds[i].body) <==> Stamped(env, ds[i].head)
    {
      DiffOkIs(env, ds[i].head);
    }
  }

  ghost predicate AllLinked(env: Env, ds: DiffList) {
    forall i :: 0 <= i < |ds| - 1 ==> LinkedTo(env, ds, i)
  }

  lemma DiffListOkIs(env: Env, ds: DiffList)
    ensures ValidDiffs(env, ds) <==> DiffListOk(env, ds)
  {
    AscendingIsSteps(Linked, None, ds);
    AllStampedIs(env, ds);
    if AllStamped(env, ds) {
      LinksAreSteps(env, ds);
    }
  }

  lemma LinksAreSteps(env: Env, ds: DiffList)
    requires AllStamped(env, ds)
    ensures Steps(Linked, ds) <==> AllLinked(env, ds)
  {
    forall i | 0 <= i < |ds| - 1
      ensures StepAt(Linked, ds, i) <==> LinkedTo(env, ds, i)
    {
      assert Stamped(env, ds[i + 1].head);
    }
  }

  /** The same for lists of diffs. */
  lemma DiffListReadsBytes(env: Env, data: Bytes, ds: DiffList, rest: Bytes)
    requires env.tlId < 0x1_0000_0000
    ensures ReadDiffs(env, data) == Ok((ds, rest)) <==> DiffListOk(env, ds) && data == DiffListBytes(env, ds) + rest
  {
    MaxFits();
    DiffsExact(env, data, ds, rest);
    DiffListIs(env, ds);
    DiffListOkIs(env, ds);
  }
}
