/** The TL form of queue diffs and of diff lists. */
module QueueDiffs {
  import opened Wrappers
  import opened QueueKeys
  import opened Words
  import opened TlCodecs

  /** What the format takes from elsewhere: the constructor id, the shard id rule and the file hash. */
  datatype Env = Env(tlId: nat, shardRule: (int, nat) -> bool, hash: Bytes -> Bytes)

  datatype Shard = Shard(workchain: int, prefix: nat)

  datatype RouterAddr = RouterAddr(workchain: int, account: Bytes)

  /** Ordered maps and sets by their ascending entries. */
  type ProcessedTo = seq<Entry<Shard, QueueKey>>

  type Hashes = seq<Entry<Bytes, ()>>

  type Accounts = seq<Entry<RouterAddr, ()>>

  type Partitions = seq<Entry<nat, Accounts>>

  datatype QueueDiff = QueueDiff(
    hash: Bytes,
    prevHash: Bytes,
    shard: Shard,
    seqno: nat,
    processedTo: ProcessedTo,
    minMessage: QueueKey,
    maxMessage: QueueKey,
    messages: Hashes,
    routerSrc: Partitions,
    routerDst: Partitions)

  const MAX_SHARDS := 1000
  const MAX_MESSAGES := 10_000_000
  const MAX_PARTITIONS := 0x1_0000
  const MAX_ACCOUNTS := 10_000_000
  const MAX_DIFFS := 1000

  // --- orders ---

  predicate HashBefore(a: Bytes, b: Bytes) {
    Value(a) < Value(b)
  }

  predicate ShardBefore(a: Shard, b: Shard) {
    a.workchain < b.workchain || (a.workchain == b.workchain && a.prefix < b.prefix)
  }

  predicate AddrBefore(a: RouterAddr, b: RouterAddr) {
    a.workchain < b.workchain || (a.workchain == b.workchain && HashBefore(a.account, b.account))
  }

  predicate KeyBefore(a: QueueKey, b: QueueKey) {
    a.lt < b.lt || (a.lt == b.lt && HashBefore(a.hash, b.hash))
  }

  /** The orders compare hashes byte by byte and keys as the queue does. */
  lemma OrdersAgree(a: QueueKey, b: QueueKey)
    requires a.Valid() && b.Valid()
    ensures HashBefore(a.hash, b.hash) <==> HashLess(a.hash, b.hash)
    ensures KeyBefore(a, b) <==> Less(a, b)
  {
    if HashBefore(a.hash, b.hash) {
      LessIsHashLess(a.hash, b.hash);
    }
    if HashLess(a.hash, b.hash) {
      HashLessIsLess(a.hash, b.hash);
    }
  }

  // --- fixed-size parts ---

  const I32_SPAN := 0x1_0000_0000

  predicate IsI32(n: int) {
    -0x8000_0000 <= n < 0x8000_0000
  }

  predicate IsU32(n: nat) {
    n < Pow256(4)
  }

  /** Two's complement. */
  function WriteI32(n: int): Bytes {
    LittleEndian(n % I32_SPAN, 4)
  }

  function ReadI32(data: Bytes): Result<(int, Bytes), TlError> {
    var (n, rest) :- ReadUint(4, data);
    Ok((if n < 0x8000_0000 then n else n - I32_SPAN, rest))
  }

  lemma I32Exact(data: Bytes, n: int, rest: Bytes)
    ensures ReadI32(data) == Ok((n, rest)) <==> IsI32(n) && data == WriteI32(n) + rest
  {
    assert Pow256(4) == I32_SPAN;
    if ReadI32(data) == Ok((n, rest)) {
      var u := ReadUint(4, data).value.0;
      UintExact(4, data, u, rest);
      assert n % I32_SPAN == u;
    }
    if IsI32(n) && data == WriteI32(n) + rest {
      UintExact(4, data, n % I32_SPAN, rest);
    }
  }

  function ReadHash(data: Bytes): Result<(Bytes, Bytes), TlError> {
    ReadRaw(HASH_LEN, data)
  }

  function WriteShard(s: Shard): Bytes {
    WriteI32(s.workchain) + LittleEndian(s.prefix, 8)
  }

  function ReadShard(env: Env, data: Bytes): Result<(Shard, Bytes), TlError> {
    var (workchain, d1) :- ReadI32(data);
    var (prefix, d2) :- ReadUint(8, d1);
    if env.shardRule(workchain, prefix) then Ok((Shard(workchain, prefix), d2)) else Err(InvalidData)
  }

  predicate ValidShard(env: Env, s: Shard) {
    IsI32(s.workchain) && s.prefix < Pow256(8) && env.shardRule(s.workchain, s.prefix)
  }

  lemma ShardExact(env: Env, data: Bytes, s: Shard, rest: Bytes)
    ensures ReadShard(env, data) == Ok((s, rest)) <==> ValidShard(env, s) && data == WriteShard(s) + rest
  {
    var (a, b) := (WriteI32(s.workchain), LittleEndian(s.prefix, 8));
    var d1 := b + rest;
    Assoc(a, b, rest);
    I32Exact(data, s.workchain, d1);
    UintExact(8, d1, s.prefix, rest);
    if ReadShard(env, data) == Ok((s, rest)) {
      var d := ReadI32(data).value.1;
      UintExact(8, d, s.prefix, rest);
    }
  }

  function WriteKey(k: QueueKey): Bytes {
    LittleEndian(k.lt, 8) + k.hash
  }

  lemma U64Bound()
    ensures Pow256(8) == U64_MAX + 1
  {
    assert Pow256(4) == 0x1_0000_0000;
    assert Pow256(8) == 0x1_0000_0000 * Pow256(4);
  }

  function ReadKey(data: Bytes): Result<(QueueKey, Bytes), TlError> {
    var (lt, d1) :- ReadUint(8, data);
    U64Bound();
    UintExact(8, data, lt, d1);
    var (hash, d2) :- ReadHash(d1);
    Ok((QueueKey(lt, hash), d2))
  }

  lemma KeyExact(data: Bytes, k: QueueKey, rest: Bytes)
    ensures ReadKey(data) == Ok((k, rest)) <==> k.Valid() && data == WriteKey(k) + rest
  {
    var a := LittleEndian(k.lt, 8);
    var d1 := k.hash + rest;
    U64Bound();
    Assoc(a, k.hash, rest);
    UintExact(8, data, k.lt, d1);
    RawExact(HASH_LEN, d1, k.hash, rest);
    if ReadKey(data) == Ok((k, rest)) {
      var d := ReadUint(8, data).value.1;
      RawExact(HASH_LEN, d, k.hash, rest);
    }
  }

  function WriteAddr(a: RouterAddr): Bytes {
    WriteI32(a.workchain) + a.account
  }

  function ReadAddr(data: Bytes): Result<(RouterAddr, Bytes), TlError> {
    var (workchain, d1) :- ReadI32(data);
    if !(-128 <= workchain < 128) then Err(InvalidData)
    else
      var (account, d2) :- ReadHash(d1);
      Ok((RouterAddr(workchain, account), d2))
  }

  predicate ValidAddr(a: RouterAddr) {
    -128 <= a.workchain < 128 && IsHash(a.account)
  }

  lemma AddrExact(data: Bytes, a: RouterAddr, rest: Bytes)
    ensures ReadAddr(data) == Ok((a, rest)) <==> ValidAddr(a) && data == WriteAddr(a) + rest
  {
    var w := WriteI32(a.workchain);
    var d1 := a.account + rest;
    Assoc(w, a.account, rest);
    I32Exact(data, a.workchain, d1);
    RawExact(HASH_LEN, d1, a.account, rest);
    if ReadAddr(data) == Ok((a, rest)) {
      var d := ReadI32(data).value.1;
      RawExact(HASH_LEN, d, a.account, rest);
    }
  }

  function ReadIndex(data: Bytes): Result<(nat, Bytes), TlError> {
    var (n, rest) :- ReadUint(4, data);
    if n < MAX_PARTITIONS then Ok((n, rest)) else Err(InvalidData)
  }

  lemma IndexExact(data: Bytes, n: nat, rest: Bytes)
    ensures ReadIndex(data) == Ok((n, rest)) <==> n < MAX_PARTITIONS && data == LittleEndian(n, 4) + rest
  {
    UintExact(4, data, n, rest);
    assert Pow256(4) == 0x1_0000_0000;
  }

  // --- lists ---

  function ReadUnit(data: Bytes): Result<((), Bytes), TlError> {
    Ok(((), data))
  }

  function ShardCodec(env: Env): EntryCodec<Shard, QueueKey> {
    EntryCodec(data => ReadShard(env, data), s => ValidShard(env, s), WriteShard,
               ReadKey, (k: QueueKey) => k.Valid(), WriteKey, ShardBefore)
  }

  function HashCodec(): EntryCodec<Bytes, ()> {
    EntryCodec(ReadHash, IsHash, h => h, ReadUnit, u => true, u => [], HashBefore)
  }

  function AddrCodec(): EntryCodec<RouterAddr, ()> {
    EntryCodec(ReadAddr, ValidAddr, WriteAddr, ReadUnit, u => true, u => [], AddrBefore)
  }

  function PartitionCodec(): EntryCodec<nat, Accounts> {
    EntryCodec(ReadIndex, n => n < MAX_PARTITIONS, n => LittleEndian(n, 4),
               data => ReadList(AddrCodec(), None, MAX_ACCOUNTS, data),
               accounts => ValidList(AddrCodec(), None, MAX_ACCOUNTS, accounts),
               accounts => WriteList(AddrCodec(), accounts),
               (a, b) => a < b)
  }

  lemma ShardCodecExact(env: Env)
    ensures ExactEntry(ShardCodec(env))
  {
    var c := ShardCodec(env);
    forall data, s, rest
      ensures ExactAt(c.readHead, c.validHead, c.writeHead, data, s, rest)
    {
      ShardExact(env, data, s, rest);
    }
    forall data, k, rest
      ensures ExactAt(c.readBody, c.validBody, c.writeBody, data, k, rest)
    {
      KeyExact(data, k, rest);
    }
  }

  lemma UnitExact(data: Bytes, rest: Bytes)
    ensures ReadUnit(data) == Ok(((), rest)) <==> data == [] + rest
  {
    assert [] + rest == rest;
  }

  lemma HashCodecExact()
    ensures ExactEntry(HashCodec())
  {
    var c := HashCodec();
    forall data, h, rest
      ensures ExactAt(c.readHead, c.validHead, c.writeHead, data, h, rest)
    {
      RawExact(HASH_LEN, data, h, rest);
    }
    forall data, u, rest
      ensures ExactAt(c.readBody, c.validBody, c.writeBody, data, u, rest)
    {
      assert u == () && c.writeBody(u) == [];
      UnitExact(data, rest);
    }
  }

  lemma AddrCodecExact()
    ensures ExactEntry(AddrCodec())
  {
    var c := AddrCodec();
    forall data, a, rest
      ensures ExactAt(c.readHead, c.validHead, c.writeHead, data, a, rest)
    {
      AddrExact(data, a, rest);
    }
    forall data, u, rest
      ensures ExactAt(c.readBody, c.validBody, c.writeBody, data, u, rest)
    {
      assert u == () && c.writeBody(u) == [];
      UnitExact(data, rest);
    }
  }

  lemma MaxFits()
    ensures Pow256(LEN_SIZE) == 0x1_0000_0000
  {
  }

  lemma PartitionCodecExact()
    ensures ExactEntry(PartitionCodec())
  {
    var c := PartitionCodec();
    forall data, n, rest
      ensures ExactAt(c.readHead, c.validHead, c.writeHead, data, n, rest)
    {
      IndexExact(data, n, rest);
    }
    AddrCodecExact();
    MaxFits();
    forall data, accounts, rest
      ensures ExactAt(c.readBody, c.validBody, c.writeBody, data, accounts, rest)
    {
      ListExact(AddrCodec(), None, MAX_ACCOUNTS, data, accounts, rest);
    }
  }

  const ZERO_HASH: Bytes := Zeros(HASH_LEN)

  function ReadShards(env: Env, data: Bytes): Result<(ProcessedTo, Bytes), TlError> {
    ReadList(ShardCodec(env), None, MAX_SHARDS, data)
  }

  /** Message hashes ascend from above the zero hash. */
  function ReadMessages(data: Bytes): Result<(Hashes, Bytes), TlError> {
    ReadList(HashCodec(), Some(ZERO_HASH), MAX_MESSAGES, data)
  }

  function ReadPartitions(data: Bytes): Result<(Partitions, Bytes), TlError> {
    ReadList(PartitionCodec(), None, MAX_PARTITIONS, data)
  }

  function WritePartitions(p: Partitions): Bytes {
    WriteList(PartitionCodec(), p)
  }

  predicate ValidShards(env: Env, p: ProcessedTo) {
    ValidList(ShardCodec(env), None, MAX_SHARDS, p)
  }

  predicate ValidMessages(m: Hashes) {
    ValidList(HashCodec(), Some(ZERO_HASH), MAX_MESSAGES, m)
  }

  predicate ValidPartitions(p: Partitions) {
    ValidList(PartitionCodec(), None, MAX_PARTITIONS, p)
  }

  lemma ShardsExact(env: Env, data: Bytes, p: ProcessedTo, rest: Bytes)
    ensures ReadShards(env, data) == Ok((p, rest)) <==>
      ValidShards(env, p) && data == WriteList(ShardCodec(env), p) + rest
  {
    ShardCodecExact(env);
    MaxFits();
    ListExact(ShardCodec(env), None, MAX_SHARDS, data, p, rest);
  }

  lemma MessagesExact(data: Bytes, m: Hashes, rest: Bytes)
    ensures ReadMessages(data) == Ok((m, rest)) <==> ValidMessages(m) && data == WriteList(HashCodec(), m) + rest
  {
    HashCodecExact();
    MaxFits();
    ListExact(HashCodec(), Some(ZERO_HASH), MAX_MESSAGES, data, m, rest);
  }

  lemma PartitionsExact(data: Bytes, p: Partitions, rest: Bytes)
    ensures ReadPartitions(data) == Ok((p, rest)) <==> ValidPartitions(p) && data == WritePartitions(p) + rest
  {
    PartitionCodecExact();
    MaxFits();
    ListExact(PartitionCodec(), None, MAX_PARTITIONS, data, p, rest);
  }

  // --- diffs ---

  /** The leading fields of a diff. */
  datatype Head = Head(prevHash: Bytes, shard: Shard, seqno: nat, processedTo: ProcessedTo)

  /** The fields that follow them. */
  datatype Tail = Tail(minMessage: QueueKey, maxMessage: QueueKey, messages: Hashes, routers: Routers)

  datatype Routers = Routers(src: Partitions, dst: Partitions)

  function HeadOf(d: QueueDiff): Head {
    Head(d.prevHash, d.shard, d.seqno, d.processedTo)
  }

  function TailOf(d: QueueDiff): Tail {
    Tail(d.minMessage, d.maxMessage, d.messages, Routers(d.routerSrc, d.routerDst))
  }

  function Join(hash: Bytes, h: Head, t: Tail): QueueDiff {
    QueueDiff(hash, h.prevHash, h.shard, h.seqno, h.processedTo, t.minMessage, t.maxMessage, t.messages,
              t.routers.src, t.routers.dst)
  }

  function WriteHead(env: Env, h: Head): Bytes {
    LittleEndian(env.tlId, 4) + h.prevHash + WriteShard(h.shard) + LittleEndian(h.seqno, 4)
    + WriteList(ShardCodec(env), h.processedTo)
  }

  function WriteTail(t: Tail): Bytes {
    WriteKey(t.minMessage) + WriteKey(t.maxMessage) + WriteList(HashCodec(), t.messages) + WriteRouters(t.routers)
  }

  function WriteRouters(r: Routers): Bytes {
    WritePartitions(r.src) + WritePartitions(r.dst)
  }

  function WriteDiff(env: Env, d: QueueDiff): Bytes {
    WriteHead(env, HeadOf(d)) + WriteTail(TailOf(d))
  }

  function ReadHead(env: Env, data: Bytes): Result<(Head, Bytes), TlError> {
    var (id, d1) :- ReadUint(4, data);
    if id != env.tlId then Err(UnknownConstructor)
    else
      var (prevHash, d2) :- ReadHash(d1);
      var (shard, d3) :- ReadShard(env, d2);
      var (seqno, d4) :- ReadUint(4, d3);
      var (processedTo, rest) :- ReadShards(env, d4);
      Ok((Head(prevHash, shard, seqno, processedTo), rest))
  }

  function ReadTail(data: Bytes): Result<(Tail, Bytes), TlError> {
    var (minMessage, d1) :- ReadKey(data);
    var (maxMessage, d2) :- ReadKey(d1);
    var (messages, d3) :- ReadMessages(d2);
    var (routers, rest) :- ReadRouters(d3);
    Ok((Tail(minMessage, maxMessage, messages, routers), rest))
  }

  function ReadRouters(data: Bytes): Result<(Routers, Bytes), TlError> {
    var (src, d1) :- ReadPartitions(data);
    var (dst, rest) :- ReadPartitions(d1);
    Ok((Routers(src, dst), rest))
  }

  predicate ValidRouters(r: Routers) {
    ValidPartitions(r.src) && ValidPartitions(r.dst)
  }

  lemma RoutersSound(data: Bytes, r: Routers, rest: Bytes)
    requires ReadRouters(data) == Ok((r, rest))
    ensures ValidRouters(r) && data == WriteRouters(r) + rest
  {
    var d1 := ReadPartitions(data).value.1;
    PartitionsExact(data, r.src, d1);
    PartitionsExact(d1, r.dst, rest);
    Assoc(WritePartitions(r.src), WritePartitions(r.dst), rest);
  }

  lemma RoutersComplete(r: Routers, rest: Bytes)
    requires ValidRouters(r)
    ensures ReadRouters(WriteRouters(r) + rest) == Ok((r, rest))
  {
    var d1 := WritePartitions(r.dst) + rest;
    Assoc(WritePartitions(r.src), WritePartitions(r.dst), rest);
    PartitionsExact(WriteRouters(r) + rest, r.src, d1);
    PartitionsExact(d1, r.dst, rest);
  }

  predicate ValidHead(env: Env, h: Head) {
    IsHash(h.prevHash) && ValidShard(env, h.shard) && IsU32(h.seqno) && ValidShards(env, h.processedTo)
  }

  predicate ValidTail(t: Tail) {
    && t.minMessage.Valid() && t.maxMessage.Valid()
    && ValidMessages(t.messages) && ValidRouters(t.routers)
  }

  lemma Nest(a: Bytes, b: Bytes, c: Bytes, d: Bytes, e: Bytes, rest: Bytes)
    ensures a + b + c + d + e + rest == a + (b + (c + (d + (e + rest))))
  {
    Assoc(a + b + c + d, e, rest);
    Assoc(a + b + c, d, e + rest);
    Assoc(a + b, c, d + (e + rest));
    Assoc(a, b, c + (d + (e + rest)));
  }

  lemma HeadSound(env: Env, data: Bytes, h: Head, rest: Bytes)
    requires ReadHead(env, data) == Ok((h, rest))
    ensures ValidHead(env, h) && data == WriteHead(env, h) + rest
  {
    var d1 := ReadUint(4, data).value.1;
    var d2 := ReadHash(d1).value.1;
    var d3 := ReadShard(env, d2).value.1;
    var d4 := ReadUint(4, d3).value.1;
    UintExact(4, data, env.tlId, d1);
    RawExact(HASH_LEN, d1, h.prevHash, d2);
    ShardExact(env, d2, h.shard, d3);
    UintExact(4, d3, h.seqno, d4);
    ShardsExact(env, d4, h.processedTo, rest);
    Nest(LittleEndian(env.tlId, 4), h.prevHash, WriteShard(h.shard), LittleEndian(h.seqno, 4),
         WriteList(ShardCodec(env), h.processedTo), rest);
  }

  lemma HeadComplete(env: Env, h: Head, rest: Bytes)
    requires env.tlId < Pow256(4) && ValidHead(env, h)
    ensures ReadHead(env, WriteHead(env, h) + rest) == Ok((h, rest))
  {
    var d4 := WriteList(ShardCodec(env), h.processedTo) + rest;
    var d3 := LittleEndian(h.seqno, 4) + d4;
    var d2 := WriteShard(h.shard) + d3;
    var d1 := h.prevHash + d2;
    Nest(LittleEndian(env.tlId, 4), h.prevHash, WriteShard(h.shard), LittleEndian(h.seqno, 4),
         WriteList(ShardCodec(env), h.processedTo), rest);
    UintExact(4, WriteHead(env, h) + rest, env.tlId, d1);
    RawExact(HASH_LEN, d1, h.prevHash, d2);
    ShardExact(env, d2, h.shard, d3);
    UintExact(4, d3, h.seqno, d4);
    ShardsExact(env, d4, h.processedTo, rest);
  }

  lemma TailSound(data: Bytes, t: Tail, rest: Bytes)
    requires ReadTail(data) == Ok((t, rest))
    ensures ValidTail(t) && data == WriteTail(t) + rest
  {
    var d1 := ReadKey(data).value.1;
    var d2 := ReadKey(d1).value.1;
    var d3 := ReadMessages(d2).value.1;
    KeyExact(data, t.minMessage, d1);
    KeyExact(d1, t.maxMessage, d2);
    MessagesExact(d2, t.messages, d3);
    RoutersSound(d3, t.routers, rest);
    NestTail(t, rest);
  }

  lemma NestTail(t: Tail, rest: Bytes)
    ensures WriteTail(t) + rest == WriteKey(t.minMessage)
      + (WriteKey(t.maxMessage) + (WriteList(HashCodec(), t.messages) + (WriteRouters(t.routers) + rest)))
  {
    var (a, b, c, d) := (WriteKey(t.minMessage), WriteKey(t.maxMessage), WriteList(HashCodec(), t.messages),
                         WriteRouters(t.routers));
    Assoc(a + b + c, d, rest);
    Assoc(a + b, c, d + rest);
    Assoc(a, b, c + (d + rest));
  }

  lemma TailComplete(t: Tail, rest: Bytes)
    requires ValidTail(t)
    ensures ReadTail(WriteTail(t) + rest) == Ok((t, rest))
  {
    var d3 := WriteRouters(t.routers) + rest;
    var d2 := WriteList(HashCodec(), t.messages) + d3;
    var d1 := WriteKey(t.maxMessage) + d2;
    NestTail(t, rest);
    KeyExact(WriteTail(t) + rest, t.minMessage, d1);
    KeyExact(d1, t.maxMessage, d2);
    MessagesExact(d2, t.messages, d3);
    RoutersComplete(t.routers, rest);
  }

  lemma Consumed(data: Bytes, a: Bytes, b: Bytes, d1: Bytes, rest: Bytes)
    requires data == a + d1 && d1 == b + rest
    ensures data == a + b + rest && |data| - |rest| == |a + b| && data[..|a + b|] == a + b
  {
    Assoc(a, b, rest);
  }

  /** Reads a diff and stamps it with the hash of the bytes it was read from. */
  function ReadDiff(env: Env, data: Bytes): Result<(QueueDiff, Bytes), TlError> {
    var (h, d1) :- ReadHead(env, data);
    var (t, rest) :- ReadTail(d1);
    if KeyBefore(t.maxMessage, t.minMessage) then Err(InvalidData)
    else
      HeadSound(env, data, h, d1);
      TailSound(d1, t, rest);
      var size := |data| - |rest|;
      Ok((Join(env.hash(data[..size]), h, t), rest))
  }

  /** A well-formed diff whose hash is the hash of its own written form. */
  predicate ValidDiff(env: Env, d: QueueDiff) {
    && ValidHead(env, HeadOf(d)) && ValidTail(TailOf(d))
    && !KeyBefore(d.maxMessage, d.minMessage)
    && d.hash == env.hash(WriteDiff(env, d))
  }

  lemma DiffSound(env: Env, data: Bytes, d: QueueDiff, rest: Bytes)
    requires ReadDiff(env, data) == Ok((d, rest))
    ensures ValidDiff(env, d) && data == WriteDiff(env, d) + rest
  {
    var (h, d1) := ReadHead(env, data).value;
    var (t, _) := ReadTail(d1).value;
    HeadSound(env, data, h, d1);
    TailSound(d1, t, rest);
    Consumed(data, WriteHead(env, h), WriteTail(t), d1, rest);
    assert HeadOf(d) == h && TailOf(d) == t;
  }

  lemma DiffComplete(env: Env, d: QueueDiff, rest: Bytes)
    requires env.tlId < Pow256(4) && ValidDiff(env, d)
    ensures ReadDiff(env, WriteDiff(env, d) + rest) == Ok((d, rest))
  {
    var (h, t) := (HeadOf(d), TailOf(d));
    var d1 := WriteTail(t) + rest;
    Assoc(WriteHead(env, h), WriteTail(t), rest);
    HeadComplete(env, h, d1);
    TailComplete(t, rest);
    Consumed(WriteDiff(env, d) + rest, WriteHead(env, h), WriteTail(t), d1, rest);
  }

  /** A diff is read exactly from its own written form, and stamped with the hash of exactly those bytes. */
  lemma DiffExact(env: Env, data: Bytes, d: QueueDiff, rest: Bytes)
    requires env.tlId < Pow256(4)
    ensures ReadDiff(env, data) == Ok((d, rest)) <==> ValidDiff(env, d) && data == WriteDiff(env, d) + rest
  {
    if ReadDiff(env, data) == Ok((d, rest)) {
      DiffSound(env, data, d, rest);
    }
    if ValidDiff(env, d) && data == WriteDiff(env, d) + rest {
      DiffComplete(env, d, rest);
    }
  }

  // --- sizes ---

  const KEY_SIZE := 40
  const SHARD_SIZE := 12
  const ADDR_SIZE := 36

  /** The loop that adds up the router partitions. */
  method RouterSizeHint(p: Partitions) returns (size: nat)
    ensures ValidPartitions(p) ==> size == |WritePartitions(p)|
  {
    size := 4;
    ghost var c := PartitionCodec();
    LittleEndianLength(|p|, LEN_SIZE);
    assert p[|p|..] == [] && p[0..] == p;
    for i := 0 to |p|
      invariant ValidPartitions(p) ==> |WritePartitions(p)| == size + |WriteEntries(c, p[i..])|
    {
      if ValidPartitions(p) {
        assert c.validBody(p[i].body);
        AccountsSize(p[i].body);
        LittleEndianLength(p[i].head, 4);
        assert p[i..][1..] == p[i + 1..];
      }
      size := size + 4 + 4 + |p[i].body| * ADDR_SIZE;
    }
  }

  lemma AddrSize(a: RouterAddr)
    requires ValidAddr(a)
    ensures |WriteAddr(a)| == ADDR_SIZE
  {
    LittleEndianLength(a.workchain % I32_SPAN, 4);
  }

  lemma AccountsSize(accounts: Accounts)
    requires ValidList(AddrCodec(), None, MAX_ACCOUNTS, accounts)
    ensures |WriteList(AddrCodec(), accounts)| == 4 + |accounts| * ADDR_SIZE
  {
    var c := AddrCodec();
    forall h, b | c.validHead(h) && c.validBody(b)
      ensures |c.writeHead(h)| + |c.writeBody(b)| == ADDR_SIZE
    {
      AddrSize(h);
    }
    EntriesSize(c, accounts, ADDR_SIZE);
    LittleEndianLength(|accounts|, LEN_SIZE);
  }

  lemma ShardsSize(env: Env, p: ProcessedTo)
    requires ValidShards(env, p)
    ensures |WriteList(ShardCodec(env), p)| == 4 + |p| * (SHARD_SIZE + KEY_SIZE)
  {
    var c := ShardCodec(env);
    forall h, b | c.validHead(h) && c.validBody(b)
      ensures |c.writeHead(h)| + |c.writeBody(b)| == SHARD_SIZE + KEY_SIZE
    {
      ShardKeySize(h, b);
    }
    EntriesSize(c, p, SHARD_SIZE + KEY_SIZE);
    LittleEndianLength(|p|, LEN_SIZE);
  }

  lemma ShardKeySize(s: Shard, k: QueueKey)
    requires k.Valid()
    ensures |WriteShard(s)| == SHARD_SIZE && |WriteKey(k)| == KEY_SIZE
  {
    LittleEndianLength(s.workchain % I32_SPAN, 4);
    LittleEndianLength(s.prefix, 8);
    LittleEndianLength(k.lt, 8);
  }

  lemma MessagesSize(m: Hashes)
    requires ValidMessages(m)
    ensures |WriteList(HashCodec(), m)| == 4 + |m| * HASH_LEN
  {
    EntriesSize(HashCodec(), m, HASH_LEN);
    LittleEndianLength(|m|, LEN_SIZE);
  }

  /** The size hint is the exact size of the written diff. */
  method MaxSizeHint(env: Env, d: QueueDiff) returns (size: nat)
    ensures ValidDiff(env, d) ==> size == |WriteDiff(env, d)|
  {
    var src := RouterSizeHint(d.routerSrc);
    var dst := RouterSizeHint(d.routerDst);
    size := 4 + HASH_LEN + SHARD_SIZE + 4 + (4 + |d.processedTo| * (SHARD_SIZE + KEY_SIZE)) + 2 * KEY_SIZE
      + (4 + |d.messages| * HASH_LEN) + src + dst;
    if ValidDiff(env, d) {
      HeadSize(env, HeadOf(d));
      TailSize(TailOf(d));
    }
  }

  lemma HeadSize(env: Env, h: Head)
    requires ValidHead(env, h)
    ensures |WriteHead(env, h)| == 4 + HASH_LEN + SHARD_SIZE + 4 + (4 + |h.processedTo| * (SHARD_SIZE + KEY_SIZE))
  {
    LittleEndianLength(env.tlId, 4);
    LittleEndianLength(h.seqno, 4);
    ShardKeySize(h.shard, QueueKey(0, Zeros(HASH_LEN)));
    ShardsSize(env, h.processedTo);
  }

  lemma TailSize(t: Tail)
    requires ValidTail(t)
    ensures |WriteTail(t)| == 2 * KEY_SIZE + (4 + |t.messages| * HASH_LEN)
      + |WritePartitions(t.routers.src)| + |WritePartitions(t.routers.dst)|
  {
    ShardKeySize(Shard(0, 0), t.minMessage);
    ShardKeySize(Shard(0, 0), t.maxMessage);
    MessagesSize(t.messages);
  }

  // --- lists of diffs ---

  type DiffList = seq<Entry<QueueDiff, ()>>

  /** b is the diff right before a. */
  predicate Linked(a: QueueDiff, b: QueueDiff) {
    a.seqno > b.seqno && a.prevHash == b.hash
  }

  function DiffCodec(env: Env): EntryCodec<QueueDiff, ()> {
    EntryCodec(data => ReadDiff(env, data), d => ValidDiff(env, d), d => WriteDiff(env, d),
               ReadUnit, u => true, u => [], Linked)
  }

  /** At least one diff, newest first. */
  function ReadDiffs(env: Env, data: Bytes): Result<(DiffList, Bytes), TlError> {
    var (n, _) :- ReadUint(LEN_SIZE, data);
    if n == 0 then Err(InvalidData) else ReadList(DiffCodec(env), None, MAX_DIFFS, data)
  }

  predicate ValidDiffs(env: Env, ds: DiffList) {
    ds != [] && ValidList(DiffCodec(env), None, MAX_DIFFS, ds)
  }

  lemma DiffCodecExact(env: Env)
    requires env.tlId < Pow256(4)
    ensures ExactEntry(DiffCodec(env))
  {
    var c := DiffCodec(env);
    forall data, d, rest
      ensures ExactAt(c.readHead, c.validHead, c.writeHead, data, d, rest)
    {
      DiffExact(env, data, d, rest);
    }
    forall data, u, rest
      ensures ExactAt(c.readBody, c.validBody, c.writeBody, data, u, rest)
    {
      assert u == () && c.writeBody(u) == [];
      UnitExact(data, rest);
    }
  }

  /** A diff list is read exactly from its own written form. */
  lemma DiffsExact(env: Env, data: Bytes, ds: DiffList, rest: Bytes)
    requires env.tlId < Pow256(4)
    ensures ReadDiffs(env, data) == Ok((ds, rest)) <==>
      ValidDiffs(env, ds) && data == WriteList(DiffCodec(env), ds) + rest
  {
    DiffCodecExact(env);
    MaxFits();
    ListExact(DiffCodec(env), None, MAX_DIFFS, data, ds, rest);
    if ValidDiffs(env, ds) && data == WriteList(DiffCodec(env), ds) + rest {
      Assoc(LittleEndian(|ds|, LEN_SIZE), WriteEntries(DiffCodec(env), ds), rest);
      UintExact(LEN_SIZE, data, |ds|, WriteEntries(DiffCodec(env), ds) + rest);
    }
  }

  /** Each diff of an accepted list names the hash of the next one's bytes. */
  lemma DiffsChained(env: Env, ds: DiffList, i: nat)
    requires ValidDiffs(env, ds) && i + 1 < |ds|
    ensures ds[i].head.seqno > ds[i + 1].head.seqno
    ensures ds[i].head.prevHash == env.hash(WriteDiff(env, ds[i + 1].head))
  {
    var c := DiffCodec(env);
    AscendingAt(c.less, None, ds, i);
    assert c.validHead(ds[i + 1].head);
  }

  /** Accepted lists descend strictly by seqno. */
  lemma DiffsDescend(env: Env, ds: DiffList, i: nat, j: nat)
    requires ValidDiffs(env, ds) && i < j < |ds|
    ensures ds[i].head.seqno > ds[j].head.seqno
  {
    FallsOverall(DiffCodec(env).less, None, ds, (d: QueueDiff) => d.seqno, i, j);
  }
}
