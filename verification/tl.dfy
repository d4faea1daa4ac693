/** Exact codecs: a reader accepts precisely the written form of a well-formed value, followed by anything. */
module TlCodecs {
  import opened Wrappers
  import opened QueueKeys
  import opened Words

  datatype TlError = UnexpectedEof | InvalidData | UnknownConstructor

  type Bytes = seq<byte>

  /** A reader takes a value off the front and leaves the rest. */
  type Reader<!T> = Bytes -> Result<(T, Bytes), TlError>

  ghost predicate ExactAt<T>(read: Reader<T>, valid: T -> bool, write: T -> Bytes, data: Bytes, x: T, rest: Bytes) {
    read(data) == Ok((x, rest)) <==> valid(x) && data == write(x) + rest
  }

  ghost predicate Exact<T(!new)>(read: Reader<T>, valid: T -> bool, write: T -> Bytes) {
    forall data, x, rest :: ExactAt(read, valid, write, data, x, rest)
  }

  lemma Assoc(a: Bytes, b: Bytes, c: Bytes)
    ensures a + (b + c) == a + b + c
  {
  }

  // --- integers ---

  function LittleEndian(n: nat, size: nat): Bytes {
    if size == 0 then [] else [n % 256] + LittleEndian(n / 256, size - 1)
  }

  function FromLittleEndian(b: Bytes): nat {
    if b == [] then 0 else b[0] + 256 * FromLittleEndian(b[1..])
  }

  lemma {:induction false} LittleEndianLength(n: nat, size: nat)
    ensures |LittleEndian(n, size)| == size
  {
    if size > 0 {
      LittleEndianLength(n / 256, size - 1);
    }
  }

  lemma {:induction false} LittleEndianBack(n: nat, size: nat)
    requires n < Pow256(size)
    ensures FromLittleEndian(LittleEndian(n, size)) == n
  {
    if size > 0 {
      LittleEndianBack(n / 256, size - 1);
      assert LittleEndian(n, size)[1..] == LittleEndian(n / 256, size - 1);
    }
  }

  lemma {:induction false} LittleEndianForth(b: Bytes)
    ensures FromLittleEndian(b) < Pow256(|b|)
    ensures LittleEndian(FromLittleEndian(b), |b|) == b
  {
    if b != [] {
      LittleEndianForth(b[1..]);
      var n := FromLittleEndian(b);
      assert n % 256 == b[0] && n / 256 == FromLittleEndian(b[1..]);
      assert b == [b[0]] + b[1..];
    }
  }

  function ReadRaw(size: nat, data: Bytes): Result<(Bytes, Bytes), TlError> {
    if |data| < size then Err(UnexpectedEof) else Ok((data[..size], data[size..]))
  }

  lemma RawExact(size: nat, data: Bytes, x: Bytes, rest: Bytes)
    ensures ReadRaw(size, data) == Ok((x, rest)) <==> |x| == size && data == x + rest
  {
    if |data| >= size {
      assert data == data[..size] + data[size..];
    }
  }

  function ReadUint(size: nat, data: Bytes): Result<(nat, Bytes), TlError> {
    var (raw, rest) :- ReadRaw(size, data);
    Ok((FromLittleEndian(raw), rest))
  }

  lemma UintExact(size: nat, data: Bytes, n: nat, rest: Bytes)
    ensures ReadUint(size, data) == Ok((n, rest)) <==> n < Pow256(size) && data == LittleEndian(n, size) + rest
  {
    if ReadUint(size, data) == Ok((n, rest)) {
      RawExact(size, data, data[..size], rest);
      LittleEndianForth(data[..size]);
    }
    if n < Pow256(size) && data == LittleEndian(n, size) + rest {
      LittleEndianLength(n, size);
      LittleEndianBack(n, size);
      RawExact(size, data, LittleEndian(n, size), rest);
    }
  }

  // --- lists of entries in ascending order ---

  datatype Entry<H, B> = Entry(head: H, body: B)

  predicate Follows<H>(less: (H, H) -> bool, prev: Option<H>, h: H) {
    prev.Some? ==> less(prev.value, h)
  }

  /** Each head lies above the one before it, the first one above `prev`. */
  predicate Ascending<H, B>(less: (H, H) -> bool, prev: Option<H>, es: seq<Entry<H, B>>)
    decreases |es|
  {
    es != [] ==> Follows(less, prev, es[0].head) && Ascending(less, Some(es[0].head), es[1..])
  }

  /** How heads and bodies are read, written and judged. */
  datatype EntryCodec<!H, !B> = EntryCodec(
    readHead: Reader<H>, validHead: H -> bool, writeHead: H -> Bytes,
    readBody: Reader<B>, validBody: B -> bool, writeBody: B -> Bytes,
    less: (H, H) -> bool)

  function ReadEntries<H, B>(c: EntryCodec<H, B>, prev: Option<H>, n: nat, data: Bytes)
    : Result<(seq<Entry<H, B>>, Bytes), TlError>
    decreases n
  {
    if n == 0 then Ok(([], data))
    else
      var (h, d1) :- c.readHead(data);
      if !Follows(c.less, prev, h) then Err(InvalidData)
      else
        var (b, d2) :- c.readBody(d1);
        var (es, rest) :- ReadEntries(c, Some(h), n - 1, d2);
        Ok(([Entry(h, b)] + es, rest))
  }

  function WriteEntries<H, B>(c: EntryCodec<H, B>, es: seq<Entry<H, B>>): Bytes {
    if es == [] then []
    else c.writeHead(es[0].head) + c.writeBody(es[0].body) + WriteEntries(c, es[1..])
  }

  predicate ValidEntries<H, B>(c: EntryCodec<H, B>, es: seq<Entry<H, B>>) {
    forall i :: 0 <= i < |es| ==> c.validHead(es[i].head) && c.validBody(es[i].body)
  }

  ghost predicate ExactEntry<H(!new), B(!new)>(c: EntryCodec<H, B>) {
    Exact(c.readHead, c.validHead, c.writeHead) && Exact(c.readBody, c.validBody, c.writeBody)
  }

  lemma {:induction false} EntriesSound<H(!new), B(!new)>(c: EntryCodec<H, B>, prev: Option<H>, n: nat, data: Bytes)
    requires ExactEntry(c)
    ensures ReadEntries(c, prev, n, data).Ok? ==>
      var (es, rest) := ReadEntries(c, prev, n, data).value;
      |es| == n && ValidEntries(c, es) && Ascending(c.less, prev, es) && data == WriteEntries(c, es) + rest
    decreases n
  {
    if n > 0 && ReadEntries(c, prev, n, data).Ok? {
      var (h, d1) := c.readHead(data).value;
      var (b, d2) := c.readBody(d1).value;
      assert ExactAt(c.readHead, c.validHead, c.writeHead, data, h, d1);
      assert ExactAt(c.readBody, c.validBody, c.writeBody, d1, b, d2);
      EntriesSound(c, Some(h), n - 1, d2);
      var (tail, rest) := ReadEntries(c, Some(h), n - 1, d2).value;
      var es := [Entry(h, b)] + tail;
      assert es[1..] == tail;
      Assoc(c.writeHead(h), c.writeBody(b), d2);
      Assoc(c.writeHead(h) + c.writeBody(b), WriteEntries(c, tail), rest);
    }
  }

  lemma {:induction false} EntriesComplete<H(!new), B(!new)>(
    c: EntryCodec<H, B>, prev: Option<H>, es: seq<Entry<H, B>>, rest: Bytes)
    requires ExactEntry(c) && ValidEntries(c, es) && Ascending(c.less, prev, es)
    ensures ReadEntries(c, prev, |es|, WriteEntries(c, es) + rest) == Ok((es, rest))
    decreases |es|
  {
    if es == [] {
      assert WriteEntries(c, es) + rest == rest;
    } else {
      var (h, b, tail) := (es[0].head, es[0].body, es[1..]);
      assert es == [Entry(h, b)] + tail;
      EntriesComplete(c, Some(h), tail, rest);
      var d2 := WriteEntries(c, tail) + rest;
      var d1 := c.writeBody(b) + d2;
      Assoc(c.writeHead(h), c.writeBody(b), d2);
      Assoc(c.writeHead(h) + c.writeBody(b), WriteEntries(c, tail), rest);
      assert ExactAt(c.readHead, c.validHead, c.writeHead, c.writeHead(h) + d1, h, d1);
      assert ExactAt(c.readBody, c.validBody, c.writeBody, d1, b, d2);
    }
  }

  /** The loop form of reading `n` entries. */
  method ReadEntriesLoop<H, B>(c: EntryCodec<H, B>, first: Option<H>, n: nat, data: Bytes)
    returns (r: Result<(seq<Entry<H, B>>, Bytes), TlError>)
    ensures r == ReadEntries(c, first, n, data)
  {
    var items, prev, d := [], first, data;
    PrependedNone(ReadEntries(c, first, n, data));
    for i := 0 to n
      invariant ReadEntries(c, first, n, data) == Prepended(items, ReadEntries(c, prev, n - i, d))
    {
      var head := c.readHead(d);
      if head.Err? {
        return Err(head.error);
      }
      var (h, d1) := head.value;
      if !Follows(c.less, prev, h) {
        return Err(InvalidData);
      }
      var body := c.readBody(d1);
      if body.Err? {
        return Err(body.error);
      }
      var (b, d2) := body.value;
      PrependedOne(items, Entry(h, b), ReadEntries(c, Some(h), n - i - 1, d2));
      items, prev, d := items + [Entry(h, b)], Some(h), d2;
    }
    assert items + [] == items;
    return Ok((items, d));
  }

  function Prepended<E>(items: seq<E>, r: Result<(seq<E>, Bytes), TlError>): Result<(seq<E>, Bytes), TlError> {
    match r
    case Ok((es, rest)) => Ok((items + es, rest))
    case Err(e) => Err(e)
  }

  lemma PrependedNone<E>(r: Result<(seq<E>, Bytes), TlError>)
    ensures Prepended([], r) == r
  {
    if r.Ok? {
      assert [] + r.value.0 == r.value.0;
    }
  }

  lemma PrependedOne<E>(items: seq<E>, e: E, r: Result<(seq<E>, Bytes), TlError>)
    ensures Prepended(items, Prepended([e], r)) == Prepended(items + [e], r)
  {
    if r.Ok? {
      assert items + ([e] + r.value.0) == items + [e] + r.value.0;
    }
  }

  /** The loop form of writing entries to the end of a packet. */
  method WriteEntriesLoop<H, B>(c: EntryCodec<H, B>, es: seq<Entry<H, B>>, packet: Bytes) returns (r: Bytes)
    ensures r == packet + WriteEntries(c, es)
  {
    r := packet;
    for i := 0 to |es|
      invariant packet + WriteEntries(c, es) == r + WriteEntries(c, es[i..])
    {
      var w := c.writeHead(es[i].head) + c.writeBody(es[i].body);
      assert es[i..][1..] == es[i + 1..];
      Assoc(r, w, WriteEntries(c, es[i + 1..]));
      r := r + w;
    }
  }

  // --- lists with a length in front ---

  const LEN_SIZE := 4

  function ReadList<H, B>(c: EntryCodec<H, B>, first: Option<H>, max: nat, data: Bytes)
    : Result<(seq<Entry<H, B>>, Bytes), TlError>
  {
    var (n, d) :- ReadUint(LEN_SIZE, data);
    if n > max then Err(InvalidData) else ReadEntries(c, first, n, d)
  }

  /** The length is cut to 32 bits. */
  function WriteList<H, B>(c: EntryCodec<H, B>, es: seq<Entry<H, B>>): Bytes {
    LittleEndian(|es|, LEN_SIZE) + WriteEntries(c, es)
  }

  predicate ValidList<H, B>(c: EntryCodec<H, B>, first: Option<H>, max: nat, es: seq<Entry<H, B>>) {
    |es| <= max && ValidEntries(c, es) && Ascending(c.less, first, es)
  }

  lemma ListExact<H(!new), B(!new)>(
    c: EntryCodec<H, B>, first: Option<H>, max: nat, data: Bytes, es: seq<Entry<H, B>>, rest: Bytes)
    requires ExactEntry(c) && max < Pow256(LEN_SIZE)
    ensures ReadList(c, first, max, data) == Ok((es, rest)) <==>
      ValidList(c, first, max, es) && data == WriteList(c, es) + rest
  {
    if ReadList(c, first, max, data) == Ok((es, rest)) {
      var (n, d) := ReadUint(LEN_SIZE, data).value;
      UintExact(LEN_SIZE, data, n, d);
      EntriesSound(c, first, n, d);
      Assoc(LittleEndian(n, LEN_SIZE), WriteEntries(c, es), rest);
    }
    if ValidList(c, first, max, es) && data == WriteList(c, es) + rest {
      var d := WriteEntries(c, es) + rest;
      Assoc(LittleEndian(|es|, LEN_SIZE), WriteEntries(c, es), rest);
      UintExact(LEN_SIZE, data, |es|, d);
      EntriesComplete(c, first, es, rest);
    }
  }

  /** Entries of one size fill the list by their number. */
  lemma {:induction false} EntriesSize<H, B>(c: EntryCodec<H, B>, es: seq<Entry<H, B>>, size: nat)
    requires ValidEntries(c, es)
    requires forall h, b :: c.validHead(h) && c.validBody(b) ==> |c.writeHead(h)| + |c.writeBody(b)| == size
    ensures |WriteEntries(c, es)| == |es| * size
  {
    if es != [] {
      EntriesSize(c, es[1..], size);
    }
  }

  /** Reading a list the way the source does: length, limit, then entry by entry. */
  method ReadListLoop<H, B>(c: EntryCodec<H, B>, first: Option<H>, max: nat, data: Bytes)
    returns (r: Result<(seq<Entry<H, B>>, Bytes), TlError>)
    ensures r == ReadList(c, first, max, data)
  {
    var len := ReadUint(LEN_SIZE, data);
    if len.Err? {
      return Err(len.error);
    }
    var (n, d) := len.value;
    if n > max {
      return Err(InvalidData);
    }
    r := ReadEntriesLoop(c, first, n, d);
  }

  /** Writing a list: length, then entry by entry. */
  method WriteListLoop<H, B>(c: EntryCodec<H, B>, es: seq<Entry<H, B>>, packet: Bytes) returns (r: Bytes)
    ensures r == packet + WriteList(c, es)
  {
    r := WriteEntriesLoop(c, es, packet + LittleEndian(|es|, LEN_SIZE));
    Assoc(packet, LittleEndian(|es|, LEN_SIZE), WriteEntries(c, es));
  }

  lemma {:induction false} AscendingAt<H, B>(less: (H, H) -> bool, prev: Option<H>, es: seq<Entry<H, B>>, i: nat)
    requires Ascending(less, prev, es) && i + 1 < |es|
    ensures less(es[i].head, es[i + 1].head)
    decreases i
  {
    if i > 0 {
      AscendingAt(less, Some(es[0].head), es[1..], i - 1);
    }
  }

  /** What falls at every step falls between any two places. */
  lemma {:induction false} FallsOverall<H(!new), B>(
    less: (H, H) -> bool, prev: Option<H>, es: seq<Entry<H, B>>, rank: H -> int, i: nat, j: nat)
    requires Ascending(less, prev, es) && i < j < |es|
    requires forall a, b :: less(a, b) ==> rank(a) > rank(b)
    ensures rank(es[i].head) > rank(es[j].head)
    decreases j - i
  {
    AscendingAt(less, prev, es, i);
    if i + 1 < j {
      FallsOverall(less, prev, es, rank, i + 1, j);
    }
  }
}
