/** Block archives: the batch reader and the streaming verifier of the same format. */
module Archives {
  import opened Words
  import opened Wrappers

  const PREFIX: seq<byte> := [0x65, 0x8F, 0x14, 0x29]
  const HEADER_LEN := 4 + 4 + 8 + 4 + 32 + 32 + 4 + 4

  // Decodes an entry header from exactly HEADER_LEN bytes: the length of the entry data, or nothing if malformed.
  type HeaderCodec = seq<byte> -> Option<nat>

  datatype Error =
    | InvalidArchiveHeader
    | InvalidArchiveEntryHeader
    | UnexpectedEntryEof
    | UnexpectedArchiveEof
    | TooSmallInitialBatch

  /** `EntryHeader` holds the header bytes seen so far, `EntryData` the number of data bytes still expected. */
  datatype State = Start | EntryHeader(buffer: seq<byte>) | EntryData(remaining: nat) {
    predicate Valid() { EntryHeader? ==> |buffer| < HEADER_LEN }
  }

  function Min(a: nat, b: nat): nat { if a < b then a else b }

  /** What a verifier in state `v` makes of the next bytes. */
  function Feed(h: HeaderCodec, v: State, part: seq<byte>): (r: Result<State, Error>)
    requires v.Valid()
    ensures r.Ok? ==> r.value.Valid()
    decreases |part|, if v.EntryData? then 1 else 0
  {
    if part == [] then Ok(v)
    else match v
      case Start =>
        if |part| < 4 then Err(TooSmallInitialBatch)
        else if part[..4] != PREFIX then Err(InvalidArchiveHeader)
        else Feed(h, EntryHeader([]), part[4..])
      case EntryHeader(buffer) =>
        var n := Min(|part|, HEADER_LEN - |buffer|);
        var filled := buffer + part[..n];
        if |filled| < HEADER_LEN then Ok(EntryHeader(filled))
        else (match h(filled)
              case None => Err(InvalidArchiveEntryHeader)
              case Some(len) => Feed(h, EntryData(len), part[n..]))
      case EntryData(remaining) =>
        if |part| < remaining then Ok(EntryData(remaining - |part|))
        else Feed(h, EntryHeader([]), part[remaining..])
  }

  function FinalCheck(v: State): Result<(), Error> {
    if v == EntryHeader([]) then Ok(()) else Err(UnexpectedArchiveEof)
  }

  class ArchiveVerifier {
    var state: State

    constructor ()
      ensures state == Start
    {
      state := Start;
    }

    /** Verifies the next chunk of an archive. */
    method WriteVerify(h: HeaderCodec, chunk: seq<byte>) returns (r: Result<(), Error>)
      requires state.Valid()
      modifies this
      ensures r.Ok? <==> Feed(h, old(state), chunk).Ok?
      ensures r.Ok? ==> state.Valid() && Feed(h, old(state), chunk) == Ok(state)
      ensures r.Err? ==> Feed(h, old(state), chunk) == Err(r.error)
    {
      var part := chunk;
      while part != []
        invariant state.Valid()
        invariant Feed(h, old(state), chunk) == Feed(h, state, part)
        decreases |part|, if state.EntryData? then 1 else 0
      {
        match state {
          case Start =>
            if |part| < 4 {
              return Err(TooSmallInitialBatch);
            }
            if part[..4] != PREFIX {
              return Err(InvalidArchiveHeader);
            }
            part, state := part[4..], EntryHeader([]);
          case EntryHeader(buffer) =>
            var n := Min(|part|, HEADER_LEN - |buffer|);
            var filled := buffer + part[..n];
            part := part[n..];
            if |filled| == HEADER_LEN {
              var header := h(filled);
              if header.None? {
                return Err(InvalidArchiveEntryHeader);
              }
              state := EntryData(header.value);
            } else {
              state := EntryHeader(filled);
            }
          case EntryData(len) =>
            // a zero-length entry consumes no byte here
            var n := Min(|part|, len);
            part := part[n..];
            state := if len - n == 0 then EntryHeader([]) else EntryData(len - n);
        }
      }
      return Ok(());
    }
  }

  // --- chunk invariance ---

  /** Feeding two parts in a row is feeding their concatenation, unless the first one cuts the prefix. */
  lemma {:induction false} FeedConcat(h: HeaderCodec, v: State, a: seq<byte>, b: seq<byte>)
    requires v.Valid() && (v == Start ==> a == [] || |a| >= 4)
    ensures match Feed(h, v, a)
            case Ok(w) => w.Valid() && Feed(h, v, a + b) == Feed(h, w, b)
            case Err(e) => Feed(h, v, a + b) == Err(e)
    decreases |a|, if v.EntryData? then 2 else 1
  {
    if a == [] {
      assert a + b == b;
    } else {
      match v
      case Start =>
        assert (a + b)[..4] == a[..4] && (a + b)[4..] == a[4..] + b;
        FeedConcat(h, EntryHeader([]), a[4..], b);
      case EntryHeader(buffer) =>
        FeedHeaderConcat(h, buffer, a, b);
      case EntryData(len) =>
        if |a| < len {
          FeedDataConcat(h, len, a, b);
        } else {
          assert (a + b)[len..] == a[len..] + b;
          FeedConcat(h, EntryHeader([]), a[len..], b);
        }
    }
  }

  lemma {:induction false} FeedHeaderConcat(h: HeaderCodec, buffer: seq<byte>, a: seq<byte>, b: seq<byte>)
    requires |buffer| < HEADER_LEN && a != []
    ensures match Feed(h, EntryHeader(buffer), a)
            case Ok(w) => w.Valid() && Feed(h, EntryHeader(buffer), a + b) == Feed(h, w, b)
            case Err(e) => Feed(h, EntryHeader(buffer), a + b) == Err(e)
    decreases |a|, 0
  {
    var n := HEADER_LEN - |buffer|;
    if |a| < n {
      var filled := buffer + a;
      assert a[..|a|] == a;
      if b == [] {
        assert a + b == a;
      } else {
        var m := Min(|a + b|, n);
        assert buffer + (a + b)[..m] == filled + b[..m - |a|];
        assert (a + b)[m..] == b[m - |a|..];
      }
    } else {
      assert (a + b)[..n] == a[..n] && (a + b)[n..] == a[n..] + b;
      var header := h(buffer + a[..n]);
      if header.Some? {
        FeedConcat(h, EntryData(header.value), a[n..], b);
      }
    }
  }

  lemma FeedDataConcat(h: HeaderCodec, len: nat, a: seq<byte>, b: seq<byte>)
    requires a != [] && |a| < len
    ensures Feed(h, EntryData(len), a + b) == Feed(h, EntryData(len - |a|), b)
  {
    if b == [] {
      assert a + b == a;
    } else if |a + b| >= len {
      assert (a + b)[len..] == b[len - |a|..];
    }
  }

  function Flatten(chunks: seq<seq<byte>>): seq<byte> {
    if chunks == [] then [] else chunks[0] + Flatten(chunks[1..])
  }

  /** Chunks are fed until one is refused. */
  function FeedChunks(h: HeaderCodec, v: State, chunks: seq<seq<byte>>): Result<State, Error>
    requires v.Valid()
    decreases |chunks|
  {
    if chunks == [] then Ok(v)
    else
      match Feed(h, v, chunks[0])
      case Ok(w) => FeedChunks(h, w, chunks[1..])
      case Err(e) => Err(e)
  }

  /** The first chunk that is not empty holds the whole prefix. */
  predicate GoodStart(chunks: seq<seq<byte>>) {
    chunks == [] || |chunks[0]| >= 4 || (chunks[0] == [] && GoodStart(chunks[1..]))
  }

  lemma {:induction false} ChunksFrom(h: HeaderCodec, v: State, chunks: seq<seq<byte>>)
    requires v.Valid() && (v == Start ==> GoodStart(chunks))
    ensures FeedChunks(h, v, chunks) == Feed(h, v, Flatten(chunks))
    decreases |chunks|
  {
    if chunks != [] {
      FeedConcat(h, v, chunks[0], Flatten(chunks[1..]));
      var r := Feed(h, v, chunks[0]);
      if r.Ok? {
        if r.value == Start {
          FeedNotStart(h, v, chunks[0]);
        }
        ChunksFrom(h, r.value, chunks[1..]);
      }
    }
  }

  /** Only an empty part leaves the verifier at its start. */
  lemma {:induction false} FeedNotStart(h: HeaderCodec, v: State, part: seq<byte>)
    requires v.Valid() && Feed(h, v, part) == Ok(Start)
    ensures part == [] && v == Start
    decreases |part|, if v.EntryData? then 1 else 0
  {
    if part != [] {
      match v
      case Start => FeedNotStart(h, EntryHeader([]), part[4..]);
      case EntryHeader(buffer) =>
        var n := Min(|part|, HEADER_LEN - |buffer|);
        FeedNotStart(h, EntryData(h(buffer + part[..n]).value), part[n..]);
      case EntryData(len) => FeedNotStart(h, EntryHeader([]), part[len..]);
    }
  }

  /** A verifier past its start, or given the whole prefix at once, never complains about a small batch. */
  lemma {:induction false} FeedBigEnough(h: HeaderCodec, v: State, part: seq<byte>)
    requires v.Valid() && (v == Start ==> |part| >= 4)
    ensures Feed(h, v, part) != Err(TooSmallInitialBatch)
    decreases |part|, if v.EntryData? then 1 else 0
  {
    if part != [] {
      match v
      case Start =>
        if part[..4] == PREFIX {
          FeedBigEnough(h, EntryHeader([]), part[4..]);
        }
      case EntryHeader(buffer) =>
        var n := Min(|part|, HEADER_LEN - |buffer|);
        var filled := buffer + part[..n];
        if |filled| == HEADER_LEN && h(filled).Some? {
          FeedBigEnough(h, EntryData(h(filled).value), part[n..]);
        }
      case EntryData(len) =>
        if |part| >= len {
          FeedBigEnough(h, EntryHeader([]), part[len..]);
        }
    }
  }

  lemma {:induction false} BadStart(h: HeaderCodec, chunks: seq<seq<byte>>)
    requires !GoodStart(chunks)
    ensures FeedChunks(h, Start, chunks) == Err(TooSmallInitialBatch)
  {
    if chunks[0] == [] {
      BadStart(h, chunks[1..]);
    }
  }

  /** Chunking does not matter exactly when no chunk cuts the prefix, or there is no whole prefix at all. */
  lemma ChunkInvariance(h: HeaderCodec, chunks: seq<seq<byte>>)
    ensures FeedChunks(h, Start, chunks) == Feed(h, Start, Flatten(chunks))
            <==> GoodStart(chunks) || |Flatten(chunks)| < 4
  {
    if GoodStart(chunks) {
      ChunksFrom(h, Start, chunks);
    } else {
      BadStart(h, chunks);
      if |Flatten(chunks)| >= 4 {
        FeedBigEnough(h, Start, Flatten(chunks));
      } else {
        BadStartBytes(chunks);
      }
    }
  }

  lemma {:induction false} BadStartBytes(chunks: seq<seq<byte>>)
    requires !GoodStart(chunks)
    ensures Flatten(chunks) != []
  {
    if chunks[0] == [] {
      BadStartBytes(chunks[1..]);
    }
  }

  // --- verifier against reader ---

  /** What a full pass of the reader yields: entry data in order and the bytes it left. */
  datatype Contents = Contents(entries: seq<seq<byte>>, rest: seq<byte>)

  function ReadEntries(h: HeaderCodec, data: seq<byte>): Result<Contents, Error> {
    if |data| < 8 then Ok(Contents([], data))
    else if |data| < HEADER_LEN || h(data[..HEADER_LEN]).None? then Err(InvalidArchiveEntryHeader)
    else
      var len := h(data[..HEADER_LEN]).value;
      var tail := data[HEADER_LEN..];
      if |tail| < len then Err(UnexpectedEntryEof)
      else
        match ReadEntries(h, tail[len..])
        case Err(e) => Err(e)
        case Ok(c) => Ok(Contents([tail[..len]] + c.entries, c.rest))
  }

  function ReadArchive(h: HeaderCodec, data: seq<byte>): Result<Contents, Error> {
    if |data| < 4 || data[..4] != PREFIX then Err(InvalidArchiveHeader) else ReadEntries(h, data[4..])
  }

  class ArchiveReader {
    var data: seq<byte>

    constructor (bytes: seq<byte>)
      ensures data == bytes
    {
      data := bytes;
    }

    /** Starts reading; the prefix is consumed only when it is right. */
    method ReadPrefix() returns (r: Result<(), Error>)
      modifies this
      ensures r.Ok? <==> |old(data)| >= 4 && old(data)[..4] == PREFIX
      ensures r.Ok? ==> old(data) == PREFIX + data
      ensures r.Err? ==> data == old(data) && r.error == InvalidArchiveHeader
    {
      if |data| < 4 || data[..4] != PREFIX {
        return Err(InvalidArchiveHeader);
      }
      data := data[4..];
      return Ok(());
    }

    /** The next entry, or nothing when fewer than eight bytes are left. */
    method Next(h: HeaderCodec) returns (r: Option<Result<seq<byte>, Error>>)
      modifies this
      ensures r.None? <==> |old(data)| < 8
      ensures r.None? ==> data == old(data)
      ensures r.Some? && r.value.Ok? ==>
                && |data| < |old(data)|
                && |old(data)| >= HEADER_LEN
                && h(old(data)[..HEADER_LEN]) == Some(|r.value.value|)
                && old(data) == old(data)[..HEADER_LEN] + r.value.value + data
      ensures r.Some? && r.value.Err? ==> ReadEntries(h, old(data)) == Err(r.value.error)
    {
      if |data| < 8 {
        return None;
      }
      if |data| < HEADER_LEN {
        return Some(Err(InvalidArchiveEntryHeader));
      }
      var header := h(data[..HEADER_LEN]);
      if header.None? {
        return Some(Err(InvalidArchiveEntryHeader));
      }
      var tail := data[HEADER_LEN..];
      if |tail| < header.value {
        return Some(Err(UnexpectedEntryEof));
      }
      var entry := tail[..header.value];
      data := tail[header.value..];
      return Some(Ok(entry));
    }
  }

  /** Reads a whole archive entry by entry. */
  method ReadAll(h: HeaderCodec, bytes: seq<byte>) returns (r: Result<Contents, Error>)
    ensures r == ReadArchive(h, bytes)
  {
    var reader := new ArchiveReader(bytes);
    var start := reader.ReadPrefix();
    if start.Err? {
      return Err(start.error);
    }
    assert bytes[4..] == reader.data;
    var entries: seq<seq<byte>> := [];
    ghost var all := ReadEntries(h, reader.data);
    assert all.Ok? ==> entries + all.value.entries == all.value.entries;
    while true
      invariant ReadEntries(h, bytes[4..]) ==
                match ReadEntries(h, reader.data)
                case Err(e) => Err(e)
                case Ok(c) => Ok(Contents(entries + c.entries, c.rest))
      decreases |reader.data|
    {
      ghost var before := reader.data;
      var next := reader.Next(h);
      match next {
        case None =>
          assert entries + [] == entries;
          return Ok(Contents(entries, reader.data));
        case Some(Err(e)) =>
          return Err(e);
        case Some(Ok(entry)) =>
          ReadNext(h, before, entry, reader.data, entries);
          entries := entries + [entry];
      }
    }
  }

  lemma ReadNext(h: HeaderCodec, data: seq<byte>, entry: seq<byte>, rest: seq<byte>, entries: seq<seq<byte>>)
    requires |data| >= HEADER_LEN && h(data[..HEADER_LEN]) == Some(|entry|)
    requires data == data[..HEADER_LEN] + entry + rest
    ensures match ReadEntries(h, rest)
            case Err(e) => ReadEntries(h, data) == Err(e)
            case Ok(c) => && ReadEntries(h, data).Ok?
                          && ReadEntries(h, data).value == Contents([entry] + c.entries, c.rest)
                          && entries + ([entry] + c.entries) == (entries + [entry]) + c.entries
  {
    var tail := data[HEADER_LEN..];
    assert tail == entry + rest;
    assert tail[..|entry|] == entry && tail[|entry|..] == rest;
  }

  /** All bytes are used and the last entry, if any, is not empty. */
  predicate Complete(c: Contents) {
    c.rest == [] && (c.entries == [] || c.entries[|c.entries| - 1] != [])
  }

  predicate Accepted(r: Result<State, Error>) {
    r.Ok? && FinalCheck(r.value).Ok?
  }

  lemma {:induction false} VerifierMatchesEntries(h: HeaderCodec, data: seq<byte>)
    ensures Accepted(Feed(h, EntryHeader([]), data))
            <==> ReadEntries(h, data).Ok? && Complete(ReadEntries(h, data).value)
    decreases |data|
  {
    if data == [] {
    } else if |data| < HEADER_LEN {
      assert data[..|data|] == data;
    } else {
      assert [] + data[..HEADER_LEN] == data[..HEADER_LEN];
      var header := h(data[..HEADER_LEN]);
      var tail := data[HEADER_LEN..];
      if header.Some? && tail != [] && |tail| >= header.value {
        VerifierMatchesEntries(h, tail[header.value..]);
      }
    }
  }

  /** The verifier accepts an archive iff the reader reads all of it and the last entry is not empty. */
  lemma VerifierMatchesReader(h: HeaderCodec, data: seq<byte>)
    ensures Accepted(Feed(h, Start, data)) <==> ReadArchive(h, data).Ok? && Complete(ReadArchive(h, data).value)
  {
    if |data| >= 4 && data[..4] == PREFIX {
      VerifierMatchesEntries(h, data[4..]);
    }
  }

  // --- both sides against the layout ---

  /** An entry of an archive: the bytes of its header and its data. */
  datatype Entry = Entry(header: seq<byte>, body: seq<byte>)

  ghost predicate Good(h: HeaderCodec, es: seq<Entry>) {
    forall i :: 0 <= i < |es| ==> |es[i].header| == 92 && h(es[i].header) == Some(|es[i].body|)
  }

  ghost function Layout(es: seq<Entry>): seq<byte> {
    if es == [] then [] else es[0].header + es[0].body + Layout(es[1..])
  }

  ghost function Bodies(es: seq<Entry>): seq<seq<byte>> {
    if es == [] then [] else [es[0].body] + Bodies(es[1..])
  }

  ghost predicate BadHeader(h: HeaderCodec, rest: seq<byte>) {
    |rest| >= 92 && h(rest[..92]) == None
  }

  /** The header promises more than there is. */
  ghost predicate CutOff(h: HeaderCodec, rest: seq<byte>) {
    |rest| >= 92 && h(rest[..92]).Some? && |rest| < 92 + h(rest[..92]).value
  }

  /** No whole entry is left. */
  ghost predicate Ends(h: HeaderCodec, rest: seq<byte>) {
    |rest| < 92 || BadHeader(h, rest) || CutOff(h, rest)
  }

  /** All bytes are some whole entries and an end without one. */
  lemma {:induction false} Parsed(h: HeaderCodec, data: seq<byte>) returns (es: seq<Entry>, rest: seq<byte>)
    ensures Good(h, es) && Ends(h, rest) && data == Layout(es) + rest
    decreases |data|
  {
    if Ends(h, data) {
      es, rest := [], data;
      assert Layout(es) + rest == data;
    } else {
      var n := 92 + h(data[..92]).value;
      var e := Entry(data[..92], data[92..n]);
      es, rest := Parsed(h, data[n..]);
      es := [e] + es;
      assert es[1..] + [] == es[1..];
      assert data == e.header + e.body + data[n..];
    }
  }

  lemma LayoutFirst(es: seq<Entry>, rest: seq<byte>)
    requires es != [] && |es[0].header| == 92
    ensures (Layout(es) + rest)[..92] == es[0].header
    ensures (Layout(es) + rest)[92..] == es[0].body + (Layout(es[1..]) + rest)
  {
  }

  /** What the reader makes of some entries and an end: fewer than eight bytes are left alone,
    otherwise the end decides which error it is. */
  lemma {:induction false} ReadEntriesIs(h: HeaderCodec, es: seq<Entry>, rest: seq<byte>)
    requires Good(h, es) && Ends(h, rest)
    ensures ReadEntries(h, Layout(es) + rest) ==
            if |rest| < 8 then Ok(Contents(Bodies(es), rest))
            else Err(if CutOff(h, rest) then UnexpectedEntryEof else InvalidArchiveEntryHeader)
  {
    if es == [] {
      assert Layout(es) + rest == rest;
    } else {
      LayoutFirst(es, rest);
      ReadEntriesIs(h, es[1..], rest);
      var tail := es[0].body + (Layout(es[1..]) + rest);
      assert tail[..|es[0].body|] == es[0].body && tail[|es[0].body|..] == Layout(es[1..]) + rest;
    }
  }

  /** Where a verifier stands after some entries and an end; the data of an empty last entry is still awaited. */
  ghost function StandsAt(h: HeaderCodec, es: seq<Entry>, rest: seq<byte>): Result<State, Error> {
    if BadHeader(h, rest) then Err(InvalidArchiveEntryHeader)
    else if CutOff(h, rest) then Ok(EntryData(92 + h(rest[..92]).value - |rest|))
    else if rest == [] && es != [] && es[|es| - 1].body == [] then Ok(EntryData(0))
    else Ok(EntryHeader(rest))
  }

  lemma FeedEnd(h: HeaderCodec, rest: seq<byte>)
    requires Ends(h, rest)
    ensures Feed(h, EntryHeader([]), rest) == StandsAt(h, [], rest)
  {
    if |rest| < 92 {
      assert [] + rest[..|rest|] == rest;
    } else {
      assert [] + rest[..92] == rest[..92];
    }
  }

  lemma {:induction false} FeedEntriesIs(h: HeaderCodec, es: seq<Entry>, rest: seq<byte>)
    requires Good(h, es) && Ends(h, rest)
    ensures Feed(h, EntryHeader([]), Layout(es) + rest) == StandsAt(h, es, rest)
  {
    var data := Layout(es) + rest;
    if es == [] {
      assert data == rest;
      FeedEnd(h, rest);
    } else {
      LayoutFirst(es, rest);
      var next := Layout(es[1..]) + rest;
      assert [] + data[..92] == es[0].header;
      assert Feed(h, EntryHeader([]), data) == Feed(h, EntryData(|es[0].body|), es[0].body + next);
      FeedEntriesIs(h, es[1..], rest);
      assert (es[0].body + next)[|es[0].body|..] == next;
    }
  }

  /** Reader and verifier on an archive that starts with the prefix. */
  lemma ArchiveIs(h: HeaderCodec, es: seq<Entry>, rest: seq<byte>)
    requires Good(h, es) && Ends(h, rest)
    ensures ReadArchive(h, PREFIX + (Layout(es) + rest)) ==
            if |rest| < 8 then Ok(Contents(Bodies(es), rest))
            else Err(if CutOff(h, rest) then UnexpectedEntryEof else InvalidArchiveEntryHeader)
    ensures Feed(h, Start, PREFIX + (Layout(es) + rest)) == StandsAt(h, es, rest)
  {
    var data := PREFIX + (Layout(es) + rest);
    assert data[..4] == PREFIX && data[4..] == Layout(es) + rest;
    ReadEntriesIs(h, es, rest);
    FeedEntriesIs(h, es, rest);
  }

  /** Without the prefix nothing is read; the verifier tells a wrong prefix from a cut one. */
  lemma WrongPrefix(h: HeaderCodec, data: seq<byte>)
    requires |data| < 4 || data[..4] != [0x65, 0x8F, 0x14, 0x29]
    ensures ReadArchive(h, data) == Err(InvalidArchiveHeader)
    ensures Feed(h, Start, data) == if data == [] then Ok(Start)
                                    else Err(if |data| < 4 then TooSmallInitialBatch else InvalidArchiveHeader)
  {
  }

  /** At the end only a verifier between two entries is content. */
  lemma FinalCheckIs(h: HeaderCodec, es: seq<Entry>, rest: seq<byte>)
    requires Good(h, es) && Ends(h, rest) && !BadHeader(h, rest)
    ensures FinalCheck(StandsAt(h, es, rest).value) ==
            if rest == [] && (es == [] || es[|es| - 1].body != []) then Ok(()) else Err(UnexpectedArchiveEof)
  {
  }
}
