/**
 The encoder of the chunked transfer coding over a reader (`ChunkBody<FromReader>`),
 which fills whatever output buffers it is given, and its round trip through
 the decoder. The reader fills the chunk buffer as long as it has bytes.
 */
module ChunkEncoder {
  import opened MachineWords
  import opened ChunkDecoder

  const CHUNK_SIZE: nat := 1024

  //
  // The encoding of a body.
  //

  function HexDigit(v: nat): u8
    requires v < 16
  {
    if v < 10 then 48 + v else 87 + v
  }

  /** `format!("{n:x}")`. */
  function Hex(n: nat): (s: Bytes)
    ensures s != []
  {
    if n < 16 then [HexDigit(n)] else Hex(n / 16) + [HexDigit(n % 16)]
  }

  /** A chunk and what follows it. */
  function Block(c: Bytes, rest: Bytes): Bytes {
    Hex(|c|) + (CRLF + (c + (CRLF + rest)))
  }

  /** The encoding of all bytes of a reader: full chunks, one shorter chunk, the trailer part. */
  function Full(source: Bytes, trailer: Bytes): Bytes {
    if |source| < CHUNK_SIZE then Block(source, trailer)
    else Block(source[..CHUNK_SIZE], Full(source[CHUNK_SIZE..], trailer))
  }

  /** `0 CRLF`, the trailer fields, `CRLF`. */
  function TrailerPart(fields: Bytes): Bytes {
    [48] + CRLF + fields + CRLF
  }

  const LAST: Bytes := [48, 13, 10, 13, 10]

  //
  // Decoding an encoding.
  //

  lemma {:induction false} FeedDigits(m: Assembly, d: Dec, n: nat, rest: Bytes)
    requires d.stage == Size && d.hexCount == 0 && n <= MAX_I64
    ensures Feed(m, d, Hex(n) + rest) == Feed(m, d.(hexCount := n), rest)
  {
    var b := HexDigit(n % 16);
    var tail := [b] + rest;
    var d' := d.(hexCount := n / 16);
    assert HexValue(b) == n % 16;
    assert tail[0] == b && tail[1..] == rest;
    assert Take(d', b) == Took(d.(hexCount := n), false);
    if n < 16 {
      assert d' == d && Hex(n) + rest == tail;
    } else {
      assert Hex(n) + rest == Hex(n / 16) + tail;
      FeedDigits(m, d, n / 16, tail);
    }
  }

  lemma {:induction false} FeedData(m: Assembly, d: Dec, data: Bytes, rest: Bytes)
    requires d.stage == Data && d.restSize == |data| > 0
    ensures Feed(m, d, data + rest) == Feed(m.(current := m.current + data), AllData(d), rest)
    decreases data
  {
    var all := data + rest;
    assert all[0] == data[0] && all[1..] == data[1..] + rest;
    var m' := m.(current := m.current + [data[0]]);
    if |data| == 1 {
      assert data == [data[0]] && all[1..] == rest;
    } else {
      FeedData(m', d.(restSize := d.restSize - 1), data[1..], rest);
      assert m.current + [data[0]] + data[1..] == m.current + data;
    }
  }

  // A line end closes the size line, or the chunk.
  lemma FeedSizeLine(m: Assembly, d: Dec, rest: Bytes)
    requires d.stage == Size && !d.crMeet
    ensures Feed(m, d, CRLF + rest) == Feed(m, Sized(d).(stage := Data), rest)
  {
    var all := CRLF + rest;
    assert all[0] == CR && all[1..][0] == LF && all[1..][1..] == rest;
    var d1 := Sized(d).(crMeet := true, stage := SizeEnd);
    assert Take(d, CR) == Took(d1, false);
    assert Take(d1, LF) == Took(d1.(crMeet := false, stage := Data), false);
    assert Feed(m, d1, all[1..]) == Feed(m, d1.(crMeet := false, stage := Data), rest);
  }

  lemma FeedChunkEnd(m: Assembly, d: Dec, rest: Bytes)
    requires (d.stage == DataEnd && !d.crMeet) || (d.stage == Data && d.restSize == 0)
    ensures
      var d1 := AllData(d).(stage := Size, totalSize := 0);
      var m1 := Assembly(m.done + [Entire(d.chunkNum, d.totalSize, m.current)], []);
      Feed(m, d, CRLF + rest) == if d.isLast then Over(m1, NextChunk(d1), rest) else Feed(m1, NextChunk(d1), rest)
    requires d.restSize == 0
  {
    var all := CRLF + rest;
    assert all[0] == CR && all[1..][0] == LF && all[1..][1..] == rest;
    var d0 := AllData(d).(crMeet := true);
    assert Take(d, CR) == Took(d0, false);
    assert Take(d0, LF) == EndOfChunk(AllData(d).(stage := Size, totalSize := 0), d.totalSize);
  }

  /** The decoder at the start of a chunk. */
  function AtChunk(k: nat): Dec {
    INITIAL.(chunkNum := k)
  }

  lemma FeedBlock(done: seq<Entire>, k: nat, c: Bytes, rest: Bytes)
    requires |c| <= MAX_I64
    ensures
      var m := Assembly(done + [Entire(k, |c|, c)], []);
      Feed(Assembly(done, []), AtChunk(k), Block(c, rest))
      == if c == [] then Over(m, INITIAL, rest) else Feed(m, AtChunk(k + 1), rest)
  {
    hide Feed, Hex;
    var m := Assembly(done, []);
    var d := AtChunk(k).(hexCount := |c|);
    var end := CRLF + rest;
    FeedDigits(m, AtChunk(k), |c|, CRLF + (c + end));
    FeedSizeLine(m, d, c + end);
    var d1 := Sized(d).(stage := Data);
    if c == [] {
      assert c + end == end;
      FeedChunkEnd(m, d1, rest);
    } else {
      FeedData(m, d1, c, end);
      assert [] + c == c;
      FeedChunkEnd(Assembly(done, c), AllData(d1), rest);
    }
  }

  /** The chunks that a body of these bytes consists of, numbered from `k`. */
  function Expected(k: nat, source: Bytes): seq<Entire>
    decreases |source|
  {
    if |source| >= CHUNK_SIZE then [Entire(k, CHUNK_SIZE, source[..CHUNK_SIZE])] + Expected(k + 1, source[CHUNK_SIZE..])
    else if source == [] then [Entire(k, 0, [])]
    else [Entire(k, |source|, source), Entire(k + 1, 0, [])]
  }

  function Contents(chunks: seq<Entire>): Bytes {
    if chunks == [] then [] else chunks[0].data + Contents(chunks[1..])
  }

  lemma {:induction false} ExpectedContents(k: nat, source: Bytes)
    ensures Contents(Expected(k, source)) == source
    decreases |source|
  {
    var e := Expected(k, source);
    if |source| >= CHUNK_SIZE {
      ExpectedContents(k + 1, source[CHUNK_SIZE..]);
      assert e[1..] == Expected(k + 1, source[CHUNK_SIZE..]);
    } else if source == [] {
      assert e[1..] == [];
    } else {
      var last := [Entire(k + 1, 0, [])];
      assert e[1..] == last && last[1..] == [];
      assert Contents(last) == [] + Contents([]);
    }
  }

  /**
   Decoding an encoding gives the chunks back and stops at the first empty one;
   what follows it is left over. A body whose length is a multiple of the chunk
   size ends with two of them.
   */
  lemma {:induction false} FeedFull(done: seq<Entire>, k: nat, source: Bytes)
    ensures
      Feed(Assembly(done, []), AtChunk(k), Full(source, LAST))
      == Over(Assembly(done + Expected(k, source), []), INITIAL, if |source| % CHUNK_SIZE == 0 then LAST else [])
    decreases |source|
  {
    hide Feed, Hex;
    if |source| >= CHUNK_SIZE {
      var c := source[..CHUNK_SIZE];
      FeedBlock(done, k, c, Full(source[CHUNK_SIZE..], LAST));
      FeedFull(done + [Entire(k, CHUNK_SIZE, c)], k + 1, source[CHUNK_SIZE..]);
      assert done + [Entire(k, CHUNK_SIZE, c)] + Expected(k + 1, source[CHUNK_SIZE..]) == done + Expected(k, source);
    } else {
      FeedBlock(done, k, source, LAST);
      if source != [] {
        var e := [Entire(k, |source|, source)];
        LastIsBlock();
        FeedBlock(done + e, k + 1, [], []);
        assert done + e + [Entire(k + 1, 0, [])] == done + Expected(k, source);
      }
    }
  }

  lemma LastIsBlock()
    ensures Block([], []) == LAST == TrailerPart([])
  {
  }

  /** The round trip: the contents come back, whole, whatever their length. */
  lemma RoundTrip(content: Bytes)
    ensures
      var r := Call(Assembly([], []), INITIAL, Full(content, LAST));
      && r.Over?
      && Contents(r.m.done) == content && r.m.current == []
      && r.left == (if |content| % CHUNK_SIZE == 0 then LAST else [])
  {
    hide Feed, Call, Full, Expected, Contents;
    FeedFull([], 0, content);
    ExpectedContents(0, content);
    assert [] + Expected(0, content) == Expected(0, content);
    CallIsFeed(Assembly([], []), INITIAL, Full(content, LAST));
  }

  //
  // The encoder between steps.
  //

  datatype DataState = Partial | Complete | Finished

  datatype Status = AtSize | AtSizeCrlf | AtData | AtDataCrlf | AtFinish

  /**
   `source` is what the reader still holds, `chunkBuf` the chunk read last. The
   indices say how much of each token is written: of the size digits of a full
   chunk, of the line ends, of the data, of the trailer part.
   */
  datatype Enc = Enc(
    source: Bytes, chunkBuf: Bytes, trailer: Bytes,
    dataState: DataState, readFlag: bool, status: Status,
    hexIdx: nat, metaIdx: nat, chunkIdx: nat, dataIdx: nat, finishIdx: nat, trailerIdx: nat)

  predicate FullChunk(e: Enc) {
    |e.chunkBuf| == CHUNK_SIZE
  }

  predicate Valid(e: Enc) {
    && |e.chunkBuf| <= CHUNK_SIZE && e.trailer != []
    && e.trailerIdx <= |e.trailer|
    && (e.dataState == Complete ==> e.trailerIdx < |e.trailer|)
    && (e.dataState == Partial ==> ValidPartial(e))
  }

  predicate ValidPartial(e: Enc) {
    && e.trailerIdx == 0
    && e.hexIdx < 3 && e.metaIdx < 2 && e.dataIdx < 2 && e.finishIdx < 2
    && (e.hexIdx != 0 ==> e.status == AtSize && e.readFlag && FullChunk(e))
    && (e.metaIdx != 0 ==> e.status == AtSizeCrlf)
    && (e.dataIdx != 0 ==> e.status == AtDataCrlf)
    && (e.finishIdx != 0 ==> e.status == AtFinish)
    && (e.status == AtSizeCrlf || e.status == AtData ==> e.readFlag)
    && (e.readFlag && !FullChunk(e) ==> e.source == [])
    && (e.status == AtFinish ==> e.source == [] && (e.readFlag ==> e.chunkBuf == []))
    && (if e.status == AtData then e.chunkIdx <= |e.chunkBuf| && (e.chunkIdx == |e.chunkBuf| ==> e.chunkBuf == [])
        else e.readFlag ==> e.chunkIdx == 0)
  }

  /** What follows the chunk that was read. */
  function After(e: Enc): Bytes {
    if FullChunk(e) then Full(e.source, e.trailer) else e.trailer
  }

  /** Everything that is still to be written. */
  function Pending(e: Enc): Bytes
    requires Valid(e)
  {
    match e.dataState
    case Finished => []
    case Complete => e.trailer[e.trailerIdx..]
    case Partial => PendingPartial(e)
  }

  function PendingPartial(e: Enc): Bytes
    requires Valid(e) && e.dataState == Partial
  {
    match e.status
    case AtSize =>
      if !e.readFlag then Full(e.source, e.trailer)
      else Digits(e)[DigitsIdx(e)..] + (CRLF + (e.chunkBuf + (CRLF + After(e))))
    case AtSizeCrlf => CRLF[e.metaIdx..] + (e.chunkBuf + (CRLF + After(e)))
    case AtData => e.chunkBuf[e.chunkIdx..] + (CRLF + After(e))
    case AtDataCrlf =>
      CRLF[e.dataIdx..] + (if e.readFlag then Block(e.chunkBuf, After(e)) else Full(e.source, e.trailer))
    case AtFinish => CRLF[e.finishIdx..] + e.trailer
  }

  function Digits(e: Enc): (s: Bytes)
    ensures FullChunk(e) ==> |s| == 3
  {
    HexOfFull(e.chunkBuf);
    Hex(|e.chunkBuf|)
  }

  /** The digits of a shorter chunk are always written from the start. */
  function DigitsIdx(e: Enc): nat {
    if FullChunk(e) then e.hexIdx else 0
  }

  lemma HexOfFull(c: Bytes)
    ensures |c| == CHUNK_SIZE ==> Hex(|c|) == [52, 48, 48]
  {
    assert Hex(4) == [52];
    assert Hex(64) == Hex(4) + [48];
    assert Hex(1024) == Hex(64) + [48];
  }

  /** Reading the next chunk writes nothing. */
  function Read(e: Enc): Enc {
    if e.dataState == Partial && !e.readFlag then
      var n := if |e.source| < CHUNK_SIZE then |e.source| else CHUNK_SIZE;
      e.(readFlag := true, chunkIdx := 0, chunkBuf := e.source[..n], source := e.source[n..])
    else e
  }

  lemma ReadKeeps(e: Enc)
    requires Valid(e)
    ensures Valid(Read(e)) && Pending(Read(e)) == Pending(e)
    ensures e.dataState != Finished ==> Ready(Read(e))
  {
    hide Hex;
    if e.dataState == Partial && !e.readFlag {
      var r := Read(e);
      if |e.source| < CHUNK_SIZE {
        assert e.source[..|e.source|] == e.source;
      }
      assert Full(e.source, e.trailer) == Block(r.chunkBuf, After(r));
      if e.status == AtSize {
        assert Digits(r)[0..] == Digits(r);
      }
    }
  }

  /** The token under way, how far it is written, and the encoder once it is written. */
  datatype Token = Token(src: Bytes, idx: nat, next: Enc)

  predicate Ready(e: Enc) {
    Valid(e) && e.dataState != Finished && (e.dataState == Partial ==> e.readFlag)
  }

  function TokenOf(e: Enc): (t: Token)
    requires Ready(e)
    ensures t.idx <= |t.src|
    ensures t.idx == |t.src| ==> e.dataState == Partial && e.status == AtData
  {
    if e.dataState == Complete then Token(e.trailer, e.trailerIdx, e.(trailerIdx := |e.trailer|, dataState := Finished))
    else
      match e.status
      case AtSize => Token(Digits(e), DigitsIdx(e), e.(hexIdx := 0, status := AtSizeCrlf))
      case AtSizeCrlf => Token(CRLF, e.metaIdx, e.(metaIdx := 0, status := AtData))
      case AtData =>
        Token(e.chunkBuf, e.chunkIdx,
              e.(chunkIdx := |e.chunkBuf|, readFlag := false, status := if FullChunk(e) then AtDataCrlf else AtFinish))
      case AtDataCrlf => Token(CRLF, e.dataIdx, e.(dataIdx := 0, status := AtSize))
      case AtFinish => Token(CRLF, e.finishIdx, e.(finishIdx := 2, dataState := Complete))
  }

  /** The encoder after `k` more bytes of an unfinished token; the digits of a shorter chunk start over. */
  function Advance(e: Enc, k: nat): Enc {
    if e.dataState == Complete then e.(trailerIdx := e.trailerIdx + k)
    else
      match e.status
      case AtSize => if FullChunk(e) then e.(hexIdx := e.hexIdx + k) else e
      case AtSizeCrlf => e.(metaIdx := e.metaIdx + k)
      case AtData => e.(chunkIdx := e.chunkIdx + k)
      case AtDataCrlf => e.(dataIdx := e.dataIdx + k)
      case AtFinish => e.(finishIdx := e.finishIdx + k)
  }

  predicate AtTailSize(e: Enc) {
    e.dataState == Partial && e.status == AtSize && e.readFlag && !FullChunk(e)
  }

  // A whole token is written: the rest is what its successor has pending.
  lemma TokenDone(e: Enc)
    requires Ready(e)
    ensures Valid(TokenOf(e).next)
    ensures Pending(e) == TokenOf(e).src[TokenOf(e).idx..] + Pending(TokenOf(e).next)
  {
    hide Hex, Full;
    var n := TokenOf(e).next;
    if e.dataState == Partial {
      match e.status
      case AtSize => assert CRLF[0..] == CRLF;
      case AtSizeCrlf => assert e.chunkBuf[0..] == e.chunkBuf;
      case AtData => assert CRLF[0..] == CRLF;
      case AtDataCrlf => assert Digits(n)[0..] == Digits(n);
      case AtFinish => assert e.trailer[0..] == e.trailer;
    }
  }

  // Part of a token is written.
  lemma TokenPart(e: Enc, k: nat)
    requires Ready(e) && TokenOf(e).idx + k < |TokenOf(e).src|
    requires !AtTailSize(e)
    ensures Valid(Advance(e, k))
    ensures Pending(e) == TokenOf(e).src[TokenOf(e).idx..TokenOf(e).idx + k] + Pending(Advance(e, k))
  {
    hide *;
    var t, e' := TokenOf(e), Advance(e, k);
    AdvanceKeeps(e, k);
    TokenDone(e);
    TokenDone(e');
    Resume(t.src, t.idx, t.idx + k, Pending(t.next));
  }

  lemma Resume(s: Bytes, i: nat, j: nat, rest: Bytes)
    requires i <= j <= |s|
    ensures s[i..] + rest == s[i..j] + (s[j..] + rest)
  {
    assert s[i..] == s[i..j] + s[j..];
  }

  lemma AdvanceKeeps(e: Enc, k: nat)
    requires Ready(e) && TokenOf(e).idx + k < |TokenOf(e).src|
    requires !AtTailSize(e)
    ensures Ready(Advance(e, k)) && Valid(Advance(e, k))
    ensures TokenOf(Advance(e, k)) == TokenOf(e).(idx := TokenOf(e).idx + k)
  {
    hide Hex, Full;
  }

  //
  // One step of the loop in `data`, with `room` bytes left in the output.
  //

  function Step(e: Enc, room: nat): Enc
    requires Valid(e) && e.dataState != Finished
  {
    ReadKeeps(e);
    var t := TokenOf(Read(e));
    if room >= |t.src| - t.idx then t.next else Advance(Read(e), room)
  }

  function Written(e: Enc, room: nat): (w: Bytes)
    requires Valid(e) && e.dataState != Finished
    ensures |w| <= room
  {
    ReadKeeps(e);
    var t := TokenOf(Read(e));
    t.src[t.idx..if room >= |t.src| - t.idx then |t.src| else t.idx + room]
  }

  /** The step writes a part of the size digits of the last, shorter chunk. */
  predicate StepCuts(e: Enc, room: nat) {
    AtTailSize(Read(e)) && room < |Digits(Read(e))|
  }

  lemma StepConserves(e: Enc, room: nat)
    requires Valid(e) && e.dataState != Finished && !StepCuts(e, room)
    ensures Valid(Step(e, room))
    ensures Pending(e) == Written(e, room) + Pending(Step(e, room))
  {
    hide *;
    StepIs(e, room);
    ReadKeeps(e);
    var r := Read(e);
    if room >= |TokenOf(r).src| - TokenOf(r).idx {
      TokenDone(r);
    } else {
      TokenPart(r, room);
    }
  }

  lemma StepIs(e: Enc, room: nat)
    requires Valid(e) && e.dataState != Finished && !StepCuts(e, room)
    ensures Ready(Read(e))
    ensures
      var t := TokenOf(Read(e));
      if room >= |t.src| - t.idx then Step(e, room) == t.next && Written(e, room) == t.src[t.idx..]
      else
        && !AtTailSize(Read(e))
        && Step(e, room) == Advance(Read(e), room) && Written(e, room) == t.src[t.idx..t.idx + room]
  {
    ReadKeeps(e);
    DigitsToken(Read(e));
    hide Read, TokenOf, Advance, Pending, Valid, Ready, Digits, AtTailSize, Hex;
  }

  lemma CutStepRepeats(e: Enc, room: nat)
    requires Valid(e) && e.dataState != Finished && StepCuts(e, room)
    ensures Valid(Step(e, room)) && Pending(Step(e, room)) == Pending(e)
    ensures room <= |Pending(e)| && Pending(e)[..room] == Written(e, room)
  {
    ReadKeeps(e);
    hide Read, TokenOf, Advance, Pending, Valid, Ready, Digits, AtTailSize, Hex;
    DigitsFirst(Read(e), room);
  }

  lemma DigitsToken(r: Enc)
    requires Ready(r)
    ensures AtTailSize(r) ==> TokenOf(r).src == Digits(r) && TokenOf(r).idx == 0
  {
    hide Hex, Full;
  }

  lemma StepTrailer(e: Enc, room: nat)
    requires Valid(e) && e.dataState != Finished
    ensures Step(e, room).trailer == e.trailer
  {
    hide Hex, Full;
  }

  lemma DigitsFirst(r: Enc, room: nat)
    requires Valid(r) && AtTailSize(r) && room < |Digits(r)|
    ensures Ready(r) && TokenOf(r).src == Digits(r) && TokenOf(r).idx == 0 && Advance(r, room) == r
    ensures room <= |Pending(r)| && Pending(r)[..room] == Digits(r)[..room]
  {
    hide Hex, Full;
    assert Digits(r)[0..] == Digits(r);
  }

  //
  // Where the digits of the last, shorter chunk are.
  //

  /** They are still to be written. */
  predicate TailOpen(e: Enc) {
    e.dataState == Partial &&
    if e.readFlag then FullChunk(e) || e.status == AtSize || e.status == AtDataCrlf
    else e.status == AtSize || e.status == AtDataCrlf
  }

  function TailSize(e: Enc): nat {
    if e.readFlag && !FullChunk(e) then |e.chunkBuf| else |e.source| % CHUNK_SIZE
  }

  function TailDigits(e: Enc): nat {
    |Hex(TailSize(e))|
  }

  /** The number of bytes before them. */
  function TailStart(e: Enc): int
    requires Valid(e)
  {
    |Pending(e)| - (TailDigits(e) + TailSize(e) + 4 + |e.trailer|)
  }

  /** The `n`-th byte from here on lies behind their first and not behind their last. */
  predicate Cuts(e: Enc, n: nat)
    requires Valid(e)
  {
    TailOpen(e) && TailStart(e) < n < TailStart(e) + TailDigits(e)
  }

  lemma {:induction false} FullIsLong(source: Bytes, trailer: Bytes)
    ensures |Full(source, trailer)| >= |Hex(|source| % CHUNK_SIZE)| + |source| % CHUNK_SIZE + 4 + |trailer|
    decreases |source|
  {
    hide Hex;
    if |source| >= CHUNK_SIZE {
      FullIsLong(source[CHUNK_SIZE..], trailer);
      assert (|source| - CHUNK_SIZE) % CHUNK_SIZE == |source| % CHUNK_SIZE;
    }
  }

  lemma TailIsAhead(e: Enc)
    requires Valid(e) && TailOpen(e)
    ensures 0 <= TailStart(e)
  {
    hide Hex, Full;
    FullIsLong(e.source, e.trailer);
  }

  lemma ReadKeepsTail(e: Enc)
    requires Valid(e)
    ensures TailOpen(Read(e)) == TailOpen(e) && (TailOpen(e) ==> TailSize(Read(e)) == TailSize(e))
  {
    hide Hex, Full;
    if e.dataState == Partial && !e.readFlag && |e.source| >= CHUNK_SIZE {
      assert (|e.source| - CHUNK_SIZE) % CHUNK_SIZE == |e.source| % CHUNK_SIZE;
    }
  }

  // The digits stay where they are until they are written, and that happens once.
  lemma StepMovesTail(e: Enc, room: nat)
    requires Valid(e) && e.dataState != Finished
    ensures
      var e' := Step(e, room);
      if AtTailSize(Read(e)) then
        TailOpen(e) && TailSize(e) == |Read(e).chunkBuf| && TailOpen(e') == StepCuts(e, room)
        && (StepCuts(e, room) ==> TailSize(e') == TailSize(e))
      else TailOpen(e') == TailOpen(e) && (TailOpen(e) ==> TailSize(e') == TailSize(e))
  {
    ReadKeeps(e);
    ReadKeepsTail(e);
    var r := Read(e);
    TokenMovesTail(r);
    AdvanceMovesTail(r, room);
    hide Hex, Full, Read, Ready, Valid, TokenOf, Advance, TailOpen, TailSize, AtTailSize, Digits, Pending;
    DigitsToken(r);
  }

  lemma TokenMovesTail(r: Enc)
    requires Ready(r)
    ensures
      var n := TokenOf(r).next;
      if AtTailSize(r) then TailOpen(r) && TailSize(r) == |r.chunkBuf| && !TailOpen(n)
      else TailOpen(n) == TailOpen(r) && (TailOpen(r) ==> TailSize(n) == TailSize(r))
  {
    hide Hex, Full, Digits;
  }

  lemma AdvanceMovesTail(r: Enc, k: nat)
    ensures TailOpen(Advance(r, k)) == TailOpen(r) && TailSize(Advance(r, k)) == TailSize(r)
  {
  }

  lemma TailSizeNow(e: Enc)
    requires Valid(e) && AtTailSize(Read(e))
    ensures TailOpen(e) && TailStart(e) == 0 && Digits(Read(e)) == Hex(TailSize(e))
  {
    hide Hex, Full;
    ReadKeeps(e);
    ReadKeepsTail(e);
  }

  lemma NothingPending(e: Enc)
    requires Valid(e)
    ensures Pending(e) == [] <==> e.dataState == Finished
  {
    hide Hex, Full;
    ReadKeeps(e);
    if e.dataState == Partial {
      var r := Read(e);
      TokenDone(r);
      if r.status == AtData {
        assert CRLF + After(r) != [];
      }
    }
  }

  //
  // A run of the loop.
  //

  /**
   `count` bytes were written on the way from `e0` to `e`. What was pending and
   is not written stays pending, unless the output ended amid the digits of the
   last size: those are pending again, all of them.
   */
  ghost predicate Wrote(e0: Enc, count: nat, e: Enc)
    requires Valid(e0)
  {
    && Valid(e) && e.trailer == e0.trailer
    && count <= |Pending(e0)|
    && (if TailOpen(e0) && count < TailStart(e0) + TailDigits(e0) then TailOpen(e) && TailSize(e) == TailSize(e0)
        else !TailOpen(e))
    && (if Cuts(e0, count) then 0 <= TailStart(e0) && Pending(e) == Pending(e0)[TailStart(e0)..]
        else Pending(e) == Pending(e0)[count..])
  }

  lemma NoProgress(e: Enc)
    requires Valid(e)
    ensures Wrote(e, 0, e) && !Cuts(e, 0)
  {
    assert Pending(e)[0..] == Pending(e);
    hide Pending, TailSize, Valid;
    if TailOpen(e) {
      TailIsAhead(e);
    }
  }

  lemma WroteIsValid(e0: Enc, count: nat, e: Enc)
    requires Valid(e0) && Wrote(e0, count, e)
    ensures Valid(e) && count <= |Pending(e0)|
    ensures !Cuts(e0, count) && e.dataState == Finished ==> count == |Pending(e0)|
  {
    NothingPending(e);
    hide Valid, Pending, TailOpen, TailSize, TailStart, Hex;
  }

  // The digits of the last size come closer by what was written.
  lemma TailShifts(e0: Enc, count: nat, e: Enc)
    requires Valid(e0) && Wrote(e0, count, e) && !Cuts(e0, count) && TailOpen(e)
    ensures TailOpen(e0) && 0 <= TailStart(e) == TailStart(e0) - count && TailDigits(e) == TailDigits(e0)
  {
    TailIsAhead(e);
    hide Valid, Pending, TailOpen, TailSize, Hex;
  }

  lemma CutProgress(e0: Enc, count: nat, e: Enc, room: nat)
    requires Valid(e0) && Wrote(e0, count, e) && !Cuts(e0, count)
    requires e.dataState != Finished && room > 0 && StepCuts(e, room)
    ensures |Written(e, room)| == room && Wrote(e0, count + room, Step(e, room)) && Cuts(e0, count + room)
    ensures Pending(e0)[..count + room] == Pending(e0)[..count] + Written(e, room)
  {
    hide Valid, Pending, TailOpen, TailSize, Hex, Step, Written, Digits, AtTailSize, Read, TailStart;
    StepMovesTail(e, room);
    StepTrailer(e, room);
    TailSizeNow(e);
    TailShifts(e0, count, e);
    CutStepRepeats(e, room);
  }

  lemma PlainProgress(e0: Enc, count: nat, e: Enc, room: nat)
    requires Valid(e0) && Wrote(e0, count, e) && !Cuts(e0, count)
    requires e.dataState != Finished && room > 0 && !StepCuts(e, room)
    ensures count + |Written(e, room)| <= |Pending(e0)|
    ensures Wrote(e0, count + |Written(e, room)|, Step(e, room)) && !Cuts(e0, count + |Written(e, room)|)
    ensures Pending(e0)[..count + |Written(e, room)|] == Pending(e0)[..count] + Written(e, room)
  {
    hide Valid, Pending, TailOpen, TailSize, Hex, Step, Written, Digits, AtTailSize, Read, Cuts, TailStart;
    var e', w := Step(e, room), Written(e, room);
    StepMovesTail(e, room);
    StepTrailer(e, room);
    StepConserves(e, room);
    if AtTailSize(Read(e)) {
      TailSizeNow(e);
      TailSizeWritten(e, room);
    }
    hide Wrote;
    PendingSplits(e0, count, e, w, e');
    if TailOpen(e') {
      TailMoves(e0, count, e, |w|, e');
    } else {
      TailPassed(e0, count, e, |w|, e');
    }
  }

  lemma PendingSplits(e0: Enc, count: nat, e: Enc, w: Bytes, e': Enc)
    requires Valid(e0) && Wrote(e0, count, e) && !Cuts(e0, count)
    requires Valid(e') && Pending(e) == w + Pending(e')
    ensures count + |w| <= |Pending(e0)| && Pending(e') == Pending(e0)[count + |w|..]
    ensures Pending(e0)[..count + |w|] == Pending(e0)[..count] + w
  {
    hide Valid, Pending, TailOpen, TailSize, Hex, TailStart, TailDigits, Cuts;
    var p := Pending(e0);
    assert p[count..] == w + Pending(e');
    assert p[count + |w|..] == p[count..][|w|..];
  }

  lemma TailMoves(e0: Enc, count: nat, e: Enc, n: nat, e': Enc)
    requires Valid(e0) && Wrote(e0, count, e) && !Cuts(e0, count)
    requires Valid(e') && TailOpen(e') && TailOpen(e) && TailSize(e') == TailSize(e) && e'.trailer == e.trailer
    requires count + n <= |Pending(e0)| && Pending(e') == Pending(e0)[count + n..]
    ensures Wrote(e0, count + n, e') && !Cuts(e0, count + n)
  {
    TailShifts(e0, count, e);
    TailIsAhead(e');
    hide Valid, Pending, TailOpen, TailSize, Hex;
  }

  lemma TailPassed(e0: Enc, count: nat, e: Enc, n: nat, e': Enc)
    requires Valid(e0) && Wrote(e0, count, e) && !Cuts(e0, count)
    requires Valid(e') && !TailOpen(e') && (TailOpen(e) ==> TailStart(e) == 0 && n == TailDigits(e)) && e'.trailer == e.trailer
    requires count + n <= |Pending(e0)| && Pending(e') == Pending(e0)[count + n..]
    ensures Wrote(e0, count + n, e') && !Cuts(e0, count + n)
  {
    if TailOpen(e) {
      TailShifts(e0, count, e);
    }
    hide Valid, Pending, TailOpen, TailSize, Hex;
  }

  lemma StepProgress(e0: Enc, count: nat, e: Enc, room: nat)
    requires Valid(e0) && Wrote(e0, count, e) && !Cuts(e0, count)
    requires e.dataState != Finished && room > 0
    ensures
      var n := |Written(e, room)|;
      && count + n <= |Pending(e0)| && Wrote(e0, count + n, Step(e, room))
      && (Cuts(e0, count + n) ==> n == room)
      && Pending(e0)[..count + n] == Pending(e0)[..count] + Written(e, room)
  {
    if StepCuts(e, room) {
      CutProgress(e0, count, e, room);
    } else {
      PlainProgress(e0, count, e, room);
    }
  }

  lemma TailSizeWritten(e: Enc, room: nat)
    requires Valid(e) && AtTailSize(Read(e))
    ensures |Written(e, room)| == Min(room, |Digits(Read(e))|)
  {
    hide Hex, Full;
  }

  //
  // The code.
  //

  /** `WriteData::write`: copies what fits into `buf[at..]`. */
  method WriteData(src: Bytes, idx: nat, buf: array<u8>, at: nat) returns (num: nat, complete: bool)
    requires idx <= |src| && at <= buf.Length
    modifies buf
    ensures num == Min(|src| - idx, buf.Length - at) && complete == (buf.Length - at >= |src| - idx)
    ensures buf[..] == Spliced(old(buf[..]), at, src[idx..idx + num])
  {
    num := Min(|src| - idx, buf.Length - at);
    CopySlice(src[idx..idx + num], buf, at);
    complete := buf.Length - at >= |src| - idx;
  }

  /** `num` bytes of the token under way went to `at`. */
  ghost predicate Emits(e: Enc, e': Enc, was: Bytes, now: Bytes, at: nat, num: nat)
    requires Ready(e) && at <= |was|
  {
    var t := TokenOf(e);
    && num == Min(|t.src| - t.idx, |was| - at)
    && e' == (if |was| - at >= |t.src| - t.idx then t.next else Advance(e, num))
    && now == Spliced(was, at, t.src[t.idx..t.idx + num])
  }

  lemma StepEmits(e: Enc, e': Enc, was: Bytes, now: Bytes, at: nat, num: nat)
    requires Valid(e) && e.dataState != Finished && Ready(Read(e)) && at < |was|
    requires Emits(Read(e), e', was, now, at, num)
    ensures e' == Step(e, |was| - at) && num == |Written(e, |was| - at)|
    ensures at + num <= |was| && now == Spliced(was, at, Written(e, |was| - at))
    ensures num > 0 || (e.status == AtData && e'.status == AtFinish)
  {
    hide Hex, Full;
  }

  class ChunkBody {
    var source: Bytes
    var chunkBuf: Bytes
    const trailerPart: Bytes
    var dataState: DataState
    var readFlag: bool
    var status: Status
    var hexIdx: nat
    var metaIdx: nat
    var chunkIdx: nat
    var dataIdx: nat
    var finishIdx: nat
    var trailerIdx: nat

    ghost function State(): Enc
      reads this
    {
      Enc(source, chunkBuf, trailerPart, dataState, readFlag, status,
          hexIdx, metaIdx, chunkIdx, dataIdx, finishIdx, trailerIdx)
    }

    constructor (content: Bytes, trailerFields: Bytes)
      ensures Valid(State()) && Pending(State()) == Full(content, TrailerPart(trailerFields))
      ensures TailOpen(State()) && TailSize(State()) == |content| % CHUNK_SIZE
      ensures State().trailer == TrailerPart(trailerFields)
    {
      source, chunkBuf, trailerPart := content, [], TrailerPart(trailerFields);
      dataState, readFlag, status := Partial, false, AtSize;
      hexIdx, metaIdx, chunkIdx, dataIdx, finishIdx, trailerIdx := 0, 0, 0, 0, 0, 0;
    }

    /** The reader fills the chunk buffer, or gives all it has left. */
    method ReadChunk()
      modifies this
      ensures State() == Read(old(State()))
    {
      if dataState == Partial && !readFlag {
        readFlag, chunkIdx := true, 0;
        var n := if |source| < CHUNK_SIZE then |source| else CHUNK_SIZE;
        chunkBuf, source := source[..n], source[n..];
      }
    }

    method EncodeTrailer(buf: array<u8>, at: nat) returns (num: nat)
      requires Ready(State()) && at <= buf.Length && dataState == Complete
      modifies this, buf
      ensures Emits(old(State()), State(), old(buf[..]), buf[..], at, num)
    {
      hide Hex, Full, Spliced;
      var complete;
      num, complete := WriteData(trailerPart, trailerIdx, buf, at);
      trailerIdx := trailerIdx + num;
      if complete {
        dataState := Finished;
      }
    }

    method EncodeSize(buf: array<u8>, at: nat) returns (num: nat)
      requires Ready(State()) && at <= buf.Length && dataState == Partial && status == AtSize
      modifies this, buf
      ensures Emits(old(State()), State(), old(buf[..]), buf[..], at, num)
    {
      hide Hex, Full, Spliced;
      var complete;
      if |chunkBuf| == CHUNK_SIZE {
        HexOfFull(chunkBuf);
        num, complete := WriteData(Hex(|chunkBuf|), hexIdx, buf, at);
        hexIdx := if complete then 0 else hexIdx + num;
      } else {
        num, complete := WriteData(Hex(|chunkBuf|), 0, buf, at);
      }
      if complete {
        status := AtSizeCrlf;
      }
    }

    method EncodeSizeCrlf(buf: array<u8>, at: nat) returns (num: nat)
      requires Ready(State()) && at <= buf.Length && dataState == Partial && status == AtSizeCrlf
      modifies this, buf
      ensures Emits(old(State()), State(), old(buf[..]), buf[..], at, num)
    {
      hide Hex, Full, Spliced;
      var complete;
      num, complete := WriteData(CRLF, metaIdx, buf, at);
      metaIdx := if complete then 0 else metaIdx + num;
      if complete {
        status := AtData;
      }
    }

    method EncodeData(buf: array<u8>, at: nat) returns (num: nat)
      requires Ready(State()) && at <= buf.Length && dataState == Partial && status == AtData
      modifies this, buf
      ensures Emits(old(State()), State(), old(buf[..]), buf[..], at, num)
    {
      hide Hex, Full, Spliced;
      var complete;
      num, complete := WriteData(chunkBuf, chunkIdx, buf, at);
      chunkIdx := chunkIdx + num;
      if complete {
        status := if |chunkBuf| != CHUNK_SIZE then AtFinish else AtDataCrlf;
        readFlag := false;
      }
    }

    method EncodeDataCrlf(buf: array<u8>, at: nat) returns (num: nat)
      requires Ready(State()) && at <= buf.Length && dataState == Partial && status == AtDataCrlf
      modifies this, buf
      ensures Emits(old(State()), State(), old(buf[..]), buf[..], at, num)
    {
      hide Hex, Full, Spliced;
      var complete;
      num, complete := WriteData(CRLF, dataIdx, buf, at);
      dataIdx := if complete then 0 else dataIdx + num;
      if complete {
        status := AtSize;
      }
    }

    method EncodeFinish(buf: array<u8>, at: nat) returns (num: nat)
      requires Ready(State()) && at <= buf.Length && dataState == Partial && status == AtFinish
      modifies this, buf
      ensures Emits(old(State()), State(), old(buf[..]), buf[..], at, num)
    {
      hide Hex, Full, Spliced;
      var complete;
      num, complete := WriteData(CRLF, finishIdx, buf, at);
      finishIdx := finishIdx + num;
      if complete {
        dataState := Complete;
      }
    }

    method Encode(buf: array<u8>, at: nat) returns (num: nat)
      requires Ready(State()) && at <= buf.Length
      modifies this, buf
      ensures Emits(old(State()), State(), old(buf[..]), buf[..], at, num)
    {
      hide Hex, Full, Valid, Emits;
      if dataState == Complete {
        num := EncodeTrailer(buf, at);
      } else {
        match status
        case AtSize => num := EncodeSize(buf, at);
        case AtSizeCrlf => num := EncodeSizeCrlf(buf, at);
        case AtData => num := EncodeData(buf, at);
        case AtDataCrlf => num := EncodeDataCrlf(buf, at);
        case AtFinish => num := EncodeFinish(buf, at);
      }
    }

    /**
     Fills the buffer with what is pending. The rest stays pending, unless the
     buffer ends amid the digits of the last size: those start over.
     */
    method FillBuffer(buf: array<u8>) returns (count: nat)
      requires Valid(State())
      modifies this, buf
      ensures Wrote(old(State()), count, State())
      ensures count == Min(buf.Length, |old(Pending(State()))|)
      ensures buf[..] == Spliced(old(buf[..]), 0, old(Pending(State()))[..count])
    {
      hide Hex, Full, Pending, Valid, TailOpen, TailSize, TailStart, TailDigits, Cuts, Wrote, Step, Written;
      hide Read, TokenOf, Advance, Emits, Ready, Spliced;
      ghost var e0 := State();
      ghost var b0 := buf[..];
      count := 0;
      NoProgress(e0);
      SpliceNone(b0, 0, Pending(e0));
      while count != buf.Length && dataState != Finished
        invariant count <= buf.Length && Wrote(e0, count, State()) && count <= |Pending(e0)|
        invariant buf[..] == Spliced(b0, 0, Pending(e0)[..count])
        invariant Cuts(e0, count) ==> count == buf.Length
        decreases buf.Length - count, if status == AtData then 1 else 0
      {
        ghost var e := State();
        WroteIsValid(e0, count, e);
        ReadKeeps(e);
        StepProgress(e0, count, e, buf.Length - count);
        ReadChunk();
        ghost var b := buf[..];
        var num := Encode(buf, count);
        StepEmits(e, State(), b, buf[..], count, num);
        SpliceMore(b0, 0, Pending(e0)[..count], Written(e, buf.Length - count));
        count := count + num;
      }
      WroteIsValid(e0, count, State());
    }
  }

  //
  // Whole runs.
  //

  /** No buffer of these capacities ends amid the `digits` bytes that `start` bytes lie before. */
  predicate Clean(start: int, digits: nat, caps: seq<nat>)
    decreases |caps|
  {
    caps == [] || (!(start < caps[0] < start + digits) && Clean(start - caps[0], digits, caps[1..]))
  }

  lemma {:induction false} CleanBehind(start: int, digits: nat, caps: seq<nat>)
    requires start + digits <= 0
    ensures Clean(start, digits, caps)
    decreases |caps|
  {
    if caps != [] {
      CleanBehind(start - caps[0], digits, caps[1..]);
    }
  }

  // Single bytes never get past a size of several digits.
  lemma {:induction false} SingleBytesAreNotClean(start: nat, digits: nat, caps: seq<nat>)
    requires digits > 1 && start < |caps| && forall i :: 0 <= i < |caps| ==> caps[i] == 1
    ensures !Clean(start, digits, caps)
  {
    if start > 0 {
      SingleBytesAreNotClean(start - 1, digits, caps[1..]);
    }
  }

  /**
   Fills buffers of these capacities, one after the other. Together they hold
   the encoding exactly if none of them ends amid the digits of the last size;
   otherwise bytes are repeated.
   */
  method Drain(body: ChunkBody, caps: seq<nat>) returns (out: Bytes)
    requires Valid(body.State())
    modifies body
    ensures Valid(body.State())
    ensures |out| <= Sum(caps) && (|out| < Sum(caps) ==> Pending(body.State()) == [])
    ensures
      var e := old(body.State());
      var pending := Pending(body.State());
      if TailOpen(e) && !Clean(TailStart(e), TailDigits(e), caps) then |out| + |pending| > |Pending(e)|
      else out + pending == Pending(e)
    decreases |caps|
  {
    hide Hex, Full, Pending, Valid, TailOpen, TailSize, TailDigits;
    ghost var e := body.State();
    if caps == [] {
      return [];
    }
    var buf := new u8[caps[0]];
    var n := body.FillBuffer(buf);
    ghost var e1 := body.State();
    assert buf[..n] == Pending(e)[..n];
    var rest := Drain(body, caps[1..]);
    out := buf[..n] + rest;
    if !Cuts(e, n) && TailOpen(e1) {
      TailShifts(e, n, e1);
    } else if TailOpen(e) && !Cuts(e, n) {
      CleanBehind(TailStart(e) - caps[0], TailDigits(e), caps[1..]);
    }
  }

  /** A body without trailer fields, written to buffers of these capacities, which have room to spare. */
  method EncodeAll(content: Bytes, caps: seq<nat>) returns (out: Bytes)
    requires Sum(caps) > |Full(content, LAST)|
    ensures
      var digits := |Hex(|content| % CHUNK_SIZE)|;
      var start := |Full(content, LAST)| - (digits + |content| % CHUNK_SIZE + 4 + |LAST|);
      out == Full(content, LAST) <==> Clean(start, digits, caps)
  {
    hide Hex, Full;
    LastIsBlock();
    var body := new ChunkBody(content, []);
    out := Drain(body, caps);
  }

  /** Any segments of an encoding decode to the content. */
  lemma SegmentedRoundTrip(content: Bytes, first: Bytes, segments: seq<Bytes>)
    requires first + Concat(segments) == Full(content, LAST)
    ensures
      var r := RunSegments(Call(Assembly([], []), INITIAL, first), segments);
      && r.Over?
      && Contents(r.m.done) == content && r.m.current == []
      && r.left == (if |content| % CHUNK_SIZE == 0 then LAST else [])
  {
    RoundTrip(content);
    SegmentsDoNotMatter(Assembly([], []), INITIAL, first, segments);
  }
}
