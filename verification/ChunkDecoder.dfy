/**
 The decoder of the chunked transfer coding, without trailers. The code scans
 slices and jumps over whole runs of data; its meaning is a machine that takes
 one byte at a time.
 */
module ChunkDecoder {
  import opened MachineWords

  const CR: u8 := 13
  const LF: u8 := 10
  const CRLF: Bytes := [CR, LF]
  const MAX_I64: nat := 0x7fff_ffff_ffff_ffff

  datatype Stage = Size | Extension | SizeEnd | Data | DataEnd

  /** The decoder between bytes; the flags that only serve trailers are left out. */
  datatype Dec = Dec(
    chunkNum: nat,
    totalSize: nat,
    restSize: nat,
    hexCount: nat,
    crMeet: bool,
    isLast: bool,
    stage: Stage)

  const INITIAL := Dec(0, 0, 0, 0, false, false, Size)

  //
  // The machine.
  //

  function HexValue(b: u8): (v: int)
    ensures -1 <= v < 16
  {
    if 48 <= b <= 57 then b - 48
    else if 97 <= b <= 102 then b - 87
    else if 65 <= b <= 70 then b - 55
    else -1
  }

  /** Blank, tab, semicolon and line ends close the size. */
  predicate EndsSize(b: u8) {
    b == 32 || b == 9 || b == 59 || b == CR || b == LF
  }

  /** A byte was taken (and may be chunk data), or it ended a chunk of `size` bytes, or it is an error. */
  datatype Taken = Took(d: Dec, isData: bool) | EndOfChunk(d: Dec, size: nat) | Bad

  function TakeExtension(d: Dec, b: u8): Taken {
    if b == CR then
      if d.crMeet then Bad else Took(d.(crMeet := true, stage := SizeEnd), false)
    else if b == LF then Bad
    else Took(d.(stage := Extension), false)
  }

  function TakeSize(d: Dec, b: u8): Taken {
    var v := HexValue(b);
    if v >= 0 then
      if d.hexCount * 16 + v > MAX_I64 then Bad else Took(d.(hexCount := d.hexCount * 16 + v), false)
    else if EndsSize(b) then TakeExtension(Sized(d), b)
    else Bad
  }

  /** The size is known; size 0 announces the last chunk. */
  function Sized(d: Dec): Dec {
    var d' := d.(totalSize := d.hexCount, hexCount := 0, stage := Extension);
    if d.hexCount == 0 then d'.(isLast := true) else d'.(restSize := d.hexCount)
  }

  function TakeSizeEnd(d: Dec, b: u8): Taken {
    if b == CR && !d.crMeet then Took(d.(crMeet := true), false)
    else if b == LF && d.crMeet then Took(d.(crMeet := false, stage := Data), false)
    else Bad
  }

  function TakeDataEnd(d: Dec, b: u8): Taken {
    if b == CR && !d.crMeet then Took(d.(crMeet := true), false)
    else if b == LF && d.crMeet then EndOfChunk(d.(crMeet := false, stage := Size, totalSize := 0), d.totalSize)
    else Bad
  }

  function TakeData(d: Dec, b: u8): Taken {
    if d.restSize == 0 then TakeDataEnd(AllData(d), b)
    else if d.restSize == 1 then Took(AllData(d), true)
    else Took(d.(restSize := d.restSize - 1), true)
  }

  /** All data of the chunk is there; its line end is next. */
  function AllData(d: Dec): Dec {
    d.(restSize := 0, crMeet := false, stage := DataEnd)
  }

  function Take(d: Dec, b: u8): Taken {
    match d.stage
    case Size => TakeSize(d, b)
    case Extension => TakeExtension(d, b)
    case SizeEnd => TakeSizeEnd(d, b)
    case Data => TakeData(d, b)
    case DataEnd => TakeDataEnd(d, b)
  }

  /** After a chunk: the next id, or a fresh start after the last chunk. */
  function NextChunk(d: Dec): Dec {
    if d.isLast then d.(isLast := false, chunkNum := 0) else d.(chunkNum := d.chunkNum + 1)
  }

  //
  // One slice.
  //

  datatype ChunkState = MetaSize | MetaExt | MetaCrlf | DataPart | DataCrlf | Finish

  /** A chunk or a part of one, as `decode` hands it out. */
  datatype Chunk = Chunk(id: nat, state: ChunkState, size: nat, data: Bytes)

  function PartState(s: Stage): ChunkState {
    match s
    case Size => MetaSize
    case Extension => MetaExt
    case SizeEnd => MetaCrlf
    case Data => DataPart
    case DataEnd => DataCrlf
  }

  /** The bytes up to the end of the chunk or of the slice. */
  datatype Scanned =
    | Part(d: Dec, data: Bytes)
    | Whole(d: Dec, size: nat, data: Bytes, rest: Bytes)
    | ScanError

  function Scan(d: Dec, buf: Bytes, data: Bytes): (r: Scanned)
    ensures r.Whole? ==> |r.rest| < |buf|
    decreases buf
  {
    if buf == [] then Part(d, data)
    else
      match Take(d, buf[0])
      case Bad => ScanError
      case Took(d', isData) => Scan(d', buf[1..], if isData then data + [buf[0]] else data)
      case EndOfChunk(d', size) => Whole(d', size, data, buf[1..])
  }

  /** One call of `decode`. */
  datatype Decoded = Chunks(chunks: seq<Chunk>, d: Dec, rest: Bytes) | DecodeError

  function Decode(d: Dec, buf: Bytes): Decoded
    decreases |buf|
  {
    match Scan(d, buf, [])
    case ScanError => DecodeError
    case Part(d', data) => Chunks([Chunk(d'.chunkNum, PartState(d'.stage), d'.totalSize, data)], d', [])
    case Whole(d', size, data, rest) =>
      var chunk := Chunk(d'.chunkNum, Finish, size, data);
      if d'.isLast || rest == [] then Chunks([chunk], NextChunk(d'), rest)
      else
        match Decode(NextChunk(d'), rest)
        case DecodeError => DecodeError
        case Chunks(chunks, d'', rest') => Chunks([chunk] + chunks, d'', rest')
  }

  //
  // Putting the parts together, and the reference.
  //

  /** A chunk put together from its parts. */
  datatype Entire = Entire(id: nat, size: nat, data: Bytes)

  /** The finished chunks and the data of the one under way. */
  datatype Assembly = Assembly(done: seq<Entire>, current: Bytes)

  function Absorb(m: Assembly, c: Chunk): Assembly {
    if c.state == Finish then Assembly(m.done + [Entire(c.id, c.size, m.current + c.data)], [])
    else m.(current := m.current + c.data)
  }

  function AbsorbAll(m: Assembly, cs: seq<Chunk>): Assembly
    decreases cs
  {
    if cs == [] then m else AbsorbAll(Absorb(m, cs[0]), cs[1..])
  }

  /** A whole body so far: still running, over with bytes left, or failed. */
  datatype Progress = Running(m: Assembly, d: Dec) | Over(m: Assembly, d: Dec, left: Bytes) | Failed

  /** The reference: byte after byte, up to the end of the last chunk. */
  function Feed(m: Assembly, d: Dec, buf: Bytes): Progress
    decreases buf
  {
    if buf == [] then Running(m, d)
    else
      match Take(d, buf[0])
      case Bad => Failed
      case Took(d', isData) => Feed(if isData then m.(current := m.current + [buf[0]]) else m, d', buf[1..])
      case EndOfChunk(d', size) =>
        var m' := Assembly(m.done + [Entire(d'.chunkNum, size, m.current)], []);
        if d'.isLast then Over(m', NextChunk(d'), buf[1..]) else Feed(m', NextChunk(d'), buf[1..])
  }

  /** The last chunk was seen: the decoder stopped there. */
  predicate Ended(chunks: seq<Chunk>) {
    chunks != [] && chunks[|chunks| - 1].state == Finish && chunks[|chunks| - 1].size == 0
  }

  /** What one call of `decode` amounts to. */
  function Call(m: Assembly, d: Dec, buf: Bytes): Progress {
    match Decode(d, buf)
    case DecodeError => Failed
    case Chunks(chunks, d', rest) =>
      if Ended(chunks) then Over(AbsorbAll(m, chunks), d', rest) else Running(AbsorbAll(m, chunks), d')
  }

  //
  // What every reachable state keeps.
  //

  /** `m` holds the finished chunks and the data delivered for the chunk under way. */
  predicate Consistent(m: Assembly, d: Dec) {
    && (forall i | 0 <= i < |m.done| :: |m.done[i].data| == m.done[i].size)
    && (d.stage == Size ==> m.current == [] && d.totalSize == 0 && d.restSize == 0 && !d.crMeet && !d.isLast)
    && (d.stage != Size ==> |m.current| + d.restSize == d.totalSize && (d.isLast <==> d.totalSize == 0))
    && (d.stage == Extension || d.stage == SizeEnd ==> m.current == [] && d.hexCount == 0)
    && (d.stage == Extension ==> !d.crMeet)
    && (d.stage == SizeEnd ==> d.crMeet)
    && (d.stage == Data ==> !d.crMeet && d.hexCount == 0)
    && (d.stage == DataEnd ==> d.restSize == 0 && d.hexCount == 0)
  }

  /** Conservation: bytes delivered for the chunk under way plus those to come are its declared size. */
  lemma TakeConserves(m: Assembly, d: Dec, b: u8)
    requires Consistent(m, d)
    ensures
      match Take(d, b)
      case Bad => true
      case Took(d', isData) => Consistent(if isData then m.(current := m.current + [b]) else m, d')
      case EndOfChunk(d', size) =>
        && |m.current| == size && (d'.isLast <==> size == 0)
        && Consistent(Assembly(m.done + [Entire(d'.chunkNum, size, m.current)], []), NextChunk(d'))
  {
  }

  lemma {:induction false} FeedConserves(m: Assembly, d: Dec, buf: Bytes)
    requires Consistent(m, d)
    ensures
      match Feed(m, d, buf)
      case Failed => true
      case Running(m', d') => Consistent(m', d')
      case Over(m', d', _) => Consistent(m', d') && d'.stage == Size && d'.chunkNum == 0
    decreases buf
  {
    if buf != [] {
      TakeConserves(m, d, buf[0]);
      match Take(d, buf[0])
      case Bad =>
      case Took(d', isData) => FeedConserves(if isData then m.(current := m.current + [buf[0]]) else m, d', buf[1..]);
      case EndOfChunk(d', size) =>
        if !d'.isLast {
          FeedConserves(Assembly(m.done + [Entire(d'.chunkNum, size, m.current)], []), NextChunk(d'), buf[1..]);
        }
    }
  }

  //
  // Slices against bytes.
  //

  lemma {:induction false} FeedScan(m: Assembly, d: Dec, buf: Bytes, data: Bytes)
    requires Consistent(m.(current := m.current + data), d)
    ensures
      var start := m.(current := m.current + data);
      match Scan(d, buf, data)
      case ScanError => Feed(start, d, buf) == Failed
      case Part(d', data') =>
        Feed(start, d, buf) == Running(m.(current := m.current + data'), d')
      case Whole(d', size, data', rest) =>
        var m' := Assembly(m.done + [Entire(d'.chunkNum, size, m.current + data')], []);
        && (d'.isLast <==> size == 0)
        && Consistent(m', NextChunk(d'))
        && Feed(start, d, buf) == (if d'.isLast then Over(m', NextChunk(d'), rest) else Feed(m', NextChunk(d'), rest))
    decreases buf
  {
    hide Consistent, NextChunk;
    if buf != [] {
      hide Take;
      var start := m.(current := m.current + data);
      TakeConserves(start, d, buf[0]);
      match Take(d, buf[0])
      case Bad =>
      case Took(d', isData) =>
        var data' := if isData then data + [buf[0]] else data;
        assert isData ==> m.current + data + [buf[0]] == m.current + data';
        FeedScan(m, d', buf[1..], data');
      case EndOfChunk(d', size) =>
    }
  }

  lemma AbsorbOne(m: Assembly, c: Chunk, cs: seq<Chunk>)
    ensures AbsorbAll(m, [c] + cs) == AbsorbAll(Absorb(m, c), cs)
    ensures AbsorbAll(m, [c]) == Absorb(m, c)
  {
    assert ([c] + cs)[1..] == cs;
    assert [c][1..] == [];
  }

  /** Scanning slices and jumping over data does what the byte machine does. */
  lemma {:induction false} CallIsFeed(m: Assembly, d: Dec, buf: Bytes)
    requires Consistent(m, d)
    ensures Call(m, d, buf) == Feed(m, d, buf)
    decreases |buf|
  {
    hide Consistent, Take, Scan;
    assert m.(current := m.current + []) == m;
    FeedScan(m, d, buf, []);
    match Scan(d, buf, [])
    case ScanError =>
    case Part(d', data) =>
      AbsorbOne(m, Chunk(d'.chunkNum, PartState(d'.stage), d'.totalSize, data), []);
    case Whole(d', size, data, rest) =>
      var chunk := Chunk(d'.chunkNum, Finish, size, data);
      AbsorbOne(m, chunk, []);
      if !d'.isLast && rest != [] {
        CallIsFeed(Absorb(m, chunk), NextChunk(d'), rest);
        match Decode(NextChunk(d'), rest)
        case DecodeError =>
        case Chunks(chunks, _, _) =>
          DecodeIsNotEmpty(NextChunk(d'), rest);
          AbsorbOne(m, chunk, chunks);
          assert ([chunk] + chunks)[|chunks|] == chunks[|chunks| - 1];
      }
  }

  lemma DecodeIsNotEmpty(d: Dec, buf: Bytes)
    ensures Decode(d, buf).Chunks? ==> Decode(d, buf).chunks != []
  {
  }

  //
  // Segmentation.
  //

  /** Goes on with more input; after the last chunk more input is only left over. */
  function Then(p: Progress, b: Bytes): Progress {
    match p
    case Failed => Failed
    case Running(m, d) => Call(m, d, b)
    case Over(m, d, left) => Over(m, d, left + b)
  }

  function RunSegments(p: Progress, segments: seq<Bytes>): Progress
    decreases segments
  {
    if segments == [] then p else RunSegments(Then(p, segments[0]), segments[1..])
  }

  lemma {:induction false} FeedConcat(m: Assembly, d: Dec, a: Bytes, b: Bytes)
    ensures
      match Feed(m, d, a)
      case Failed => Feed(m, d, a + b) == Failed
      case Running(m', d') => Feed(m, d, a + b) == Feed(m', d', b)
      case Over(m', d', left) => Feed(m, d, a + b) == Over(m', d', left + b)
    decreases a
  {
    hide Take, NextChunk;
    if a == [] {
      assert a + b == b;
    } else {
      assert (a + b)[0] == a[0] && (a + b)[1..] == a[1..] + b;
      match Take(d, a[0])
      case Bad =>
      case Took(d', isData) => FeedConcat(if isData then m.(current := m.current + [a[0]]) else m, d', a[1..], b);
      case EndOfChunk(d', size) =>
        if !d'.isLast {
          FeedConcat(Assembly(m.done + [Entire(d'.chunkNum, size, m.current)], []), NextChunk(d'), a[1..], b);
        }
    }
  }

  lemma CutInTwo(m: Assembly, d: Dec, a: Bytes, b: Bytes)
    requires Consistent(m, d)
    ensures Call(m, d, a + b) == Then(Call(m, d, a), b)
  {
    hide Consistent, Call, Feed;
    CallIsFeed(m, d, a + b);
    CallIsFeed(m, d, a);
    FeedConcat(m, d, a, b);
    FeedConserves(m, d, a);
    match Feed(m, d, a)
    case Running(m', d') => CallIsFeed(m', d', b);
    case _ =>
  }

  /**
   Where the body is cut makes no difference: the chunks put together, their ids
   and sizes, the decoder, the bytes left over after the last chunk and the error
   are those of one call on the whole.
   */
  lemma {:induction false} SegmentsDoNotMatter(m: Assembly, d: Dec, first: Bytes, segments: seq<Bytes>)
    requires Consistent(m, d)
    ensures RunSegments(Call(m, d, first), segments) == Call(m, d, first + Concat(segments))
    decreases segments
  {
    hide Call, Consistent, Then;
    if segments == [] {
      assert first + Concat(segments) == first;
    } else {
      CutInTwo(m, d, first, segments[0]);
      SegmentsDoNotMatter(m, d, first + segments[0], segments[1..]);
      assert first + segments[0] + Concat(segments[1..]) == first + Concat(segments);
    }
  }

  /** A call that does not reach the last chunk leaves no bytes behind. */
  lemma {:induction false} NoRemainder(m: Assembly, d: Dec, buf: Bytes)
    requires Consistent(m, d)
    ensures Decode(d, buf).Chunks? && !Ended(Decode(d, buf).chunks) ==> Decode(d, buf).rest == []
    decreases |buf|
  {
    hide Consistent, Take, Scan;
    assert m.(current := m.current + []) == m;
    FeedScan(m, d, buf, []);
    match Scan(d, buf, [])
    case Whole(d', size, data, rest) =>
      if !d'.isLast && rest != [] {
        NoRemainder(Assembly(m.done + [Entire(d'.chunkNum, size, m.current + data)], []), NextChunk(d'), rest);
        var r := Decode(NextChunk(d'), rest);
        if r.Chunks? {
          DecodeIsNotEmpty(NextChunk(d'), rest);
          assert ([Chunk(d'.chunkNum, Finish, size, data)] + r.chunks)[|r.chunks|] == r.chunks[|r.chunks| - 1];
        }
      }
    case _ =>
  }

  //
  // The decoder object.
  //

  datatype Result<+T> = Ok(value: T) | InvalidInput

  /** A method returned what scanning says, and left the decoder where scanning ends. */
  predicate Returns(s: Scanned, r: Result<(Chunk, Bytes)>, after: Dec) {
    match s
    case ScanError => r == InvalidInput
    case Part(d, data) => r == Ok((Chunk(0, PartState(d.stage), d.totalSize, data), [])) && after == d
    case Whole(d, size, data, rest) => r == Ok((Chunk(0, Finish, size, data), rest)) && after == d
  }

  // One byte of a size.
  lemma ScanSize(d: Dec, buf: Bytes)
    requires d.stage == Size && buf != []
    ensures
      var v := HexValue(buf[0]);
      Scan(d, buf, []) ==
        if v >= 0 then
          if d.hexCount * 16 + v > MAX_I64 then ScanError else Scan(d.(hexCount := d.hexCount * 16 + v), buf[1..], [])
        else if EndsSize(buf[0]) then Scan(Sized(d), buf, [])
        else ScanError
  {
  }

  lemma {:induction false} ScanData(d: Dec, buf: Bytes, data: Bytes)
    requires d.stage == Data && buf != []
    ensures Scan(d, buf, data) ==
            if |buf| >= d.restSize then Scan(AllData(d), buf[d.restSize..], data + buf[..d.restSize])
            else Part(d.(restSize := d.restSize - |buf|), data + buf)
    decreases buf
  {
    if d.restSize == 0 {
      assert buf[0..] == buf && data + buf[..0] == data;
    } else {
      var data' := data + [buf[0]];
      var d' := d.(restSize := d.restSize - 1);
      if |buf| == 1 {
        assert [buf[0]] == buf && data + buf == data';
        if d.restSize == 1 {
          assert buf[1..] == [] && buf[..1] == buf;
        }
      } else if d.restSize == 1 {
        assert buf[..1] == [buf[0]];
      } else {
        ScanData(d', buf[1..], data');
        if |buf| >= d.restSize {
          assert buf[1..][d'.restSize..] == buf[d.restSize..];
          assert data' + buf[1..][..d'.restSize] == data + buf[..d.restSize];
        } else {
          assert data' + buf[1..] == data + buf;
        }
      }
    }
  }

  class ChunkBodyDecoder {
    var chunkNum: nat
    var totalSize: nat
    var restSize: nat
    var hexCount: nat
    var crMeet: bool
    var isLastChunk: bool
    var stage: Stage

    ghost function State(): Dec
      reads this
    {
      Dec(chunkNum, totalSize, restSize, hexCount, crMeet, isLastChunk, stage)
    }

    constructor ()
      ensures State() == INITIAL && Consistent(Assembly([], []), State())
    {
      chunkNum, totalSize, restSize, hexCount := 0, 0, 0, 0;
      crMeet, isLastChunk, stage := false, false, Size;
    }

    method DecodeCr() returns (ok: bool)
      modifies this`crMeet
      ensures ok == !old(crMeet) && crMeet
    {
      if crMeet {
        return false;
      }
      crMeet := true;
      return true;
    }

    method DecodeLf() returns (ok: bool)
      modifies this`crMeet
      ensures ok == old(crMeet) && !crMeet
    {
      if !crMeet {
        return false;
      }
      crMeet := false;
      return true;
    }

    /** The line end after the data; `data` is what this slice held of it. */
    method SkipLastCrlf(data: Bytes, buf: Bytes) returns (r: Result<(Chunk, Bytes)>)
      modifies this
      ensures Returns(Scan(old(State()).(stage := DataEnd), buf, data), r, State())
    {
      stage := DataEnd;
      ghost var start := State();
      var i := 0;
      while i < |buf|
        invariant 0 <= i <= |buf|
        invariant State().stage == DataEnd
        invariant Scan(start, buf, data) == Scan(State(), buf[i..], data)
      {
        assert buf[i..][1..] == buf[i + 1..];
        var b := buf[i];
        if b == CR {
          var ok := DecodeCr();
          if !ok { return InvalidInput; }
        } else if b == LF {
          var ok := DecodeLf();
          if !ok { return InvalidInput; }
          stage := Size;
          var size := totalSize;
          totalSize := 0;
          return Ok((Chunk(0, Finish, size, data), buf[i + 1..]));
        } else {
          return InvalidInput;
        }
        i := i + 1;
      }
      return Ok((Chunk(0, DataCrlf, totalSize, data), []));
    }

    method DecodeData(buf: Bytes) returns (r: Result<(Chunk, Bytes)>)
      modifies this
      ensures Returns(Scan(old(State()).(stage := Data), buf, []), r, State())
    {
      stage := Data;
      if buf == [] {
        return Ok((Chunk(0, DataPart, totalSize, []), []));
      }
      ScanData(State(), buf, []);
      var rest := restSize;
      if |buf| >= rest {
        restSize := 0;
        crMeet := false;
        assert [] + buf[..rest] == buf[..rest];
        r := SkipLastCrlf(buf[..rest], buf[rest..]);
      } else {
        restSize := restSize - |buf|;
        assert [] + buf == buf;
        return Ok((Chunk(0, DataPart, totalSize, buf), []));
      }
    }

    method SkipCrlf(buf: Bytes) returns (r: Result<(Chunk, Bytes)>)
      modifies this
      ensures Returns(Scan(old(State()).(stage := SizeEnd), buf, []), r, State())
    {
      stage := SizeEnd;
      ghost var start := State();
      var i := 0;
      while i < |buf|
        invariant 0 <= i <= |buf|
        invariant State().stage == SizeEnd
        invariant Scan(start, buf, []) == Scan(State(), buf[i..], [])
      {
        assert buf[i..][1..] == buf[i + 1..];
        var b := buf[i];
        if b == CR {
          var ok := DecodeCr();
          if !ok { return InvalidInput; }
        } else if b == LF {
          var ok := DecodeLf();
          if !ok { return InvalidInput; }
          r := DecodeData(buf[i + 1..]);
          return;
        } else {
          return InvalidInput;
        }
        i := i + 1;
      }
      return Ok((Chunk(0, MetaCrlf, totalSize, []), []));
    }

    method SkipExtension(buf: Bytes) returns (r: Result<(Chunk, Bytes)>)
      modifies this
      ensures Returns(Scan(old(State()).(stage := Extension), buf, []), r, State())
    {
      stage := Extension;
      ghost var start := State();
      var i := 0;
      while i < |buf|
        invariant 0 <= i <= |buf|
        invariant State().stage == Extension
        invariant Scan(start, buf, []) == Scan(State(), buf[i..], [])
      {
        assert buf[i..][1..] == buf[i + 1..];
        var b := buf[i];
        if b == CR {
          var ok := DecodeCr();
          if !ok { return InvalidInput; }
          r := SkipCrlf(buf[i + 1..]);
          return;
        } else if b == LF {
          var ok := DecodeLf();
          if !ok { return InvalidInput; }
          r := SkipCrlf(buf[i..]);
          return;
        }
        i := i + 1;
      }
      return Ok((Chunk(0, MetaExt, totalSize, []), []));
    }

    method DecodeSpecialChar(buf: Bytes) returns (r: Result<(Chunk, Bytes)>)
      modifies this
      ensures Returns(Scan(Sized(old(State())), buf, []), r, State())
    {
      totalSize := hexCount;
      hexCount := 0;
      if totalSize == 0 {
        isLastChunk := true;
      } else {
        restSize := totalSize;
      }
      r := SkipExtension(buf);
    }

    method DecodeSize(buf: Bytes) returns (r: Result<(Chunk, Bytes)>)
      modifies this
      ensures Returns(Scan(old(State()).(stage := Size), buf, []), r, State())
    {
      stage := Size;
      ghost var start := State();
      var i := 0;
      assert buf[0..] == buf;
      while i < |buf|
        invariant 0 <= i <= |buf|
        invariant State().stage == Size
        invariant Scan(start, buf, []) == Scan(State(), buf[i..], [])
      {
        hide Scan, Sized, HexValue, EndsSize;
        assert buf[i..][1..] == buf[i + 1..];
        ScanSize(State(), buf[i..]);
        var b := buf[i];
        var v := HexValue(b);
        if v >= 0 {
          // checked_mul and checked_add on i64
          if hexCount * 16 > MAX_I64 { return InvalidInput; }
          if hexCount * 16 + v > MAX_I64 { return InvalidInput; }
          hexCount := hexCount * 16 + v;
        } else if EndsSize(b) {
          r := DecodeSpecialChar(buf[i..]);
          return;
        } else {
          return InvalidInput;
        }
        i := i + 1;
      }
      return Ok((Chunk(0, MetaSize, totalSize, []), []));
    }

    method DecodeStage(remains: Bytes) returns (r: Result<(Chunk, Bytes)>)
      modifies this
      ensures Returns(Scan(old(State()), remains, []), r, State())
    {
      hide Scan;
      ghost var before := State();
      assert before.(stage := before.stage) == before;
      match stage
      case Size => r := DecodeSize(remains);
      case Extension => r := SkipExtension(remains);
      case SizeEnd => r := SkipCrlf(remains);
      case Data => r := DecodeData(remains);
      case DataEnd => r := SkipLastCrlf([], remains);
    }

    /** All chunks of a slice, the last of them perhaps a part; and the bytes after the last chunk of the body. */
    method DecodeSlice(buf: Bytes) returns (r: Result<(seq<Chunk>, Bytes)>)
      modifies this
      ensures
        match Decode(old(State()), buf)
        case DecodeError => r == InvalidInput
        case Chunks(chunks, d, rest) => r == Ok((chunks, rest)) && State() == d
    {
      var results: seq<Chunk> := [];
      var remains := buf;
      PrefixedNone(Decode(State(), buf));
      hide Scan, Decode, Prefixed;
      while true
        invariant Decode(old(State()), buf) == Prefixed(results, Decode(State(), remains))
        decreases |remains|
      {
        OneChunk(State(), remains, results);
        var c := DecodeStage(remains);
        if c.InvalidInput? {
          return InvalidInput;
        }
        var chunk := c.value.0.(id := chunkNum);
        remains := c.value.1;
        results := results + [chunk];
        if chunk.state != Finish {
          return Ok((results, remains));
        }
        if isLastChunk {
          isLastChunk := false;
          chunkNum := 0;
          return Ok((results, remains));
        }
        chunkNum := chunkNum + 1;
        if remains == [] {
          return Ok((results, remains));
        }
      }
    }
  }

  lemma OneChunk(d: Dec, buf: Bytes, results: seq<Chunk>)
    ensures
      var all := Prefixed(results, Decode(d, buf));
      match Scan(d, buf, [])
      case ScanError => all == DecodeError
      case Part(d', data) =>
        all == Chunks(results + [Chunk(d'.chunkNum, PartState(d'.stage), d'.totalSize, data)], d', [])
      case Whole(d', size, data, rest) =>
        var more := results + [Chunk(d'.chunkNum, Finish, size, data)];
        all == (if d'.isLast || rest == [] then Chunks(more, NextChunk(d'), rest)
                else Prefixed(more, Decode(NextChunk(d'), rest)))
  {
    hide Scan;
    match Scan(d, buf, [])
    case Whole(d', size, data, rest) =>
      PrefixedTwice(results, [Chunk(d'.chunkNum, Finish, size, data)], Decode(NextChunk(d'), rest));
    case _ =>
  }

  function Prefixed(chunks: seq<Chunk>, r: Decoded): Decoded {
    match r
    case DecodeError => DecodeError
    case Chunks(cs, d, rest) => Chunks(chunks + cs, d, rest)
  }

  lemma PrefixedNone(r: Decoded)
    ensures Prefixed([], r) == r
  {
    if r.Chunks? { assert [] + r.chunks == r.chunks; }
  }

  lemma PrefixedTwice(a: seq<Chunk>, b: seq<Chunk>, r: Decoded)
    ensures Prefixed(a, Prefixed(b, r)) == Prefixed(a + b, r)
  {
    if r.Chunks? { assert a + (b + r.chunks) == a + b + r.chunks; }
  }
}
