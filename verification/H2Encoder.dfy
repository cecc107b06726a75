/**
 The HTTP/2 frame encoder, which fills whatever output buffers it is given.
 HPACK is seen as the pieces, of at most 16384 bytes each, in which it hands out
 a header block.
 */
module H2Encoder {
  import opened MachineWords
  import opened H2Frames
  import opened H2Decoder

  /** A frame to send; the parts of a HEADERS frame are the pieces of its block. */
  type Outgoing = Frame<seq<Bytes>>

  //
  // What a frame becomes on the wire.
  //

  /** `flags & 0xFE`. */
  function NoEndStream(flags: u8): u8 {
    flags - flags % 2
  }

  /** `flags & 0xFB`. */
  function NoEndHeaders(flags: u8): u8 {
    if EndHeaders(flags) then flags - 4 else flags
  }

  /** Frames that are sent whole. */
  predicate IsControl<P>(p: Payload<P>) {
    !p.Data? && !p.Headers? && !p.PushPromise?
  }

  function TypeOf<P>(p: Payload<P>): u8 {
    match p
    case Data(_) => DATA
    case Headers(_) => HEADERS
    case Priority(_, _, _) => PRIORITY
    case RstStream(_) => RST_STREAM
    case Settings(_) => SETTINGS
    case PushPromise(_, _) => PUSH_PROMISE
    case Ping(_) => PING
    case Goaway(_, _, _) => GOAWAY
    case WindowUpdate(_) => WINDOW_UPDATE
  }

  function ControlPayload<P>(p: Payload<P>): Bytes
    requires IsControl(p)
  {
    match p
    case Priority(exclusive, dependency, weight) =>
      Be32(dependency % 0x8000_0000 + if exclusive then 0x8000_0000 else 0) + [weight]
    case RstStream(error) => Be32(error)
    case Settings(list) => SettingsBytes(list)
    case Ping(data) => data
    case Goaway(code, last, debug) => Be32(last) + Be32(code) + debug
    case WindowUpdate(increment) => Be32(increment)
  }

  /** SETTINGS and PING always go to stream 0. */
  function ControlWire<P>(f: Frame<P>): Wire
    requires IsControl(f.payload)
  {
    var payload := ControlPayload(f.payload);
    var id := if f.payload.Settings? || f.payload.Ping? then 0 else f.streamId;
    Wire(FrameHeader(id, f.flags, TypeOf(f.payload), |payload|), payload)
  }

  /**
   The last `remaining` bytes of a DATA frame under the limit `max`. Every
   fragment takes its bytes from the start of the data.
   */
  function DataWires(id: u32, flags: u8, data: Bytes, max: nat, remaining: nat): seq<Wire>
    requires max > 0 && remaining <= |data|
  {
    if remaining <= max then [Wire(FrameHeader(id, flags, DATA, remaining), data[..remaining])]
    else
      [Wire(FrameHeader(id, NoEndStream(flags), DATA, max), data[..max])]
      + DataWires(id, flags, data, max, remaining - max)
  }

  /**
   The rest of a header block, END_HEADERS only on the last. A piece beyond the
   limit follows as a whole, though the header declares no more than the limit.
   */
  function ContinuationWires(id: u32, pieces: seq<Bytes>, max: nat): seq<Wire> {
    if pieces == [] then []
    else [Wire(ContinuationHeader(id, pieces[0], pieces[1..], max), pieces[0])] + ContinuationWires(id, pieces[1..], max)
  }

  function ContinuationHeader(id: u32, piece: Bytes, rest: seq<Bytes>, max: nat): FrameHeader {
    FrameHeader(id, if |piece| <= max && rest == [] then 4 else 0, CONTINUATION, Min(|piece|, max))
  }

  function HeadersHeader(id: u32, flags: u8, first: Bytes, more: bool): FrameHeader {
    FrameHeader(id, if more then NoEndHeaders(flags) else flags, HEADERS, |first|)
  }

  function HeaderWires(id: u32, flags: u8, pieces: seq<Bytes>, max: nat): seq<Wire> {
    var first := FirstPiece(pieces);
    var rest := RestPieces(pieces);
    [Wire(HeadersHeader(id, flags, first, rest != []), first)] + ContinuationWires(id, rest, max)
  }

  /** HPACK is asked for one piece in any case. */
  function FirstPiece(pieces: seq<Bytes>): Bytes {
    if pieces == [] then [] else pieces[0]
  }

  function RestPieces(pieces: seq<Bytes>): seq<Bytes> {
    if pieces == [] then [] else pieces[1..]
  }

  /** The frames on the wire that a frame becomes; PUSH_PROMISE is not sent. */
  function FrameWires(f: Outgoing, max: nat): seq<Wire>
    requires f.payload.Data? ==> max > 0
  {
    if f.payload.Data? then DataWires(f.streamId, f.flags, f.payload.data, max, |f.payload.data|)
    else if f.payload.Headers? then HeaderWires(f.streamId, f.flags, f.payload.parts, max)
    else if f.payload.PushPromise? then []
    else [ControlWire(f)]
  }

  //
  // The encoder between steps.
  //

  /** For control frames the payload tells which of the encoder's states is meant. */
  datatype State =
    | Idle | HeadersFrame | HeadersPayload | ContinuationFrames | HeadersComplete
    | DataHeader | DataPayload | ControlHeader | ControlBody | DataComplete

  datatype Enc = Enc(
    frame: Option<Outgoing>,
    state: State,
    encodedBytes: nat,
    isEndHeaders: bool,
    data: DataPart,
    block: BlockPart)

  /** Of DATA: `offset` bytes of the fragment are written, `remaining` bytes of the frame are not. */
  datatype DataPart = DataPart(max: nat, offset: nat, remaining: nat)

  /** Of a header block: the piece at hand, written up to `index`, and the pieces after it. */
  datatype BlockPart = BlockPart(piece: Bytes, index: nat, rest: seq<Bytes>)

  predicate Sent(e: Enc) {
    e.state == Idle || e.state == HeadersComplete || e.state == DataComplete
  }

  /** Pieces that follow in CONTINUATION frames fit into them. */
  predicate Fits(pieces: seq<Bytes>, max: nat) {
    forall i | 0 <= i < |pieces| :: |pieces[i]| <= max
  }

  predicate ValidEnc(e: Enc) {
    !Sent(e) ==>
      && e.frame.Some?
      && var p := e.frame.value.payload;
         match e.state
         case HeadersFrame => p.Headers? && ValidBlock(e) && e.encodedBytes < 9 && e.block.index == 0
         case HeadersPayload => p.Headers? && ValidBlock(e) && e.block.index < |e.block.piece|
         case ContinuationFrames =>
           p.Headers? && ValidBlock(e) && e.block.index == 0
         case DataHeader => p.Data? && ValidData(e.data, p.data) && e.encodedBytes < 9 && e.data.offset == 0
         case DataPayload => p.Data? && ValidData(e.data, p.data) && e.encodedBytes == 0
         case ControlHeader => IsControl(p) && ValidControl(p) && e.encodedBytes < 9
         case ControlBody => IsControl(p) && ValidControl(p) && BodyIndex(e, p) <= |ControlPayload(p)|
                             && (!p.WindowUpdate? ==> e.encodedBytes >= 9)
         case _ => true
  }

  predicate ValidBlock(e: Enc) {
    e.isEndHeaders
  }

  predicate ValidData(d: DataPart, data: Bytes) {
    d.offset + d.remaining <= |data| && d.offset < d.max
  }

  predicate ValidControl<P>(p: Payload<P>) {
    p.Ping? ==> |p.opaqueData| == 8
  }

  /** How much of the payload should be written; the count starts again for WINDOW_UPDATE. */
  function BodyIndex(e: Enc, p: Payload<seq<Bytes>>): nat {
    if p.WindowUpdate? then Min(e.encodedBytes, 4) else if e.encodedBytes < 9 then 0 else e.encodedBytes - 9
  }

  /** Headers of these frames that were cut after `from` bytes are resumed where they should be. */
  predicate HeaderResumes<P>(p: Payload<P>, from: nat) {
    && (p.Settings? || p.Ping? ==> from == 0 || from >= 5)
    && (p.RstStream? ==> from == 0)
  }

  /**
   The code has lost its place: it resumes the header of a SETTINGS, PING or
   RST_STREAM frame relative to the buffer, and the payload of a WINDOW_UPDATE
   frame from its start.
   */
  predicate Lost(e: Enc) {
    e.frame.Some? &&
    var p := e.frame.value.payload;
    || (e.state == ControlHeader && !HeaderResumes(p, e.encodedBytes))
    || (e.state == ControlBody && p.WindowUpdate? && e.encodedBytes > 0)
  }

  /** What is left of the fragment at hand, and the fragments after it. */
  function DataPending(d: DataPart, f: Outgoing): Bytes
    requires f.payload.Data? && ValidData(d, f.payload.data)
  {
    var data := f.payload.data;
    var left := Min(d.remaining, d.max - d.offset);
    data[d.offset..d.offset + left]
    + if left == d.remaining then []
      else WireBytes(DataWires(f.streamId, f.flags, data, d.max, d.remaining - left))
  }

  function DataHeaderOf(d: DataPart, f: Outgoing): FrameHeader {
    FrameHeader(f.streamId, if d.remaining <= d.max then f.flags else NoEndStream(f.flags), DATA, Min(d.remaining, d.max))
  }

  function BlockPending(b: BlockPart, f: Outgoing, max: nat): Bytes
    requires b.index <= |b.piece|
  {
    b.piece[b.index..] + WireBytes(ContinuationWires(f.streamId, b.rest, max))
  }

  function BlockHeader(b: BlockPart, f: Outgoing): FrameHeader {
    HeadersHeader(f.streamId, f.flags, b.piece, b.rest != [])
  }

  /** Everything that is still to be written of the current frame. */
  function Pending(e: Enc): Bytes
    requires ValidEnc(e)
  {
    if Sent(e) then []
    else
      var f := e.frame.value;
      match e.state
      case HeadersFrame => HeaderBytes(BlockHeader(e.block, f))[e.encodedBytes..] + BlockPending(e.block, f, e.data.max)
      case HeadersPayload => BlockPending(e.block, f, e.data.max)
      case ContinuationFrames => WireBytes(ContinuationWires(f.streamId, [e.block.piece] + e.block.rest, e.data.max))
      case DataHeader => HeaderBytes(DataHeaderOf(e.data, f))[e.encodedBytes..] + DataPending(e.data, f)
      case DataPayload => DataPending(e.data, f)
      case ControlHeader => HeaderBytes(ControlWire(f).header)[e.encodedBytes..] + ControlPayload(f.payload)
      case ControlBody => ControlPayload(f.payload)[BodyIndex(e, f.payload)..]
      case _ => []
  }

  //
  // Bytes by index.
  //

  const POWERS: seq<nat> := [1, 0x100, 0x1_0000, 0x100_0000]

  /** `(v >> 8 * k) & 0xFF`. */
  function ByteAt(v: nat, k: nat): u8
    requires k < 4
  {
    v / POWERS[k] % 256
  }

  function HeaderByte(h: FrameHeader, i: nat): u8
    requires i < 9
  {
    if i <= 2 then ByteAt(h.payloadLength, 2 - i)
    else if i == 3 then h.frameType
    else if i == 4 then h.flags
    else ByteAt(h.streamId, 8 - i)
  }

  function PayloadByte<P>(p: Payload<P>, i: nat): u8
    requires IsControl(p) && i < |ControlPayload(p)|
  {
    match p
    case Priority(exclusive, dependency, weight) =>
      if i == 0 then (if exclusive then 128 else 0) + dependency / 0x100_0000 % 128
      else if i <= 3 then ByteAt(dependency, 3 - i)
      else weight
    case RstStream(error) => ByteAt(error, 3 - i)
    case Settings(list) =>
      var s := list[i / 6];
      if i % 6 <= 1 then ByteAt(SettingId(s), 1 - i % 6) else ByteAt(SettingValue(s), 3 - (i % 6 - 2))
    case Ping(data) => data[i]
    case Goaway(code, last, debug) =>
      if i <= 3 then ByteAt(last, 3 - i)
      else if i <= 7 then ByteAt(code, 3 - (i - 4))
      else debug[i - 8]
    case WindowUpdate(increment) => ByteAt(increment, 3 - i)
  }

  lemma Be32Bytes(v: nat, i: nat)
    requires i < 4
    ensures Be32(v)[i] == ByteAt(v, 3 - i)
  {
  }

  lemma HeaderByteIs(h: FrameHeader, i: nat)
    requires i < 9
    ensures HeaderBytes(h)[i] == HeaderByte(h, i)
  {
  }

  lemma {:induction false} SettingsByteIs(list: seq<Setting>, i: nat)
    requires i < 6 * |list|
    ensures SettingsBytes(list)[i] == PayloadByte<()>(Settings(list), i)
  {
    if i < 6 {
      SettingByteIs(list[0], i);
    } else {
      SettingsByteIs(list[1..], i - 6);
      assert (i - 6) / 6 == i / 6 - 1 && (i - 6) % 6 == i % 6;
    }
  }

  lemma SettingByteIs(s: Setting, i: nat)
    requires i < 6
    ensures (Be16(SettingId(s)) + Be32(SettingValue(s)))[i] == PayloadByte<()>(Settings([s]), i)
  {
    hide SettingsBytes, SettingId, SettingValue;
    assert i >= 2 ==> (Be16(SettingId(s)) + Be32(SettingValue(s)))[i] == Be32(SettingValue(s))[i - 2];
    if i >= 2 {
      Be32Bytes(SettingValue(s), i - 2);
    }
  }

  // The top bit shows in the first byte only.
  lemma TopBit(d: nat)
    requires d < 0x8000_0000
    ensures Be32(d + 0x8000_0000) == [128 + d / 0x100_0000] + Be32(d)[1..]
    ensures Be32(d)[0] == d / 0x100_0000 < 128
  {
    TopByte(d);
    MiddleBytes(d);
    LowByte(d / 0x100);
    LowByte(d);
  }

  lemma TopByte(d: nat)
    requires d < 0x8000_0000
    ensures (d + 0x8000_0000) / 0x100_0000 % 256 == 128 + d / 0x100_0000 < 256
  {
  }

  lemma MiddleBytes(d: nat)
    ensures (d + 0x8000_0000) / 0x1_0000 % 256 == d / 0x1_0000 % 256
    ensures (d + 0x8000_0000) / 0x100 % 256 == d / 0x100 % 256
  {
    LowByte(d / 0x1_0000);
    LowByte(d / 0x100);
  }

  lemma LowByte(a: nat)
    ensures (a + 0x8000) % 256 == (a + 0x80_0000) % 256 == (a + 0x8000_0000) % 256 == a % 256
  {
  }

  lemma PriorityByteIs(exclusive: bool, dependency: u32, i: nat)
    requires i < 4
    ensures Be32(dependency % 0x8000_0000 + if exclusive then 0x8000_0000 else 0)[i]
         == if i == 0 then (if exclusive then 128 else 0) + dependency / 0x100_0000 % 128 else ByteAt(dependency, 3 - i)
  {
    var d := dependency % 0x8000_0000;
    TopBit(d);
    assert d / 0x100_0000 < 128;
    assert dependency == d || dependency == d + 0x8000_0000;
    assert dependency / 0x100_0000 % 128 == d / 0x100_0000 && Be32(d)[0] == d / 0x100_0000;
    hide Be32, ByteAt;
    Be32Bytes(dependency, i);
    Be32Bytes(d, i);
  }

  lemma PayloadByteIs<P>(p: Payload<P>, i: nat)
    requires IsControl(p) && i < |ControlPayload(p)|
    ensures ControlPayload(p)[i] == PayloadByte(p, i)
  {
    hide Be32, ByteAt;
    match p
    case Priority(exclusive, dependency, weight) => if i < 4 { PriorityByteIs(exclusive, dependency, i); }
    case RstStream(error) => Be32Bytes(error, i);
    case Settings(list) => SettingsByteIs(list, i);
    case Ping(data) =>
    case Goaway(code, last, debug) =>
      if i < 4 { Be32Bytes(last, i); } else if i < 8 { Be32Bytes(code, i - 4); }
    case WindowUpdate(increment) => Be32Bytes(increment, i);
  }

  //
  // Steps.
  //

  /** The frame stays the same until the end of a header block clears it. */
  predicate FrameKept(e: Enc, e': Enc) {
    e'.frame == e.frame || (e'.frame == None && e.frame.Some? && e.frame.value.payload.Headers?)
  }

  /** `num` pending bytes went to `at`, the others are still pending. */
  ghost predicate Emits(e: Enc, e': Enc, was: Bytes, now: Bytes, at: nat, num: nat) {
    && ValidEnc(e) && ValidEnc(e') && num <= |Pending(e)| && at + num <= |was|
    && now == Spliced(was, at, Pending(e)[..num])
    && Pending(e') == Pending(e)[num..]
    && FrameKept(e, e')
  }

  lemma EmitsBytes(e: Enc, e': Enc, was: Bytes, now: Bytes, at: nat, w: Bytes)
    requires ValidEnc(e) && ValidEnc(e') && at + |w| <= |was|
    requires Pending(e) == w + Pending(e')
    requires now == Spliced(was, at, w)
    requires FrameKept(e, e')
    ensures Emits(e, e', was, now, at, |w|)
  {
    hide Pending, ValidEnc;
  }

  lemma EmitsNone(e: Enc, was: Bytes, at: nat)
    requires ValidEnc(e) && at <= |was|
    ensures Emits(e, e, was, was, at, 0)
  {
    hide Pending, ValidEnc;
    EmitsBytes(e, e, was, was, at, []);
  }

  lemma EmitsOn(e: Enc, e1: Enc, e2: Enc, was: Bytes, b1: Bytes, b2: Bytes, n1: nat, n2: nat)
    requires Emits(e, e1, was, b1, 0, n1) && Emits(e1, e2, b1, b2, n1, n2)
    ensures Emits(e, e2, was, b2, 0, n1 + n2)
  {
    hide Pending, ValidEnc;
    var p := Pending(e);
    SpliceMore(was, 0, p[..n1], p[n1..][..n2]);
    assert p[..n1] + p[n1..][..n2] == p[..n1 + n2];
  }

  // The pending bytes, state by state.
  lemma WireBytesFirst(ws: seq<Wire>)
    requires ws != []
    ensures WireBytes(ws) == HeaderBytes(ws[0].header) + (ws[0].payload + WireBytes(ws[1..]))
  {
    hide HeaderBytes;
  }

  lemma ContinuationPending(e: Enc)
    requires ValidEnc(e) && e.state == ContinuationFrames
    ensures
      var f := e.frame.value;
      var b := e.block;
      Pending(e) == HeaderBytes(ContinuationHeader(f.streamId, b.piece, b.rest, e.data.max)) + BlockPending(b, f, e.data.max)
  {
    hide HeaderBytes;
    var f := e.frame.value;
    var b := e.block;
    var ps := [b.piece] + b.rest;
    assert ps[1..] == b.rest;
    WireBytesFirst(ContinuationWires(f.streamId, ps, e.data.max));
    assert ContinuationWires(f.streamId, ps, e.data.max)[1..] == ContinuationWires(f.streamId, b.rest, e.data.max);
    assert b.piece[0..] == b.piece;
  }

  lemma NextFragment(d: DataPart, f: Outgoing)
    requires f.payload.Data? && ValidData(d, f.payload.data) && d.offset == 0
    ensures WireBytes(DataWires(f.streamId, f.flags, f.payload.data, d.max, d.remaining))
         == HeaderBytes(DataHeaderOf(d, f)) + DataPending(d, f)
  {
    hide HeaderBytes;
    var ws := DataWires(f.streamId, f.flags, f.payload.data, d.max, d.remaining);
    WireBytesFirst(ws);
    if d.remaining > d.max {
      assert ws[1..] == DataWires(f.streamId, f.flags, f.payload.data, d.max, d.remaining - d.max);
    }
  }

  lemma FreshPending(e: Enc, f: Outgoing)
    requires ValidEnc(e) && e.frame == Some(f) && e.encodedBytes == 0
    requires e.state == HeadersFrame || e.state == DataHeader || e.state == ControlHeader
    requires f.payload.Data? ==> e.data.remaining == |f.payload.data|
    requires f.payload.Headers? ==> e.block == BlockPart(FirstPiece(f.payload.parts), 0, RestPieces(f.payload.parts))
    ensures Pending(e) == WireBytes(FrameWires(f, e.data.max))
  {
    hide HeaderBytes, ControlPayload, WireBytes;
    var ws := FrameWires(f, e.data.max);
    WireBytesFirst(ws);
    assert HeaderBytes(ws[0].header)[0..] == HeaderBytes(ws[0].header);
    if f.payload.Data? {
      NextFragment(e.data, f);
    } else {
      NoWires();
      assert f.payload.Headers? ==> ws[1..] == ContinuationWires(f.streamId, e.block.rest, e.data.max) && e.block.piece[0..] == e.block.piece;
      assert !f.payload.Headers? ==> ws[1..] == [] && ControlPayload(f.payload) + [] == ControlPayload(f.payload);
    }
  }

  lemma NoWires()
    ensures WireBytes([]) == []
  {
  }

  /** After `n` bytes of data: what is left of the fragment, or the next one. */
  function DataAfter(d: DataPart, n: nat): DataPart
    requires n <= d.remaining
  {
    var d' := d.(offset := d.offset + n, remaining := d.remaining - n);
    if d'.remaining == 0 || d'.offset == d.max then d'.(offset := 0) else d'
  }

  lemma DataMoves(d: DataPart, f: Outgoing, n: nat)
    requires f.payload.Data? && ValidData(d, f.payload.data)
    requires n <= Min(d.remaining, d.max - d.offset)
    ensures
      var w := f.payload.data[d.offset..d.offset + n];
      var d' := DataAfter(d, n);
      && ValidData(d', f.payload.data)
      && if d'.remaining == 0 then DataPending(d, f) == w
         else if d.offset + n == d.max then DataPending(d, f) == w + (HeaderBytes(DataHeaderOf(d', f)) + DataPending(d', f))
         else DataPending(d, f) == w + DataPending(d', f)
  {
    hide HeaderBytes, DataPending, DataWires, WireBytes, DataHeaderOf;
    var data := f.payload.data;
    if n == d.remaining {
      FragmentEnds(d, f);
      assert data[d.offset..d.offset + n] + [] == data[d.offset..d.offset + n];
    } else if d.offset + n == d.max {
      FragmentEnds(d, f);
      NextFragment(DataAfter(d, n), f);
    } else {
      FragmentGoesOn(d, f, n);
    }
  }

  // The rest of the fragment at hand, and the next fragments.
  lemma FragmentEnds(d: DataPart, f: Outgoing)
    requires f.payload.Data? && ValidData(d, f.payload.data)
    ensures
      var n := Min(d.remaining, d.max - d.offset);
      DataPending(d, f) == f.payload.data[d.offset..d.offset + n]
        + if n == d.remaining then [] else WireBytes(DataWires(f.streamId, f.flags, f.payload.data, d.max, d.remaining - n))
  {
  }

  lemma FragmentGoesOn(d: DataPart, f: Outgoing, n: nat)
    requires f.payload.Data? && ValidData(d, f.payload.data)
    requires n < Min(d.remaining, d.max - d.offset)
    ensures
      var d' := d.(offset := d.offset + n, remaining := d.remaining - n);
      && ValidData(d', f.payload.data)
      && DataPending(d, f) == f.payload.data[d.offset..d.offset + n] + DataPending(d', f)
  {
    hide HeaderBytes, DataWires, WireBytes;
    var data := f.payload.data;
    var i, j, k := d.offset, d.offset + n, d.offset + Min(d.remaining, d.max - d.offset);
    assert data[i..k] == data[i..j] + data[j..k];
  }

  lemma Halves(s: Bytes, i: nat, j: nat)
    requires i <= j <= |s|
    ensures s[i..] == s[i..j] + s[j..]
    ensures j == |s| ==> s[i..j] == s[i..]
    ensures s[0..] == s
  {
  }

  // What is pending in each state.
  lemma AtHeadersFrame(e: Enc)
    requires ValidEnc(e) && e.state == HeadersFrame
    ensures Pending(e) == HeaderBytes(BlockHeader(e.block, e.frame.value))[e.encodedBytes..] + BlockPending(e.block, e.frame.value, e.data.max)
  {
  }

  lemma AtDataHeader(e: Enc)
    requires ValidEnc(e) && e.state == DataHeader
    ensures Pending(e) == HeaderBytes(DataHeaderOf(e.data, e.frame.value))[e.encodedBytes..] + DataPending(e.data, e.frame.value)
  {
  }

  lemma AtDataPayload(e: Enc)
    requires ValidEnc(e) && e.state == DataPayload
    ensures Pending(e) == DataPending(e.data, e.frame.value)
  {
  }

  lemma AtControlHeader(e: Enc)
    requires ValidEnc(e) && e.state == ControlHeader
    ensures Pending(e) == HeaderBytes(ControlWire(e.frame.value).header)[e.encodedBytes..] + ControlPayload(e.frame.value.payload)
  {
  }

  lemma AtControlBody(e: Enc)
    requires ValidEnc(e) && e.state == ControlBody
    ensures Pending(e) == ControlPayload(e.frame.value.payload)[BodyIndex(e, e.frame.value.payload)..]
  {
  }

  // Writing a part of a frame header, or all that is left of it.
  lemma HeadersHeaderMoves(e: Enc, n: nat)
    requires ValidEnc(e) && e.state == HeadersFrame && e.encodedBytes + n <= 9
    ensures
      var w := HeaderBytes(BlockHeader(e.block, e.frame.value))[e.encodedBytes..e.encodedBytes + n];
      if e.encodedBytes + n == 9 then Pending(e) == w + BlockPending(e.block, e.frame.value, e.data.max)
      else
        var e' := e.(encodedBytes := e.encodedBytes + n);
        ValidEnc(e') && Pending(e) == w + Pending(e')
  {
    hide HeaderBytes, BlockPending, Pending, BlockHeader, IsControl, ControlPayload;
    Halves(HeaderBytes(BlockHeader(e.block, e.frame.value)), e.encodedBytes, e.encodedBytes + n);
    AtHeadersFrame(e);
    if e.encodedBytes + n < 9 {
      AtHeadersFrame(e.(encodedBytes := e.encodedBytes + n));
    }
  }

  lemma DataHeaderMoves(e: Enc, n: nat)
    requires ValidEnc(e) && e.state == DataHeader && e.encodedBytes + n <= 9
    ensures
      var w := HeaderBytes(DataHeaderOf(e.data, e.frame.value))[e.encodedBytes..e.encodedBytes + n];
      var e' := if e.encodedBytes + n == 9 then e.(encodedBytes := 0, state := DataPayload)
                else e.(encodedBytes := e.encodedBytes + n);
      ValidEnc(e') && Pending(e) == w + Pending(e')
  {
    hide HeaderBytes, DataPending, Pending, DataHeaderOf, IsControl, ControlPayload;
    Halves(HeaderBytes(DataHeaderOf(e.data, e.frame.value)), e.encodedBytes, e.encodedBytes + n);
    AtDataHeader(e);
    if e.encodedBytes + n < 9 {
      AtDataHeader(e.(encodedBytes := e.encodedBytes + n));
    } else {
      AtDataPayload(e.(encodedBytes := 0, state := DataPayload));
    }
  }

  function ControlAfter(e: Enc, p: Payload<seq<Bytes>>, n: nat): Enc {
    if e.encodedBytes + n < 9 then e.(encodedBytes := e.encodedBytes + n)
    else e.(encodedBytes := if p.WindowUpdate? then 0 else 9, state := ControlBody)
  }

  lemma ControlHeaderMoves(e: Enc, n: nat)
    requires ValidEnc(e) && e.state == ControlHeader && e.encodedBytes + n <= 9
    ensures ValidEnc(ControlAfter(e, e.frame.value.payload, n))
    ensures Pending(e)
         == HeaderBytes(ControlWire(e.frame.value).header)[e.encodedBytes..e.encodedBytes + n]
            + Pending(ControlAfter(e, e.frame.value.payload, n))
  {
    hide HeaderBytes, Pending, ControlWire, IsControl, ControlPayload, ValidControl;
    Halves(HeaderBytes(ControlWire(e.frame.value).header), e.encodedBytes, e.encodedBytes + n);
    Halves(ControlPayload(e.frame.value.payload), 0, 0);
    AtControlHeader(e);
    var e' := ControlAfter(e, e.frame.value.payload, n);
    if e.encodedBytes + n < 9 {
      AtControlHeader(e');
    } else {
      AtControlBody(e');
    }
  }

  lemma IncrementSize(e: Enc)
    requires ValidEnc(e) && e.state == ControlBody
    ensures e.frame.value.payload.WindowUpdate? ==> |ControlPayload(e.frame.value.payload)| == 4
  {
  }

  /** How many payload bytes from `from` on fit into `room`. */
  function BodyRoom<P>(p: Payload<P>, from: nat, room: nat): (n: nat)
    requires IsControl(p)
    ensures n <= room && (n > 0 ==> from + n <= |ControlPayload(p)|)
  {
    var size := |ControlPayload(p)|;
    Min(if from < size then size - from else 0, room)
  }

  function BodySlice<P>(p: Payload<P>, from: nat, n: nat): (w: Bytes)
    requires IsControl(p) && (n > 0 ==> from + n <= |ControlPayload(p)|)
    ensures |w| == n
  {
    if n == 0 then [] else ControlPayload(p)[from..from + n]
  }

  function BodyAfter(e: Enc, p: Payload<seq<Bytes>>, n: nat): Enc
    requires IsControl(p)
  {
    var encoded := e.encodedBytes + n;
    var whole := if p.WindowUpdate? then 4 else 9 + |ControlPayload(p)|;
    e.(encodedBytes := encoded, state := if encoded == whole then DataComplete else ControlBody)
  }

  lemma BodyMoves(e: Enc, from: nat, room: nat)
    requires ValidEnc(e) && e.state == ControlBody && from == (if e.encodedBytes < 9 then 0 else e.encodedBytes - 9)
    ensures
      var p := e.frame.value.payload;
      var n := BodyRoom(p, from, room);
      var e' := BodyAfter(e, p, n);
      && ValidEnc(e')
      && (!Lost(e) ==>
            Pending(e) == BodySlice(p, from, n) + Pending(e') && InOrder(e') && (e'.state == DataComplete || n == room))
  {
    BodyState(e, from);
    BodyStaysValid(e, from, room);
    hide HeaderBytes, Pending, IsControl, ControlPayload, ValidEnc, Lost, BodyIndex, ValidControl;
    var p := e.frame.value.payload;
    var n := BodyRoom(p, from, room);
    if !Lost(e) {
      assert n == 0 ==> ControlPayload(p)[from..from + n] == [];
      ControlBodyMoves(e, n);
    }
  }

  lemma BodyState(e: Enc, from: nat)
    requires ValidEnc(e) && e.state == ControlBody && from == (if e.encodedBytes < 9 then 0 else e.encodedBytes - 9)
    ensures e.frame.Some? && IsControl(e.frame.value.payload)
    ensures
      var p := e.frame.value.payload;
      && (p.WindowUpdate? ==> |ControlPayload(p)| == 4)
      && (!p.WindowUpdate? ==> e.encodedBytes == 9 + from && from <= |ControlPayload(p)|)
      && (!Lost(e) ==> from == BodyIndex(e, p) && (p.WindowUpdate? ==> e.encodedBytes == 0))
  {
    IncrementSize(e);
    hide ControlPayload, IsControl;
  }

  lemma BodyStaysValid(e: Enc, from: nat, room: nat)
    requires ValidEnc(e) && e.state == ControlBody && from == (if e.encodedBytes < 9 then 0 else e.encodedBytes - 9)
    ensures ValidEnc(BodyAfter(e, e.frame.value.payload, BodyRoom(e.frame.value.payload, from, room)))
  {
    IncrementSize(e);
    hide ControlPayload, IsControl, ValidControl;
  }

  lemma ControlBodyMoves(e: Enc, n: nat)
    requires ValidEnc(e) && e.state == ControlBody && !Lost(e)
    requires BodyIndex(e, e.frame.value.payload) + n <= |ControlPayload(e.frame.value.payload)|
    ensures
      var p := e.frame.value.payload;
      var from := BodyIndex(e, p);
      var w := ControlPayload(p)[from..from + n];
      var next := if from + n == |ControlPayload(p)| then DataComplete else ControlBody;
      var e' := e.(encodedBytes := e.encodedBytes + n, state := next);
      ValidEnc(e') && Pending(e) == w + Pending(e')
  {
    hide HeaderBytes, Pending, IsControl, ControlPayload, ValidControl;
    IncrementSize(e);
    var p := e.frame.value.payload;
    var k := BodyIndex(e, p) + n;
    Halves(ControlPayload(p), BodyIndex(e, p), k);
    AtControlBody(e);
    if k == |ControlPayload(p)| {
      SentIsDone(e.(encodedBytes := e.encodedBytes + n, state := DataComplete));
    } else {
      AtControlBody(e.(encodedBytes := e.encodedBytes + n));
    }
  }

  function PayloadAfter(e: Enc, n: nat): Enc
    requires n <= e.data.remaining
  {
    var next := if n == e.data.remaining then DataComplete
                else if e.data.offset + n == e.data.max then DataHeader else DataPayload;
    e.(data := DataAfter(e.data, n), state := next)
  }

  lemma PayloadAfterIsValid(e: Enc, n: nat)
    requires ValidEnc(e) && e.state == DataPayload
    requires n <= Min(e.data.remaining, e.data.max - e.data.offset)
    ensures e.frame.Some? && e.frame.value.payload.Data? && ValidData(e.data, e.frame.value.payload.data)
    ensures
      var e' := PayloadAfter(e, n);
      && ValidEnc(e') && e'.frame == e.frame && e'.data == DataAfter(e.data, n) && e'.encodedBytes == 0
      && (if n == e.data.remaining then Sent(e') && e'.data.remaining == 0
          else e'.data.remaining != 0 && e'.state == if e.data.offset + n == e.data.max then DataHeader else DataPayload)
  {
    hide IsControl, ControlPayload;
  }

  lemma DataPayloadMoves(e: Enc, n: nat)
    requires ValidEnc(e) && e.state == DataPayload
    requires n <= Min(e.data.remaining, e.data.max - e.data.offset)
    ensures e.frame.Some? && e.frame.value.payload.Data? && ValidData(e.data, e.frame.value.payload.data)
    ensures ValidEnc(PayloadAfter(e, n))
    ensures Pending(e)
         == e.frame.value.payload.data[e.data.offset..e.data.offset + n] + Pending(PayloadAfter(e, n))
  {
    PayloadAfterIsValid(e, n);
    hide *;
    var f := e.frame.value;
    var e' := PayloadAfter(e, n);
    DataMoves(e.data, f, n);
    AtDataPayload(e);
    if n == e.data.remaining {
      SentIsDone(e');
    } else if e.data.offset + n == e.data.max {
      Halves(HeaderBytes(DataHeaderOf(e'.data, f)), 0, 0);
      AtDataHeader(e');
    } else {
      AtDataPayload(e');
    }
  }

  lemma PendingPayload(e: Enc)
    requires ValidEnc(e) && e.state == HeadersPayload
    ensures Pending(e) == BlockPending(e.block, e.frame.value, e.data.max)
  {
  }

  // Some bytes of the piece at hand are written.
  lemma BlockMoves(b: BlockPart, f: Outgoing, max: nat, n: nat)
    requires b.index + n <= |b.piece|
    ensures BlockPending(b, f, max) == b.piece[b.index..b.index + n] + BlockPending(b.(index := b.index + n), f, max)
  {
    hide WireBytes, ContinuationWires;
    Halves(b.piece, b.index, b.index + n);
  }

  //
  // The header loops of the control frames.
  //

  /**
   Where byte `i` of a header goes in the output, and what goes there, when it is
   the `b`-th byte of the call. The loops of SETTINGS, PING and RST_STREAM mix up
   the two; nothing goes anywhere when the shift distance underflows.
   */
  function HeaderSlot<P>(p: Payload<P>, h: FrameHeader, i: nat, b: nat): Option<(nat, u8)>
    requires b <= i < 9
  {
    if p.Settings? || p.Ping? then
      if i <= 2 then Some((b, ByteAt(h.payloadLength, 2 - b)))
      else if i == 3 then Some((3, h.frameType))
      else if i == 4 then Some((4, h.flags))
      else Some((b, 0))
    else if p.RstStream? then
      if i <= 2 then Some((b, ByteAt(h.payloadLength, 2 - b)))
      else if i <= 4 then Some((b, HeaderByte(h, i)))
      else if b < 5 then None
      else Some((b, ByteAt(h.streamId, 8 - b)))
    else Some((b, HeaderByte(h, i)))
  }

  /** What the loop makes of the output, from its `b`-th byte on; None if it ends the program. */
  function WriteHeader<P>(p: Payload<P>, h: FrameHeader, from: nat, b: nat, len: nat, out: Bytes): Option<Bytes>
    requires b <= len && from + len <= 9
    decreases len - b
  {
    if b == len then Some(out)
    else
      match HeaderSlot(p, h, from + b, b)
      case None => None
      case Some((at, v)) => if at < |out| then WriteHeader(p, h, from, b + 1, len, out[at := v]) else None
  }

  lemma {:induction false} HeaderGoesOn<P>(p: Payload<P>, h: FrameHeader, from: nat, b: nat, len: nat, out: Bytes)
    requires b <= len <= |out| && from + len <= 9 && HeaderResumes(p, from)
    requires p.Settings? || p.Ping? ==> h.streamId == 0
    ensures
      var w := HeaderBytes(h)[from..from + len];
      WriteHeader(p, h, from, b, len, Spliced(out, 0, w[..b])) == Some(Spliced(out, 0, w))
    decreases len - b
  {
    hide HeaderBytes, Spliced, ByteAt;
    var w := HeaderBytes(h)[from..from + len];
    if b == len {
      SpliceAll(out, 0, w);
      assert w[..b] == w;
    } else {
      HeaderByteIs(h, from + b);
      ZeroBytes(8 - Min(from + b, 8));
      SpliceOne(out, 0, w, b);
      assert HeaderSlot(p, h, from + b, b) == Some((b, w[b]));
      HeaderGoesOn(p, h, from, b + 1, len, out);
    }
  }

  lemma ZeroBytes(k: nat)
    ensures k < 4 ==> ByteAt(0, k) == 0
  {
  }

  /** A header that is resumed where it should be is written as it should be. */
  lemma HeaderIsRight<P>(p: Payload<P>, h: FrameHeader, from: nat, len: nat, out: Bytes)
    requires len <= |out| && from + len <= 9 && HeaderResumes(p, from)
    requires p.Settings? || p.Ping? ==> h.streamId == 0
    ensures WriteHeader(p, h, from, 0, len, out) == Some(Spliced(out, 0, HeaderBytes(h)[from..from + len]))
  {
    hide HeaderBytes, Spliced;
    SpliceNone(out, 0, HeaderBytes(h)[from..from + len]);
    HeaderGoesOn(p, h, from, 0, len, out);
  }

  // The byte that the type or the flags should have been written to keeps what it held.
  lemma {:induction false} ByteIsMissed<P>(p: Payload<P>, h: FrameHeader, from: nat, b: nat, len: nat, out: Bytes)
    requires (p.Settings? || p.Ping?) && 1 <= from <= 4 && b <= len && from + len <= 9
    ensures
      var slot := if from <= 3 then 3 - from else 0;
      var r := WriteHeader(p, h, from, b, len, out);
      r.Some? && slot < |out| ==> slot < |r.value| && r.value[slot] == out[slot]
    decreases len - b
  {
    hide ByteAt;
    if b < len {
      var (at, v) := HeaderSlot(p, h, from + b, b).value;
      if at < |out| {
        ByteIsMissed(p, h, from, b + 1, len, out[at := v]);
      }
    }
  }

  // The shift distance underflows at the first byte of the stream id.
  lemma {:induction false} DistanceUnderflows<P>(p: Payload<P>, h: FrameHeader, from: nat, b: nat, out: Bytes)
    requires p.RstStream? && 1 <= from < 9 && b <= 9 - from && (b == 0 || from + b <= 5)
    ensures WriteHeader(p, h, from, b, 9 - from, out) == None
    decreases 9 - from - b
  {
    hide ByteAt, HeaderByte;
    if from + b < 5 && HeaderSlot(p, h, from + b, b).Some? {
      var (at, v) := HeaderSlot(p, h, from + b, b).value;
      if at < |out| {
        DistanceUnderflows(p, h, from, b + 1, out[at := v]);
      }
    }
  }

  /**
   The rest of a header is written as it should be, whatever the output held,
   exactly if the loop resumes it at the start, or from the stream id on in the
   case of SETTINGS and PING.
   */
  lemma HeaderResumesExactly<P>(p: Payload<P>, h: FrameHeader, from: nat)
    requires from < 9 && (p.Settings? || p.Ping? ==> h.streamId == 0)
    ensures
      (forall out: Bytes | |out| >= 9 - from ::
         WriteHeader(p, h, from, 0, 9 - from, out) == Some(Spliced(out, 0, HeaderBytes(h)[from..])))
      <==> HeaderResumes(p, from)
  {
    hide HeaderBytes, WriteHeader, Spliced;
    var w := HeaderBytes(h)[from..];
    assert HeaderBytes(h)[from..from + (9 - from)] == w;
    if HeaderResumes(p, from) {
      forall out: Bytes | |out| >= 9 - from
        ensures WriteHeader(p, h, from, 0, 9 - from, out) == Some(Spliced(out, 0, w))
      {
        HeaderIsRight(p, h, from, 9 - from, out);
      }
    } else if p.RstStream? {
      var out: Bytes := seq(9, _ => 0);
      DistanceUnderflows(p, h, from, 0, out);
      assert WriteHeader(p, h, from, 0, 9 - from, out) != Some(Spliced(out, 0, w));
    } else {
      var slot := if from <= 3 then 3 - from else 0;
      var other: u8 := if w[slot] == 0 then 1 else 0;
      var out: Bytes := seq(9, _ => other);
      ByteIsMissed(p, h, from, 0, 9 - from, out);
      SplicedAt(out, w, slot);
      assert WriteHeader(p, h, from, 0, 9 - from, out) != Some(Spliced(out, 0, w));
    }
  }

  /** A PING header that is cut after two bytes goes on with a zero instead of its length. */
  lemma CutPingHeader(h: FrameHeader, out: Bytes)
    requires h.payloadLength == 8 && |out| == 1
    ensures HeaderBytes(h)[2] == 8 && WriteHeader<()>(Ping([0, 0, 0, 0, 0, 0, 0, 0]), h, 2, 0, 1, out) == Some([0])
  {
    assert out[0 := 0] == [0];
  }

  lemma SplicedAt(out: Bytes, w: Bytes, i: nat)
    requires i < |w| <= |out|
    ensures Spliced(out, 0, w)[i] == w[i]
  {
  }

  /** The payload of a WINDOW_UPDATE frame that was cut after `k` bytes is right only if nothing was written. */
  lemma IncrementResumesExactly(k: nat)
    requires k < 4
    ensures (forall v: u32 :: Be32(v)[..4 - k] == Be32(v)[k..]) <==> k == 0
  {
    var v := 0x0102_0304;
    assert Be32(v) == [1, 2, 3, 4];
    if k > 0 {
      assert Be32(v)[..4 - k][0] == 1 && Be32(v)[k..][0] == k as int + 1;
      assert Be32(v)[..4 - k] != Be32(v)[k..];
    } else {
      forall v: u32
        ensures Be32(v)[..4 - k] == Be32(v)[k..]
      {
        assert Be32(v)[..4] == Be32(v)[0..];
      }
    }
  }

  /** The count of a WINDOW_UPDATE payload has not run past its end. */
  predicate InOrder(e: Enc) {
    e.frame.Some? && e.frame.value.payload.WindowUpdate? && e.state == ControlBody ==> e.encodedBytes < 4
  }

  class FrameEncoder {
    var currentFrame: Option<Outgoing>
    var state: State
    var maxFrameSize: nat
    var encodedBytes: nat
    var dataOffset: nat
    var remainingPayload: nat
    var isEndHeaders: bool
    var headerPayload: Bytes
    var headerPayloadIndex: nat
    var hpackPieces: seq<Bytes>

    ghost function Model(): Enc
      reads this
    {
      Enc(currentFrame, state, encodedBytes, isEndHeaders,
          DataPart(maxFrameSize, dataOffset, remainingPayload),
          BlockPart(headerPayload, headerPayloadIndex, hpackPieces))
    }

    constructor (max: nat)
      ensures ValidEnc(Model()) && Pending(Model()) == [] && maxFrameSize == max
    {
      currentFrame, state, maxFrameSize, encodedBytes := None, Idle, max, 0;
      dataOffset, remainingPayload, isEndHeaders := 0, 0, false;
      headerPayload, headerPayloadIndex, hpackPieces := [], 0, [];
    }

    /**
     Accepts a frame; a HEADERS frame must have END_HEADERS. For PUSH_PROMISE the
     state stays as it is, so that nothing is sent if the last frame was sent.
     */
    method SetFrame(f: Outgoing) returns (ok: bool)
      requires ValidControl(f.payload) && (f.payload.Data? ==> maxFrameSize > 0)
      modifies this
      ensures ok == (f.payload.Headers? ==> EndHeaders(f.flags)) && maxFrameSize == old(maxFrameSize)
      ensures currentFrame == Some(f) && encodedBytes == 0
      ensures f.payload.PushPromise? ==> state == old(state)
      ensures ok && (f.payload.PushPromise? ==> Sent(old(Model()))) ==>
                ValidEnc(Model()) && !Lost(Model()) && InOrder(Model())
                && Pending(Model()) == WireBytes(FrameWires(f, maxFrameSize))
    {
      hide HeaderBytes, ControlPayload, DataWires, WireBytes;
      isEndHeaders := EndHeaders(f.flags);
      currentFrame := Some(f);
      encodedBytes := 0;
      if f.payload.Headers? {
        if !isEndHeaders {
          return false;
        }
        headerPayloadIndex := 0;
        headerPayload, hpackPieces := FirstPiece(f.payload.parts), RestPieces(f.payload.parts);
        state := HeadersFrame;
      } else if f.payload.Data? {
        dataOffset, remainingPayload := 0, |f.payload.data|;
        state := DataHeader;
      } else if f.payload.PushPromise? {
        NoWires();
        return true;
      } else {
        state := ControlHeader;
      }
      FreshPending(Model(), f);
      return true;
    }

    /** The header loops of HEADERS, CONTINUATION and DATA: bytes `from .. from + len` of the header. */
    method IterateHeader(h: FrameHeader, from: nat, buf: array<u8>, at: nat, len: nat)
      requires from + len <= 9 && at + len <= buf.Length
      modifies buf
      ensures buf[..] == Spliced(old(buf[..]), at, HeaderBytes(h)[from..from + len])
    {
      hide HeaderBytes, HeaderByte, Spliced;
      ghost var was, w := buf[..], HeaderBytes(h)[from..from + len];
      var i := 0;
      SpliceNone(was, at, w);
      while i < len
        invariant i <= len && buf[..] == Spliced(was, at, w[..i])
      {
        HeaderByteIs(h, from + i);
        SpliceOne(was, at, w, i);
        buf[at + i] := HeaderByte(h, from + i);
        i := i + 1;
      }
      SpliceAll(was, at, w);
    }

    /** The header loops of the control frames; `panics` if one of them leaves the buffer or underflows. */
    method IterateControlHeader(p: Payload<seq<Bytes>>, h: FrameHeader, from: nat, buf: array<u8>, at: nat, len: nat)
      returns (panics: bool)
      requires from + len <= 9 && at + len <= buf.Length
      modifies buf
      ensures
        var written := WriteHeader(p, h, from, 0, len, old(buf[at..]));
        && panics == written.None?
        && (!panics ==> buf[..] == old(buf[..at]) + written.value)
    {
      hide ByteAt, HeaderByte;
      ghost var was := buf[..];
      var b := 0;
      while b < len
        invariant b <= len && buf[..at] == was[..at]
        invariant WriteHeader(p, h, from, 0, len, was[at..]) == WriteHeader(p, h, from, b, len, buf[at..])
      {
        var slot := HeaderSlot(p, h, from + b, b);
        if slot.None? || slot.value.0 >= buf.Length - at {
          return true;
        }
        ghost var out := buf[at..];
        buf[at + slot.value.0] := slot.value.1;
        assert buf[at..] == out[slot.value.0 := slot.value.1];
        b := b + 1;
      }
      assert buf[..] == was[..at] + buf[at..];
      return false;
    }

    method IteratePayload(p: Payload<seq<Bytes>>, from: nat, buf: array<u8>, at: nat, len: nat)
      requires IsControl(p) && from + len <= |ControlPayload(p)| && at + len <= buf.Length
      modifies buf
      ensures buf[..] == Spliced(old(buf[..]), at, ControlPayload(p)[from..from + len])
    {
      hide ControlPayload, PayloadByte, Spliced;
      ghost var was, w := buf[..], ControlPayload(p)[from..from + len];
      var i := 0;
      SpliceNone(was, at, w);
      while i < len
        invariant i <= len && buf[..] == Spliced(was, at, w[..i])
      {
        PayloadByteIs(p, from + i);
        SpliceOne(was, at, w, i);
        buf[at + i] := PayloadByte(p, from + i);
        i := i + 1;
      }
      SpliceAll(was, at, w);
    }

    /** `write_payload`: as much of the piece, up to `limit`, as fits. */
    method WritePayload(buf: array<u8>, at: nat, limit: nat) returns (num: nat)
      requires at <= buf.Length && headerPayloadIndex <= limit <= |headerPayload|
      modifies this`headerPayloadIndex, buf
      ensures num == Min(buf.Length - at, limit - old(headerPayloadIndex))
      ensures headerPayloadIndex == old(headerPayloadIndex) + num
      ensures buf[..] == Spliced(old(buf[..]), at, headerPayload[old(headerPayloadIndex)..headerPayloadIndex])
    {
      num := Min(buf.Length - at, limit - headerPayloadIndex);
      CopySlice(headerPayload[headerPayloadIndex..headerPayloadIndex + num], buf, at);
      headerPayloadIndex := headerPayloadIndex + num;
    }

    /** `headers_header_status`: the rest of the piece, or the next piece, or the end. */
    method HeadersHeaderStatus()
      requires currentFrame.Some? && currentFrame.value.payload.Headers?
      requires ValidBlock(Model()) && headerPayloadIndex <= |headerPayload|
      modifies this
      ensures ValidEnc(Model()) && state in {HeadersPayload, HeadersComplete, ContinuationFrames}
      ensures state == HeadersPayload <==> old(headerPayloadIndex < |headerPayload|)
      ensures Pending(Model()) == old(BlockPending(Model().block, currentFrame.value, maxFrameSize))
      ensures maxFrameSize == old(maxFrameSize) && FrameKept(old(Model()), Model())
    {
      hide HeaderBytes, ControlPayload, WireBytes;
      if headerPayloadIndex < |headerPayload| {
        state := HeadersPayload;
      } else if hpackPieces == [] {
        NoWires();
        headerPayloadIndex, headerPayload, encodedBytes := 0, [], 0;
        currentFrame, isEndHeaders := None, false;
        state := HeadersComplete;
      } else {
        ghost var pieces := hpackPieces;
        headerPayloadIndex := 0;
        headerPayload, hpackPieces := hpackPieces[0], hpackPieces[1..];
        assert [headerPayload] + hpackPieces == pieces;
        state := ContinuationFrames;
      }
    }

    /** As much of the piece, up to `limit`, as fits, and the state that follows. */
    method EncodePiece(buf: array<u8>, at: nat, limit: nat) returns (num: nat)
      requires currentFrame.Some? && currentFrame.value.payload.Headers? && at <= buf.Length
      requires ValidBlock(Model()) && headerPayloadIndex <= limit <= |headerPayload|
      modifies this, buf
      ensures num == Min(buf.Length - at, limit - old(headerPayloadIndex))
      ensures buf[..] == Spliced(old(buf[..]), at, old(headerPayload[headerPayloadIndex..])[..num])
      ensures ValidEnc(Model()) && state in {HeadersPayload, HeadersComplete, ContinuationFrames}
      ensures state == HeadersPayload ==> at + num == buf.Length || limit < old(|headerPayload|)
      ensures old(BlockPending(Model().block, currentFrame.value, maxFrameSize))
           == old(headerPayload[headerPayloadIndex..])[..num] + Pending(Model())
      ensures maxFrameSize == old(maxFrameSize) && FrameKept(old(Model()), Model())
    {
      hide HeaderBytes, ControlPayload, BlockPending, DataPending, Pending, Spliced, IsControl;
      ghost var b, f := Model().block, currentFrame.value;
      num := WritePayload(buf, at, limit);
      encodedBytes := encodedBytes + num;
      BlockMoves(b, f, maxFrameSize, num);
      assert b.piece[b.index..][..num] == b.piece[b.index..b.index + num];
      HeadersHeaderStatus();
    }

    method EncodeHeadersFrame(buf: array<u8>, at: nat) returns (num: nat)
      requires ValidEnc(Model()) && state == HeadersFrame && at < buf.Length
      modifies this, buf
      ensures Emits(old(Model()), Model(), old(buf[..]), buf[..], at, num)
      ensures maxFrameSize == old(maxFrameSize) && num > 0
      ensures state in {HeadersFrame, HeadersPayload, HeadersComplete, ContinuationFrames}
      ensures state != HeadersFrame || at + num == buf.Length
    {
      hide HeaderBytes, ControlPayload, BlockPending, DataPending, Pending, Spliced, IsControl, Emits, HeadersHeader;
      ghost var e, was := Model(), buf[..];
      var f := currentFrame.value;
      var bytes := Min(9 - encodedBytes, buf.Length - at);
      var header := HeadersHeader(f.streamId, f.flags, headerPayload, hpackPieces != []);
      IterateHeader(header, encodedBytes, buf, at, bytes);
      ghost var w := HeaderBytes(header)[encodedBytes..encodedBytes + bytes];
      HeadersHeaderMoves(e, bytes);
      encodedBytes := encodedBytes + bytes;
      if encodedBytes >= 9 {
        var written := EncodePiece(buf, at + bytes, |headerPayload|);
        ghost var v := e.block.piece[0..][..written];
        SpliceMore(was, at, w, v);
        num := bytes + written;
        EmitsBytes(e, Model(), was, buf[..], at, w + v);
      } else {
        num := bytes;
        EmitsBytes(e, Model(), was, buf[..], at, w);
      }
    }

    method EncodeHeadersPayload(buf: array<u8>, at: nat) returns (num: nat)
      requires ValidEnc(Model()) && state == HeadersPayload && at < buf.Length
      modifies this, buf
      ensures Emits(old(Model()), Model(), old(buf[..]), buf[..], at, num)
      ensures maxFrameSize == old(maxFrameSize) && num > 0
      ensures state in {HeadersPayload, HeadersComplete, ContinuationFrames}
      ensures state != HeadersPayload || at + num == buf.Length
    {
      hide HeaderBytes, ControlPayload, BlockPending, DataPending, Pending, Spliced, IsControl, Emits;
      ghost var e, was := Model(), buf[..];
      PendingPayload(e);
      num := EncodePiece(buf, at, |headerPayload|);
      EmitsBytes(e, Model(), was, buf[..], at, e.block.piece[e.block.index..][..num]);
    }

    method EncodeContinuationFrames(buf: array<u8>, at: nat) returns (num: nat)
      requires ValidEnc(Model()) && state == ContinuationFrames && at < buf.Length
      modifies this, buf
      ensures Emits(old(Model()), Model(), old(buf[..]), buf[..], at, num)
      ensures state in {HeadersPayload, HeadersComplete, ContinuationFrames}
      ensures maxFrameSize == old(maxFrameSize) && (num > 0 <==> buf.Length - at >= 9)
      ensures num == 0 ==> state == ContinuationFrames
    {
      hide HeaderBytes, ControlPayload, BlockPending, DataPending, Pending, Spliced, IsControl, Emits;
      ghost var e, was := Model(), buf[..];
      if buf.Length - at < 9 {
        EmitsNone(e, was, at);
        return 0;
      }
      var f := currentFrame.value;
      var length := Min(|headerPayload|, maxFrameSize);
      var last := |headerPayload| <= maxFrameSize && hpackPieces == [] && isEndHeaders;
      var header := FrameHeader(f.streamId, if last then 4 else 0, CONTINUATION, length);
      ContinuationPending(e);
      IterateHeader(header, 0, buf, at, 9);
      ghost var w := HeaderBytes(header);
      assert w[0..0 + 9] == w;
      var written := EncodePiece(buf, at + 9, length);
      ghost var v := e.block.piece[0..][..written];
      SpliceMore(was, at, w, v);
      num := 9 + written;
      EmitsBytes(e, Model(), was, buf[..], at, w + v);
    }

    method EncodeDataHeader(buf: array<u8>, at: nat) returns (num: nat)
      requires ValidEnc(Model()) && state == DataHeader && at < buf.Length
      modifies this, buf
      ensures Emits(old(Model()), Model(), old(buf[..]), buf[..], at, num)
      ensures maxFrameSize == old(maxFrameSize) && num > 0
      ensures state == (if at + num < buf.Length || old(encodedBytes) + num == 9 then DataPayload else DataHeader)
    {
      hide HeaderBytes, ControlPayload, WireBytes, ContinuationWires, DataWires, DataPending, BlockPending, Pending, Spliced, Emits;
      ghost var e, was := Model(), buf[..];
      var f := currentFrame.value;
      num := Min(9 - encodedBytes, buf.Length - at);
      var flags := if remainingPayload <= maxFrameSize then f.flags else NoEndStream(f.flags);
      var header := FrameHeader(f.streamId, flags, DATA, Min(remainingPayload, maxFrameSize));
      IterateHeader(header, encodedBytes, buf, at, num);
      encodedBytes := encodedBytes + num;
      ghost var w := HeaderBytes(header)[e.encodedBytes..encodedBytes];
      DataHeaderMoves(e, num);
      if encodedBytes == 9 {
        encodedBytes := 0;
        state := DataPayload;
      }
      EmitsBytes(e, Model(), was, buf[..], at, w);
    }

    method EncodeDataPayload(buf: array<u8>, at: nat) returns (num: nat)
      requires ValidEnc(Model()) && state == DataPayload && at < buf.Length
      modifies this, buf
      ensures Emits(old(Model()), Model(), old(buf[..]), buf[..], at, num)
      ensures maxFrameSize == old(maxFrameSize)
      ensures num > 0 || state == DataComplete
      ensures state == DataComplete || state == DataHeader || (state == DataPayload && at + num == buf.Length)
    {
      hide HeaderBytes, WireBytes, ContinuationWires, DataWires, DataPending, BlockPending, Pending, Spliced, Emits, ControlPayload;
      ghost var e, was := Model(), buf[..];
      var f := currentFrame.value;
      num := Min(Min(maxFrameSize - dataOffset, remainingPayload), buf.Length - at);
      CopySlice(f.payload.data[dataOffset..dataOffset + num], buf, at);
      DataPayloadMoves(e, num);
      ghost var w := f.payload.data[dataOffset..dataOffset + num];
      dataOffset := dataOffset + num;
      remainingPayload := remainingPayload - num;
      if remainingPayload == 0 {
        dataOffset := 0;
        state := DataComplete;
      } else if dataOffset == maxFrameSize {
        dataOffset := 0;
        state := DataHeader;
      }
      assert Model() == PayloadAfter(e, num);
      EmitsBytes(e, Model(), was, buf[..], at, w);
    }

    /** The header of a frame that is sent whole. */
    method EncodeControlHeader(buf: array<u8>, at: nat) returns (panics: bool, num: nat)
      requires ValidEnc(Model()) && state == ControlHeader && at < buf.Length
      modifies this, buf
      ensures num == Min(9 - old(encodedBytes), buf.Length - at)
      ensures
        var f := old(currentFrame.value);
        var written := WriteHeader(f.payload, ControlWire(f).header, old(encodedBytes), 0, num, old(buf[at..]));
        panics == written.None? && (!panics ==> buf[..] == old(buf[..at]) + written.value)
      ensures panics ==> Model() == old(Model())
      ensures !panics ==> Model() == ControlAfter(old(Model()), old(currentFrame.value.payload), num) && ValidEnc(Model())
      ensures !Lost(old(Model())) ==> !panics && Emits(old(Model()), Model(), old(buf[..]), buf[..], at, num)
    {
      hide HeaderBytes, ControlPayload, DataPending, BlockPending, Pending, Spliced, Emits, ControlWire, WriteHeader;
      ghost var e, was := Model(), buf[..];
      var f := currentFrame.value;
      num := Min(9 - encodedBytes, buf.Length - at);
      ControlHeaderMoves(e, num);
      var header := ControlWire(f).header;
      panics := IterateControlHeader(f.payload, header, encodedBytes, buf, at, num);
      ghost var w := HeaderBytes(header)[encodedBytes..encodedBytes + num];
      if !Lost(e) {
        ControlStream(f);
        HeaderIsRight(f.payload, header, encodedBytes, num, was[at..]);
        SpliceBehind(was, at, w);
      }
      if panics {
        return;
      }
      encodedBytes := encodedBytes + num;
      if encodedBytes == 9 {
        encodedBytes := if f.payload.WindowUpdate? then 0 else 9;
        state := ControlBody;
      }
      if !Lost(e) {
        EmitsBytes(e, Model(), was, buf[..], at, w);
      }
    }

    /** As much of the payload, from `from` on, as fits. */
    method WriteBody(p: Payload<seq<Bytes>>, from: nat, buf: array<u8>, at: nat) returns (num: nat)
      requires IsControl(p) && at <= buf.Length
      modifies buf
      ensures num == BodyRoom(p, from, buf.Length - at)
      ensures buf[..] == Spliced(old(buf[..]), at, BodySlice(p, from, num))
    {
      hide ControlPayload, IsControl, Spliced;
      num := BodyRoom(p, from, buf.Length - at);
      if num > 0 {
        IteratePayload(p, from, buf, at, num);
      } else {
        SpliceNone(buf[..], at, []);
      }
    }

    /** The payload of a frame that is sent whole. */
    method EncodeControlBody(buf: array<u8>, at: nat) returns (num: nat)
      requires ValidEnc(Model()) && state == ControlBody && at < buf.Length
      modifies this, buf
      ensures
        var p := old(currentFrame.value.payload);
        var from := if old(encodedBytes) < 9 then 0 else old(encodedBytes) - 9;
        && num == BodyRoom(p, from, buf.Length - at)
        && buf[..] == Spliced(old(buf[..]), at, BodySlice(p, from, num))
        && Model() == BodyAfter(old(Model()), p, num)
      ensures ValidEnc(Model())
      ensures !Lost(old(Model())) ==>
                && Emits(old(Model()), Model(), old(buf[..]), buf[..], at, num)
                && (state == DataComplete || at + num == buf.Length) && InOrder(Model())
    {
      hide HeaderBytes, ControlPayload, DataPending, BlockPending, Pending, Spliced, Emits, BodySlice, BodyRoom;
      ghost var e, was := Model(), buf[..];
      var p := currentFrame.value.payload;
      var from := if encodedBytes < 9 then 0 else encodedBytes - 9;
      num := WriteBody(p, from, buf, at);
      encodedBytes := encodedBytes + num;
      if encodedBytes == (if p.WindowUpdate? then 4 else 9 + |ControlPayload(p)|) {
        state := DataComplete;
      }
      BodyMoves(e, from, buf.Length - at);
      if !Lost(e) {
        EmitsBytes(e, Model(), was, buf[..], at, BodySlice(p, from, num));
      }
    }

    /** One round of the loop in `encode`. */
    method EncodeState(buf: array<u8>, at: nat) returns (panics: bool, num: nat)
      requires ValidEnc(Model()) && !Sent(Model()) && at < buf.Length
      modifies this, buf
      ensures maxFrameSize == old(maxFrameSize) && (!panics ==> ValidEnc(Model()) && at + num <= buf.Length)
      ensures !panics ==> num > 0 || Sent(Model()) || state == old(state)
      ensures !Lost(old(Model())) ==>
                && !panics && Emits(old(Model()), Model(), old(buf[..]), buf[..], at, num)
                && (Lost(Model()) ==> at + num == buf.Length) && InOrder(Model())
                && (num > 0 || Sent(Model()) || (state == old(state) == ContinuationFrames && buf.Length - at < 9))
                && (state == old(state) ==> at + num == buf.Length || state == ContinuationFrames)
    {
      hide HeaderBytes, ControlPayload, BlockPending, DataPending, Pending, Spliced, ControlWire, IsControl, WriteHeader;
      panics := false;
      match state
      case HeadersFrame => num := EncodeHeadersFrame(buf, at);
      case HeadersPayload => num := EncodeHeadersPayload(buf, at);
      case ContinuationFrames => num := EncodeContinuationFrames(buf, at);
      case DataHeader => num := EncodeDataHeader(buf, at);
      case DataPayload => num := EncodeDataPayload(buf, at);
      case ControlHeader => panics, num := EncodeControlHeader(buf, at);
      case ControlBody => num := EncodeControlBody(buf, at);
    }

    /**
     Unless the code has lost its place: writes pending bytes into the buffer, in
     order, and the others stay pending. The buffer is filled unless the frame
     ends, or its next CONTINUATION is to follow.
     */
    method Encode(buf: array<u8>) returns (panics: bool, written: nat)
      requires ValidEnc(Model())
      modifies this, buf
      ensures maxFrameSize == old(maxFrameSize) && (!panics ==> ValidEnc(Model()) && written <= buf.Length)
      ensures !Lost(old(Model())) ==>
                && !panics && Emits(old(Model()), Model(), old(buf[..]), buf[..], 0, written)
                && (InOrder(old(Model())) ==> InOrder(Model()))
                && (written < buf.Length ==>
                      Sent(Model()) || (state == ContinuationFrames && (written > 0 || buf.Length < 9)))
    {
      hide HeaderBytes, ControlPayload, BlockPending, DataPending, Pending, Spliced, ControlWire, IsControl, ValidEnc;
      ghost var e, was := Model(), buf[..];
      panics, written := false, 0;
      EmitsNone(e, was, 0);
      while written < buf.Length
        invariant !panics && written <= buf.Length && ValidEnc(Model()) && maxFrameSize == e.data.max
        invariant !Lost(e) ==> Emits(e, Model(), was, buf[..], 0, written)
        invariant !Lost(e) && written < buf.Length ==> !Lost(Model())
        invariant !Lost(e) && InOrder(e) ==> InOrder(Model())
        decreases buf.Length - written, if Sent(Model()) then 0 else 1
      {
        if state == Idle || state == HeadersComplete || state == DataComplete {
          break;
        }
        var before := state;
        ghost var e1, b1 := Model(), buf[..];
        var bytes;
        panics, bytes := EncodeState(buf, written);
        if panics {
          return;
        }
        if !Lost(e) {
          EmitsOn(e, e1, Model(), was, b1, buf[..], written, bytes);
        }
        written := written + bytes;
        if state == before {
          break;
        }
      }
    }
  }

  lemma ControlStream<P>(f: Frame<P>)
    requires IsControl(f.payload)
    ensures f.payload.Settings? || f.payload.Ping? ==> ControlWire(f).header.streamId == 0
  {
    hide ControlPayload;
  }

  lemma SpliceBehind(was: Bytes, at: nat, w: Bytes)
    requires at + |w| <= |was|
    ensures was[..at] + Spliced(was[at..], 0, w) == Spliced(was, at, w)
  {
    assert was[at..][|w|..] == was[at + |w|..];
  }

  /** The code finds its place again when the bytes of a frame are cut at `position`. */
  predicate CutsWell<P>(p: Payload<P>, position: nat) {
    && (p.Settings? || p.Ping? ==> position == 0 || position >= 5)
    && (p.RstStream? ==> position == 0 || position >= 9)
    && (p.WindowUpdate? ==> position <= 9 || position >= 13)
  }

  // The code has lost its place exactly at those cuts.
  lemma LostExactly(e: Enc, f: Outgoing, position: nat)
    requires ValidEnc(e) && e.frame == Some(f) && IsControl(f.payload) && ValidControl(f.payload) && InOrder(e)
    requires position + |Pending(e)| == |WireBytes(FrameWires(f, e.data.max))|
    ensures Sent(e) || (Lost(e) <==> !CutsWell(f.payload, position))
  {
    hide HeaderBytes, ControlPayload;
    WireBytesFirst(FrameWires(f, e.data.max));
    NoWires();
    assert FrameWires(f, e.data.max)[1..] == [];
    if e.state == ControlBody {
      IncrementSize(e);
    }
  }

  /** Every cut that these buffers make is one of those. */
  predicate AllCutWell<P>(p: Payload<P>, capacities: seq<nat>) {
    forall i | 0 <= i <= |capacities| :: CutsWell(p, Sum(capacities[..i]))
  }

  /**
   Encodes a frame into buffers of these capacities. Together they hold its bytes,
   if it is cut well; DATA, HEADERS, GOAWAY and PRIORITY frames always are.
   Buffers of nine bytes or more make progress.
   */
  method Transmit(encoder: FrameEncoder, f: Outgoing, capacities: seq<nat>) returns (ok: bool, out: Bytes)
    requires ValidControl(f.payload) && (f.payload.Data? ==> encoder.maxFrameSize > 0)
    requires f.payload.PushPromise? ==> Sent(encoder.Model())
    modifies encoder
    ensures ok == (f.payload.Headers? ==> EndHeaders(f.flags)) && encoder.maxFrameSize == old(encoder.maxFrameSize)
    ensures
      var all := WireBytes(FrameWires(f, encoder.maxFrameSize));
      ok && AllCutWell(f.payload, capacities) ==>
        && ValidEnc(encoder.Model()) && out + Pending(encoder.Model()) == all
        && (|capacities| > |all| && (forall i | 0 <= i < |capacities| :: capacities[i] >= 9) ==>
              Sent(encoder.Model()) && out == all)
  {
    hide HeaderBytes, ControlPayload, Pending, FrameWires, WireBytes, EndHeaders, Spliced, CutsWell, Lost, InOrder;
    out := [];
    ok := encoder.SetFrame(f);
    if !ok {
      return;
    }
    ghost var all := Pending(encoder.Model());
    ghost var well, enough := AllCutWell(f.payload, capacities), forall k | 0 <= k < |capacities| :: capacities[k] >= 9;
    NothingSent(encoder.Model(), f, all);
    for i := 0 to |capacities|
      invariant ValidEnc(encoder.Model()) && encoder.maxFrameSize == old(encoder.maxFrameSize)
      invariant well ==> Sending(encoder.Model(), f, all, out, Sum(capacities[..i]))
      invariant well && enough ==> Sent(encoder.Model()) || |out| >= i
    {
      hide ValidEnc, Sent, IsControl, Sending, Emits;
      ghost var e := encoder.Model();
      if well {
        assert CutsWell(f.payload, Sum(capacities[..i]));
        NotLost(e, f, all, out, Sum(capacities[..i]));
      }
      var buf := new u8[capacities[i]];
      ghost var was := buf[..];
      var panics, n := encoder.Encode(buf);
      if panics {
        return;
      }
      if well {
        SendsOn(e, encoder.Model(), f, all, out, Sum(capacities[..i]), was, buf[..], n);
      }
      out := out + buf[..n];
      assert capacities[..i + 1] == capacities[..i] + [capacities[i]];
      SumLast(capacities[..i], capacities[i]);
    }
    SentIsDone(encoder.Model());
  }

  /** `out` was written to buffers of `sum` bytes in all, the rest of the frame is pending. */
  ghost predicate Sending(e: Enc, f: Outgoing, all: Bytes, out: Bytes, sum: nat) {
    && ValidEnc(e) && InOrder(e) && out + Pending(e) == all
    && (e.frame == Some(f) || (e.frame == None && !IsControl(f.payload)))
    && (IsControl(f.payload) ==> |out| == Min(sum, |all|))
  }

  lemma NothingSent(e: Enc, f: Outgoing, all: Bytes)
    requires ValidEnc(e) && InOrder(e) && Pending(e) == all && e.frame == Some(f)
    ensures Sending(e, f, all, [], Sum([]))
  {
    hide Pending, ValidEnc, IsControl;
    assert [] + all == all;
  }

  lemma SendsOn(e: Enc, e': Enc, f: Outgoing, all: Bytes, out: Bytes, sum: nat, was: Bytes, now: Bytes, n: nat)
    requires Sending(e, f, all, out, sum) && InOrder(e') && Emits(e, e', was, now, 0, n)
    requires n < |was| ==> Sent(e') || (e'.state == ContinuationFrames && (n > 0 || |was| < 9))
    ensures n <= |was| == |now| && Sending(e', f, all, out + now[..n], sum + |was|)
    ensures n > 0 || |was| < 9 || Sent(e')
    ensures Sent(e) ==> n == 0
  {
    hide Pending, ValidEnc, IsControl, Sent, Emits, InOrder;
    EmitsPrefix(e, e', was, now, n);
    SentIsDone(e);
    SentIsDone(e');
    KeepsControl(e, e', f, was, now, n);
    assert out + (now[..n] + Pending(e')) == out + now[..n] + Pending(e');
  }

  // Only the end of a header block clears the frame.
  lemma KeepsControl(e: Enc, e': Enc, f: Outgoing, was: Bytes, now: Bytes, n: nat)
    requires Emits(e, e', was, now, 0, n) && (e.frame == Some(f) || (e.frame == None && !IsControl(f.payload)))
    ensures e'.state == ContinuationFrames ==> !IsControl(f.payload)
    ensures e'.frame == Some(f) || (e'.frame == None && !IsControl(f.payload))
  {
    hide Pending, ControlPayload;
  }

  lemma NotLost(e: Enc, f: Outgoing, all: Bytes, out: Bytes, sum: nat)
    requires Sending(e, f, all, out, sum) && ValidControl(f.payload) && CutsWell(f.payload, sum)
    requires (f.payload.Data? ==> e.data.max > 0) && all == WireBytes(FrameWires(f, e.data.max))
    ensures !Lost(e)
  {
    hide HeaderBytes, ControlPayload, Pending, ValidEnc, FrameWires, WireBytes;
    if IsControl(f.payload) {
      LostExactly(e, f, |out|);
      ControlLength(f, e.data.max);
    }
  }

  lemma ControlLength(f: Outgoing, max: nat)
    requires IsControl(f.payload)
    ensures |WireBytes(FrameWires(f, max))| == 9 + |ControlPayload(f.payload)|
    ensures f.payload.WindowUpdate? ==> |ControlPayload(f.payload)| == 4
  {
    hide HeaderBytes;
    WireBytesFirst(FrameWires(f, max));
    NoWires();
    assert FrameWires(f, max)[1..] == [];
  }

  lemma SentIsDone(e: Enc)
    requires ValidEnc(e)
    ensures Sent(e) ==> Pending(e) == []
  {
  }

  lemma EmitsPrefix(e: Enc, e': Enc, was: Bytes, now: Bytes, n: nat)
    requires Emits(e, e', was, now, 0, n)
    ensures n <= |was| == |now| && ValidEnc(e) && ValidEnc(e')
    ensures Pending(e) == now[..n] + Pending(e')
    ensures FrameKept(e, e')
  {
    hide Pending, ValidEnc;
  }
}
