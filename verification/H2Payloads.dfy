/**
 What the decoder makes of payloads, stated on their parts: padding, priority
 fields, header blocks, settings, and the frames it refuses.
 */
module H2Payloads {
  import opened MachineWords
  import opened H2Frames
  import opened H2Decoder
  import opened H2Encoder
  import opened H2Transport

  //
  // Flags.
  //

  lemma AndStep(x: nat, y: nat)
    ensures BitAnd(x, y) == 2 * BitAnd(x / 2, y / 2) + (if x % 2 == 1 && y % 2 == 1 then 1 else 0)
  {
  }

  lemma {:induction false} AndOnes(x: nat, n: nat)
    requires x < Pow2(n)
    ensures BitAnd(x, Pow2(n) - 1) == x
  {
    if n > 0 {
      var half := Pow2(n - 1);
      assert Pow2(n) == 2 * half;
      AndStep(x, 2 * half - 1);
      AndOnes(x / 2, n - 1);
      hide BitAnd, Pow2;
      assert (2 * half - 1) / 2 == half - 1 && (2 * half - 1) % 2 == 1;
    }
  }

  lemma AndOne(x: nat)
    ensures BitAnd(x, 1) == x % 2
  {
    AndStep(x, 1);
  }

  lemma AndFour(x: nat)
    ensures BitAnd(x, 4) == 4 * (x / 4 % 2)
  {
    AndStep(x, 4);
    AndStep(x / 2, 2);
    AndOne(x / 4);
  }

  lemma AndEight(x: nat)
    ensures BitAnd(x, 8) == 8 * (x / 8 % 2)
  {
    AndStep(x, 8);
    AndFour(x / 2);
    assert x / 2 / 4 == x / 8;
  }

  lemma AndThirtyTwo(x: nat)
    ensures BitAnd(x, 32) == 32 * (x / 32 % 2)
  {
    AndStep(x, 32);
    AndStep(x / 2, 16);
    AndEight(x / 4);
    assert x / 4 / 8 == x / 32;
  }

  /** The flags are the bits 0x01, 0x04, 0x08 and 0x20. */
  lemma FlagMasks(flags: u8)
    ensures EndStream(flags) <==> BitAnd(flags, 0x01) == 0x01
    ensures Ack(flags) <==> BitAnd(flags, 0x01) == 0x01
    ensures EndHeaders(flags) <==> BitAnd(flags, 0x04) == 0x04
    ensures IsPadded(flags) <==> BitAnd(flags, 0x08) == 0x08
    ensures HasPriority(flags) <==> BitAnd(flags, 0x20) == 0x20
  {
    AndOne(flags);
    AndFour(flags);
    AndEight(flags);
    AndThirtyTwo(flags);
    hide BitAnd;
  }

  /** What the encoder clears, and that it keeps all other bits. */
  lemma ClearedFlags(flags: u8)
    ensures NoEndStream(flags) == BitAnd(flags, 0xFE)
    ensures NoEndHeaders(flags) == BitAnd(flags, 0xFB)
  {
    hide BitAnd, Pow2;
    AndLowBits(flags / 2, flags / 8);
    AndStep(flags, 0xFE);
    AndStep(flags, 0xFB);
    AndStep(flags / 2, 0x7D);
    AndStep(flags / 4, 0x3E);
    var a, b := flags / 2, flags / 4;
    assert a / 2 == b && b / 2 == flags / 8;
    assert BitAnd(flags, 0xFB) == 2 * (2 * (2 * (flags / 8)) + a % 2) + flags % 2;
  }

  lemma AndLowBits(x: nat, y: nat)
    requires x < 128 && y < 32
    ensures BitAnd(x, 0x7F) == x && BitAnd(y, 0x1F) == y
  {
    assert Pow2(7) == 128 && Pow2(5) == 32;
    AndOnes(x, 7);
    AndOnes(y, 5);
    hide BitAnd, Pow2;
  }

  //
  // Padding.
  //

  function Padded(content: Bytes, pad: Bytes): Bytes
    requires |pad| < 256
  {
    [|pad| as u8] + content + pad
  }

  lemma PaddedParts(content: Bytes, pad: Bytes)
    requires |pad| < 256
    ensures
      var p := Padded(content, pad);
      && |p| == 1 + |content| + |pad| && p[0] == |pad| && p[1..|p| - |pad|] == content
      && forall k | 0 <= k <= |content| :: p[1 + k..|p| - |pad|] == content[k..]
  {
    var p := Padded(content, pad);
    forall k | 0 <= k <= |content|
      ensures p[1 + k..|p| - |pad|] == content[k..]
    {
    }
  }

  /** Padding is taken off a DATA frame, and nothing else. */
  lemma PaddedData<H, P>(hp: Hpack<H, P>, c: Continuations, x: H, id: u32, flags: u8, data: Bytes, pad: Bytes)
    requires c.isEndHeaders && id != 0 && IsPadded(flags) && |pad| < 256
    ensures
      var p := Padded(data, pad);
      Accept(hp, c, x, Wire(FrameHeader(id, flags, DATA, |p|), p)) == Good(Complete(Frame(id, flags, Data(data))), c, x)
  {
    PaddedParts(data, pad);
    hide Padded, IsPadded;
  }

  /** Without padding the payload is the data. */
  lemma PlainData<H, P>(hp: Hpack<H, P>, c: Continuations, x: H, id: u32, flags: u8, data: Bytes)
    requires c.isEndHeaders && id != 0 && (!IsPadded(flags) || data == [])
    ensures Accept(hp, c, x, Wire(FrameHeader(id, flags, DATA, |data|), data)) == Good(Complete(Frame(id, flags, Data(data))), c, x)
  {
  }

  /** A DATA frame is refused exactly on stream 0, or if its padding does not fit. */
  lemma DataRefusedExactly<H, P>(hp: Hpack<H, P>, c: Continuations, x: H, w: Wire)
    requires c.isEndHeaders && w.header.frameType == DATA && w.header.payloadLength == |w.payload|
    ensures
      Accept(hp, c, x, w) == Bad(ConnectionError(ProtocolError))
      <==> w.header.streamId == 0 || (IsPadded(w.header.flags) && w.payload != [] && w.payload[0] >= |w.payload|)
    ensures Accept(hp, c, x, w).Good? || Accept(hp, c, x, w) == Bad(ConnectionError(ProtocolError))
  {
  }

  //
  // Header blocks.
  //

  function PriorityLength(flags: u8): nat {
    if HasPriority(flags) then 5 else 0
  }

  /** The payload of a HEADERS frame from its parts. */
  function HeadersPayload(flags: u8, prio: Bytes, block: Bytes, pad: Bytes): Bytes
    requires |pad| < 256
  {
    if IsPadded(flags) then Padded(prio + block, pad) else prio + block
  }

  /** What comes of a HEADERS frame once its block was fed. */
  function AfterBlock<H, P>(hp: Hpack<H, P>, id: u32, flags: u8, c: Continuations, fed: Fed<H>): Decoded<H, P> {
    match fed
    case FedErr(e) => Bad(e)
    case FedOk(x) =>
      if !EndHeaders(flags) then Good(Partial, Continuations(flags, EndStream(flags), id, false, c.promisedStreamId), x)
      else
        match hp.finish(x)
        case FinishedErr(e) => Bad(e)
        case FinishedOk(x', parts) => Good(Complete(Frame(id, flags, Headers(parts))), c, x')
  }

  /** A HEADERS frame feeds HPACK exactly its block: without padding, its length, and priority fields. */
  lemma BlockOfHeaders<H, P>(
    hp: Hpack<H, P>, c: Continuations, x: H, id: u32, flags: u8, prio: Bytes, block: Bytes, pad: Bytes)
    requires c.isEndHeaders && id != 0 && |prio| == PriorityLength(flags) && |pad| < 256
    ensures
      var p := HeadersPayload(flags, prio, block, pad);
      Accept(hp, c, x, Wire(FrameHeader(id, flags, HEADERS, |p|), p)) == AfterBlock(hp, id, flags, c, hp.feed(x, block))
  {
    var p := HeadersPayload(flags, prio, block, pad);
    var content := prio + block;
    assert content[|prio|..] == block;
    PaddedParts(content, pad);
    hide Padded, IsPadded, HasPriority;
    assert !IsPadded(flags) ==> p[|prio|..|p|] == block;
    assert IsPadded(flags) ==> p[1 + |prio|..|p| - |pad|] == block;
    FirstFrame(hp, c, x, Wire(FrameHeader(id, flags, HEADERS, |p|), p));
  }

  /** The fields before and behind the block do not fit into the payload. */
  predicate Misfits(flags: u8, p: Bytes) {
    if IsPadded(flags) then p == [] || 1 + PriorityLength(flags) + p[0] > |p|
    else PriorityLength(flags) > |p|
  }

  predicate ArePartsOf(flags: u8, p: Bytes, prio: Bytes, block: Bytes, pad: Bytes) {
    |prio| == PriorityLength(flags) && |pad| < 256 && p == HeadersPayload(flags, prio, block, pad)
  }

  ghost predicate HasParts(flags: u8, p: Bytes) {
    exists prio: Bytes, block: Bytes, pad: Bytes :: ArePartsOf(flags, p, prio, block, pad)
  }

  /** A payload has these parts exactly if they fit. */
  lemma PartsFitExactly(flags: u8, p: Bytes)
    ensures HasParts(flags, p) <==> !Misfits(flags, p)
  {
    if !Misfits(flags, p) {
      TakeApart(flags, p);
    } else {
      forall prio: Bytes, block: Bytes, pad: Bytes
        ensures !ArePartsOf(flags, p, prio, block, pad)
      {
        if |prio| == PriorityLength(flags) && |pad| < 256 {
          PartsFit(flags, prio, block, pad);
        }
      }
    }
  }

  lemma PartsFit(flags: u8, prio: Bytes, block: Bytes, pad: Bytes)
    requires |prio| == PriorityLength(flags) && |pad| < 256
    ensures !Misfits(flags, HeadersPayload(flags, prio, block, pad))
  {
    PaddedParts(prio + block, pad);
    hide Padded, IsPadded, HasPriority;
  }

  lemma TakeApart(flags: u8, p: Bytes)
    requires !Misfits(flags, p)
    ensures HasParts(flags, p)
  {
    hide IsPadded, HasPriority;
    var k := PriorityLength(flags);
    var n: nat := if IsPadded(flags) then p[0] else 0;
    var o := if IsPadded(flags) then 1 else 0;
    var prio, block, pad := p[o..o + k], p[o + k..|p| - n], p[|p| - n..];
    assert prio + block == p[o..|p| - n];
    assert IsPadded(flags) ==> p == [p[0]] + p[1..|p| - n] + pad;
    assert !IsPadded(flags) ==> p == p[0..|p|];
    assert ArePartsOf(flags, p, prio, block, pad);
  }

  /** Otherwise the frame is refused before HPACK sees it; a padded one without payload is read out of bounds. */
  lemma MisfitIsRefused<H, P>(hp: Hpack<H, P>, c: Continuations, x: H, id: u32, flags: u8, p: Bytes)
    requires c.isEndHeaders && id != 0 && Misfits(flags, p)
    ensures
      Accept(hp, c, x, Wire(FrameHeader(id, flags, HEADERS, |p|), p))
      == Bad(if p == [] && IsPadded(flags) then Panic else ConnectionError(ProtocolError))
  {
    hide IsPadded, HasPriority;
    FirstFrame(hp, c, x, Wire(FrameHeader(id, flags, HEADERS, |p|), p));
  }

  //
  // Pushed blocks.
  //

  /** The payload of a PUSH_PROMISE frame from its parts. */
  function PushPayload(flags: u8, promised: nat, block: Bytes, pad: Bytes): Bytes
    requires |pad| < 256
  {
    if IsPadded(flags) then Padded(Be32(promised) + block, pad) else Be32(promised) + block
  }

  /**
   A PUSH_PROMISE frame names its promised stream and, unlike HEADERS, feeds HPACK
   its whole payload.
   */
  lemma BlockOfPush<H, P>(
    hp: Hpack<H, P>, c: Continuations, x: H, id: u32, flags: u8, promised: u31, block: Bytes, pad: Bytes)
    requires c.isEndHeaders && id != 0 && |pad| < 256 && promised != 0
    ensures
      var p := PushPayload(flags, promised, block, pad);
      Accept(hp, c, x, Wire(FrameHeader(id, flags, PUSH_PROMISE, |p|), p)) ==
        match hp.feed(x, p)
        case FedErr(e) => Bad(e)
        case FedOk(x') =>
          if !EndHeaders(flags) then Good(Partial, Continuations(flags, c.isEndStream, id, false, promised), x')
          else
            match hp.finish(x')
            case FinishedErr(e) => Bad(e)
            case FinishedOk(x'', parts) => Good(Complete(Frame(id, flags, PushPromise(promised, parts))), c, x'')
  {
    var p := PushPayload(flags, promised, block, pad);
    var content := Be32(promised) + block;
    PaddedParts(content, pad);
    Be32RoundTrip(promised);
    hide Padded, IsPadded, Be32, U31;
    assert content[..4] == Be32(promised);
    if IsPadded(flags) {
      assert p[1..|p| - |pad|][..4] == p[1..5];
    }
  }

  /** A block that PUSH_PROMISE opened ends with the promise. */
  lemma PromisedBlock<H, P>(hp: Hpack<H, P>, c: Continuations, x: H, w: Wire)
    requires !c.isEndHeaders && ContinuesOn(w, c.streamId) && c.streamId != 0
    requires |w.payload| == w.header.payloadLength && EndHeaders(w.header.flags)
    requires hp.feed(x, w.payload).FedOk? && hp.finish(hp.feed(x, w.payload).hpack).FinishedOk?
    ensures
      var done := hp.finish(hp.feed(x, w.payload).hpack);
      var payload := if c.promisedStreamId == 0 then Headers(done.parts) else PushPromise(c.promisedStreamId, done.parts);
      Accept(hp, c, x, w) == Good(Complete(Frame(c.streamId, c.flags, payload)), NO_BLOCK, done.hpack)
  {
  }

  /** Promises that do not fit, or that name stream 0. */
  lemma PushRefused<H, P>(hp: Hpack<H, P>, c: Continuations, x: H, id: u32, flags: u8, p: Bytes)
    requires c.isEndHeaders && id != 0
    ensures
      var pad: nat := if IsPadded(flags) && p != [] then p[0] else 0;
      var at := if IsPadded(flags) then 1 else 0;
      var r := Accept(hp, c, x, Wire(FrameHeader(id, flags, PUSH_PROMISE, |p|), p));
      if p == [] && IsPadded(flags) then r == Bad(Panic)
      else if at + 4 + pad > |p| then r == Bad(ConnectionError(ProtocolError))
      else if hp.feed(x, p).FedOk? && p[at..at + 4] in {[0, 0, 0, 0], [128, 0, 0, 0]} then r == Bad(ConnectionError(ProtocolError))
      else hp.feed(x, p).FedOk? && (hp.finish(hp.feed(x, p).hpack).FinishedOk? || !EndHeaders(flags)) ==> r.Good?
  {
    var at := if IsPadded(flags) then 1 else 0;
    hide IsPadded, U31;
    if |p| >= at + 4 {
      hide U31;
      assert p[..4] == p[0..4];
      ZeroIncrement(p[at..at + 4]);
    }
  }

  /** No part of a block belongs on stream 0. */
  lemma BlockOnConnection<H, P>(hp: Hpack<H, P>, c: Continuations, x: H, w: Wire)
    requires c.isEndHeaders && w.header.streamId == 0 && |w.payload| == w.header.payloadLength
    requires w.header.frameType in {1, 5, 9}
    ensures Accept(hp, c, x, w) == Bad(ConnectionError(ProtocolError))
  {
  }

  //
  // SETTINGS.
  //

  function Entry(id: nat, value: nat): (t: Bytes)
    ensures |t| == 6
  {
    Be16(id) + Be32(value)
  }

  lemma EntryRead(id: nat, value: u32, rest: Bytes)
    requires id < 0x1_0000 && |rest| % 6 == 0
    ensures
      ParseSettings(Entry(id, value) + rest) ==
        match GetSetting(id, value)
        case Rejected(e) => SettingsErr(e)
        case Ignored => ParseSettings(rest)
        case Known(s) =>
          match ParseSettings(rest)
          case SettingsErr(e) => SettingsErr(e)
          case SettingsOk(more) => SettingsOk([s] + more)
  {
    hide GetSetting, U16, U32, Be16, Be32;
    var t := Entry(id, value) + rest;
    assert t[..2] == Be16(id) && t[2..6] == Be32(value) && t[6..] == rest;
    Be16RoundTrip(id);
    Be32RoundTrip(value);
  }

  /** Identifiers other than 1 to 6 may be inserted anywhere. */
  lemma {:induction false} UnknownSettingsAreSkipped(a: Bytes, id: nat, value: u32, b: Bytes)
    requires |a| % 6 == 0 && |b| % 6 == 0 && id < 0x1_0000 && !(1 <= id <= 6)
    ensures ParseSettings(a + Entry(id, value) + b) == ParseSettings(a + b)
    decreases a
  {
    var e := Entry(id, value);
    if a == [] {
      assert a + e + b == e + b && a + b == b;
      EntryRead(id, value, b);
    } else {
      var s, t := a + e + b, a + b;
      assert s[..2] == t[..2] == a[..2] && s[2..6] == t[2..6] == a[2..6];
      assert s[6..] == a[6..] + e + b && t[6..] == a[6..] + b;
      hide GetSetting, Entry;
      UnknownSettingsAreSkipped(a[6..], id, value, b);
    }
  }

  /** The code that a bad value gets: each of these and no other. */
  function BadValue(id: nat, value: u32): Option<ErrorCode> {
    if id == 2 && value >= 2 then Some(ProtocolError)
    else if id == 4 && value >= 0x8000_0000 then Some(FlowControlError)
    else if id == 5 && (value < 0x4000 || value >= 0x100_0000) then Some(ProtocolError)
    else None
  }

  /** A list of settings is refused with the code of its first bad value, and only for one. */
  lemma FirstBadValue(id: nat, value: u32, rest: Bytes)
    requires id < 0x1_0000 && |rest| % 6 == 0
    ensures
      match BadValue(id, value)
      case Some(code) => ParseSettings(Entry(id, value) + rest) == SettingsErr(ConnectionError(code))
      case None => ParseSettings(rest).SettingsOk? ==> ParseSettings(Entry(id, value) + rest).SettingsOk?
    ensures BadValue(id, value).None? && ParseSettings(rest).SettingsErr? ==>
              ParseSettings(Entry(id, value) + rest) == ParseSettings(rest)
  {
    EntryRead(id, value, rest);
    hide ParseSettings, Entry;
  }

  //
  // Refused frames.
  //

  /** A frame over the limit is refused as soon as its header is there. */
  lemma OversizedFrame<H, P>(hp: Hpack<H, P>, d: Dec<H>, h: FrameHeader, rest: Bytes)
    requires Valid(d) && d.stage == AtHeader && d.offset == 0
    requires h.payloadLength < 0x100_0000 && h.streamId < 0x8000_0000 && h.payloadLength > d.maxFrameSize
    ensures Run(hp, d, HeaderBytes(h) + rest) == Error(ConnectionError(FrameSizeError))
  {
    var all := HeaderBytes(h) + rest;
    HeaderRoundTrip(h);
    hide HeaderBytes, ParseHeader;
    assert d.buffer + all[..9] == HeaderBytes(h);
    assert HeaderStep<H, P>(d, all) == Fail(ConnectionError(FrameSizeError));
  }

  /** The reserved bit in front of a stream id is ignored. */
  lemma ReservedBit(id: u31)
    ensures U31(Be32(id)) == U31(Be32(id + 0x8000_0000)) == id
  {
    TopBit(id);
    Be32RoundTrip(id);
    hide Be32;
    assert Be32(id) == [Be32(id)[0]] + Be32(id)[1..];
  }

  /** Which stream and which lengths a control frame asks for, and the error it gets otherwise. */
  predicate OnConnection(t: u8) {
    t == 4 || t == 6 || t == 7
  }

  predicate OnStream(t: u8) {
    t == 2 || t == 3
  }

  predicate BadLength(t: u8, flags: u8, n: nat) {
    || (t == 2 && n != 5) || (t == 3 && n != 4) || (t == 6 && n != 8) || (t == 7 && n < 8) || (t == 8 && n != 4)
    || (t == 4 && (n % 6 != 0 || (BitAnd(flags, 1) == 1 && n > 0)))
  }

  lemma ControlErrors<H, P>(hp: Hpack<H, P>, c: Continuations, x: H, w: Wire)
    requires c.isEndHeaders && |w.payload| == w.header.payloadLength
    requires w.header.frameType >= 2 && w.header.frameType != 5 && w.header.frameType != 9
    ensures
      var h := w.header;
      var r := Accept(hp, c, x, w);
      if h.frameType > 9 || (OnConnection(h.frameType) && h.streamId != 0) || (OnStream(h.frameType) && h.streamId == 0) then
        r == Bad(ConnectionError(ProtocolError))
      else if BadLength(h.frameType, h.flags, |w.payload|) then
        r == Bad(if h.frameType == 2 then StreamError(h.streamId, FrameSizeError) else ConnectionError(FrameSizeError))
      else if h.frameType == 8 && w.payload in {[0, 0, 0, 0], [128, 0, 0, 0]} then
        r == Bad(StreamError(h.streamId, ProtocolError))
      else if h.frameType == 4 && BitAnd(h.flags, 1) == 0 && ParseSettings(w.payload).SettingsErr? then
        r == Bad(ParseSettings(w.payload).error)
      else r.Good?
  {
    FlagMasks(w.header.flags);
    AndOne(w.header.flags);
    hide BitAnd, ParseSettings;
    if w.header.frameType == 8 && |w.payload| == 4 {
      ZeroIncrement(w.payload);
      hide U31;
    }
  }

  lemma ZeroIncrement(t: Bytes)
    requires |t| == 4
    ensures U31(t) == 0 <==> t in {[0, 0, 0, 0], [128, 0, 0, 0]}
  {
    assert t == [t[0], t[1], t[2], t[3]];
  }

  //
  // Bytes on the wire.
  //

  function ControlBytes(f: Frame<()>): Bytes
    requires IsControl(f.payload)
  {
    HeaderBytes(ControlWire(f).header) + ControlWire(f).payload
  }

  /** Some frames in full: PING, acknowledged SETTINGS, WINDOW_UPDATE, PRIORITY, RST_STREAM and GOAWAY. */
  lemma PingOnWire()
    ensures ControlBytes(Frame(0, 1, Ping([1, 2, 3, 4, 5, 6, 7, 8]))) == [0, 0, 8, 6, 1, 0, 0, 0, 0, 1, 2, 3, 4, 5, 6, 7, 8]
  {
  }

  lemma SettingsOnWire()
    ensures ControlBytes(Frame(0, 1, Settings([]))) == [0, 0, 0, 4, 1, 0, 0, 0, 0]
  {
  }

  lemma WindowUpdateOnWire()
    ensures ControlBytes(Frame(0x0102_0304, 0, WindowUpdate(0x0506_0708))) == [0, 0, 4, 8, 0, 1, 2, 3, 4, 5, 6, 7, 8]
  {
  }

  lemma PriorityOnWire()
    ensures ControlBytes(Frame(7, 0, Priority(true, 3, 16))) == [0, 0, 5, 2, 0, 0, 0, 0, 7, 128, 0, 0, 3, 16]
  {
  }

  lemma RstStreamOnWire()
    ensures ControlBytes(Frame(5, 0, RstStream(8))) == [0, 0, 4, 3, 0, 0, 0, 0, 5, 0, 0, 0, 8]
  {
  }

  lemma GoawayOnWire()
    ensures ControlBytes(Frame(0, 0, Goaway(2, 9, [65]))) == [0, 0, 9, 7, 0, 0, 0, 0, 0, 0, 0, 0, 9, 0, 0, 0, 2, 65]
  {
  }

  /** DATA, and a block of two pieces in HEADERS and CONTINUATION. */
  lemma DataOnWire()
    ensures WireBytes(DataWires(1, 1, [65, 66], 16384, 2)) == [0, 0, 2, 0, 1, 0, 0, 0, 1, 65, 66]
  {
    var d := DataWires(1, 1, [65, 66], 16384, 2);
    assert [65, 66][..2] == [65, 66];
    assert d == [Wire(FrameHeader(1, 1, 0, 2), [65, 66])] && d[1..] == [];
  }

  lemma BlockOnWire()
    ensures HeaderWires(1, 5, [[130], [132]], 16384)
         == [Wire(FrameHeader(1, 1, 1, 1), [130]), Wire(FrameHeader(1, 4, 9, 1), [132])]
  {
    assert [[130], [132]][1..] == [[132]] && [[132]][1..] == [];
    var w := Wire(FrameHeader(1, 4, 9, 1), [132]);
    assert ContinuationWires(1, [[132]], 16384) == [w] + ContinuationWires(1, [], 16384) == [w];
  }
}
