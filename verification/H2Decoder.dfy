/**
 The HTTP/2 frame decoder, which may be handed its input in any pieces. HPACK
 is a parameter: a deterministic consumer of byte strings.
 */
module H2Decoder {
  import opened MachineWords
  import opened H2Frames

  //
  // HPACK as seen from the frame layer.
  //

  datatype Fed<H> = FedOk(hpack: H) | FedErr(error: H2Error)
  datatype Finished<H, P> = FinishedOk(hpack: H, parts: P) | FinishedErr(error: H2Error)

  /** `feed` is `HpackDecoder::decode`, `finish` is `HpackDecoder::finish`. */
  datatype Hpack<!H, !P> = Hpack(feed: (H, Bytes) -> Fed<H>, finish: H -> Finished<H, P>)

  /** What is kept of a HEADERS or PUSH_PROMISE frame until its header block ends. */
  datatype Continuations =
    Continuations(flags: u8, isEndStream: bool, streamId: u32, isEndHeaders: bool, promisedStreamId: u32)

  const NO_BLOCK := Continuations(0, false, 0, true, 0)

  //
  // One whole payload.
  //

  datatype Decoded<H, P> = Good(kind: FrameKind<P>, cont: Continuations, hpack: H) | Bad(error: H2Error)

  function DecodeData<H, P>(h: FrameHeader, c: Continuations, x: H, buf: Bytes): Decoded<H, P>
    requires |buf| == h.payloadLength
  {
    if h.streamId == 0 then Bad(ConnectionError(ProtocolError))
    else if h.payloadLength == 0 then Good(Complete(Frame(h.streamId, h.flags, Data([]))), c, x)
    else if IsPadded(h.flags) then
      var padding := buf[0];
      if h.payloadLength <= padding then Bad(ConnectionError(ProtocolError))
      else Good(Complete(Frame(h.streamId, h.flags, Data(buf[1..h.payloadLength - padding]))), c, x)
    else Good(Complete(Frame(h.streamId, h.flags, Data(buf))), c, x)
  }

  /** Where the header block fragment of a HEADERS or PUSH_PROMISE payload lies. */
  datatype Fragment = Fragment(start: nat, end: nat) | NoFragment(error: H2Error)

  function FragmentOf(h: FrameHeader, fixed: nat, buf: Bytes): (f: Fragment)
    requires |buf| == h.payloadLength
    ensures f.Fragment? ==> fixed <= f.start <= f.end <= |buf|
    ensures f.Fragment? && IsPadded(h.flags) ==> fixed + 1 == f.start
  {
    if IsPadded(h.flags) then
      if buf == [] then NoFragment(Panic)
      else if h.payloadLength <= buf[0] || 1 + fixed > h.payloadLength - buf[0] then NoFragment(ConnectionError(ProtocolError))
      else Fragment(1 + fixed, h.payloadLength - buf[0])
    else if fixed > h.payloadLength then NoFragment(ConnectionError(ProtocolError))
    else Fragment(fixed, h.payloadLength)
  }

  function DecodeHeaders<H, P>(hp: Hpack<H, P>, h: FrameHeader, c: Continuations, x: H, buf: Bytes): Decoded<H, P>
    requires |buf| == h.payloadLength
  {
    if h.streamId == 0 then Bad(ConnectionError(ProtocolError))
    else
      match FragmentOf(h, if HasPriority(h.flags) then 5 else 0, buf)
      case NoFragment(e) => Bad(e)
      case Fragment(start, end) =>
        match hp.feed(x, buf[start..end])
        case FedErr(e) => Bad(e)
        case FedOk(x') =>
          if EndHeaders(h.flags) then
            match hp.finish(x')
            case FinishedErr(e) => Bad(e)
            case FinishedOk(x'', parts) => Good(Complete(Frame(h.streamId, h.flags, Headers(parts))), c, x'')
          else
            Good(Partial, Continuations(h.flags, EndStream(h.flags), h.streamId, false, c.promisedStreamId), x')
  }

  /** The whole payload goes to HPACK, with padding and promised stream id. */
  function DecodePushPromise<H, P>(hp: Hpack<H, P>, h: FrameHeader, c: Continuations, x: H, buf: Bytes): Decoded<H, P>
    requires |buf| == h.payloadLength
  {
    if h.streamId == 0 then Bad(ConnectionError(ProtocolError))
    else
      match FragmentOf(h, 4, buf)
      case NoFragment(e) => Bad(e)
      case Fragment(start, end) =>
        match hp.feed(x, buf)
        case FedErr(e) => Bad(e)
        case FedOk(x') =>
          var promised := U31(buf[start - 4..start]);
          if promised == 0 then Bad(ConnectionError(ProtocolError))
          else if EndHeaders(h.flags) then
            match hp.finish(x')
            case FinishedErr(e) => Bad(e)
            case FinishedOk(x'', parts) => Good(Complete(Frame(h.streamId, h.flags, PushPromise(promised, parts))), c, x'')
          else
            Good(Partial, Continuations(h.flags, c.isEndStream, h.streamId, false, promised), x')
  }

  function DecodeContinuation<H, P>(hp: Hpack<H, P>, h: FrameHeader, c: Continuations, x: H, buf: Bytes): Decoded<H, P> {
    if h.streamId == 0 then Bad(ConnectionError(ProtocolError))
    else
      match hp.feed(x, buf)
      case FedErr(e) => Bad(e)
      case FedOk(x') =>
        if !EndHeaders(h.flags) then Good(Partial, c, x')
        else
          match hp.finish(x')
          case FinishedErr(e) => Bad(e)
          case FinishedOk(x'', parts) =>
            var payload := if c.promisedStreamId != 0 then PushPromise(c.promisedStreamId, parts) else Headers(parts);
            Good(Complete(Frame(c.streamId, c.flags, payload)), NO_BLOCK, x'')
  }

  /** The frames that carry no header block. */
  function DecodeControl(h: FrameHeader, buf: Bytes): Result<Payload<()>>
    requires |buf| == h.payloadLength
  {
    if h.frameType == PRIORITY then
      if h.streamId == 0 then Err(ConnectionError(ProtocolError))
      else if h.payloadLength != 5 then Err(StreamError(h.streamId, FrameSizeError))
      else Ok(Priority(buf[0] >= 128, U31(buf[..4]), buf[4]))
    else if h.frameType == RST_STREAM then
      if h.streamId == 0 then Err(ConnectionError(ProtocolError))
      else if h.payloadLength != 4 then Err(ConnectionError(FrameSizeError))
      else Ok(RstStream(U32(buf)))
    else if h.frameType == SETTINGS then
      if h.streamId != 0 then Err(ConnectionError(ProtocolError))
      else if h.payloadLength % 6 != 0 then Err(ConnectionError(FrameSizeError))
      else if Ack(h.flags) then
        if h.payloadLength != 0 then Err(ConnectionError(FrameSizeError)) else Ok(Settings([]))
      else
        match ParseSettings(buf)
        case SettingsErr(e) => Err(e)
        case SettingsOk(list) => Ok(Settings(list))
    else if h.frameType == PING then
      if h.streamId != 0 then Err(ConnectionError(ProtocolError))
      else if h.payloadLength != 8 then Err(ConnectionError(FrameSizeError))
      else Ok(Ping(buf))
    else if h.frameType == GOAWAY then
      if h.streamId != 0 then Err(ConnectionError(ProtocolError))
      else if h.payloadLength < 8 then Err(ConnectionError(FrameSizeError))
      else Ok(Goaway(U32(buf[4..8]), U31(buf[..4]), buf[8..]))
    else if h.frameType == WINDOW_UPDATE then
      if h.payloadLength != 4 then Err(ConnectionError(FrameSizeError))
      else if U31(buf) == 0 then Err(StreamError(h.streamId, ProtocolError))
      else Ok(WindowUpdate(U31(buf)))
    else Err(ConnectionError(ProtocolError))
  }

  datatype Result<+T> = Ok(value: T) | Err(error: H2Error)

  function WithoutParts<P>(p: Payload<()>): Payload<P>
    requires !p.Headers? && !p.PushPromise?
  {
    match p
    case Data(d) => Data(d)
    case Priority(e, d, w) => Priority(e, d, w)
    case RstStream(c) => RstStream(c)
    case Settings(l) => Settings(l)
    case Ping(o) => Ping(o)
    case Goaway(c, l, d) => Goaway(c, l, d)
    case WindowUpdate(i) => WindowUpdate(i)
  }

  /** A whole payload, dispatched on its type. */
  function DecodePayload<H, P>(hp: Hpack<H, P>, h: FrameHeader, c: Continuations, x: H, buf: Bytes): Decoded<H, P>
    requires |buf| == h.payloadLength
  {
    if h.frameType == DATA then DecodeData(h, c, x, buf)
    else if h.frameType == HEADERS then DecodeHeaders(hp, h, c, x, buf)
    else if h.frameType == PUSH_PROMISE then DecodePushPromise(hp, h, c, x, buf)
    else if h.frameType == CONTINUATION then DecodeContinuation(hp, h, c, x, buf)
    else
      match DecodeControl(h, buf)
      case Err(e) => Bad(e)
      case Ok(p) => Good(Complete(Frame(h.streamId, h.flags, WithoutParts(p))), c, x)
  }

  //
  // The decoder between calls, and its two stages.
  //

  datatype Stage = AtHeader | AtPayload

  datatype Dec<H> = Dec(
    buffer: Bytes,
    offset: nat,
    maxFrameSize: nat,
    stage: Stage,
    header: FrameHeader,
    cont: Continuations,
    hpack: H)

  predicate Valid<H>(d: Dec<H>) {
    && |d.buffer| == d.offset
    && (d.stage == AtHeader ==> d.offset < FRAME_HEADER_LENGTH)
    && (d.stage == AtPayload ==> d.offset == 0 || d.offset < d.header.payloadLength)
    && (d.cont.isEndHeaders ==> d.cont.promisedStreamId == 0)
  }

  /** One stage: more bytes are needed, or the stage is over, or the connection has failed. */
  datatype Step<H, P> =
    | More(d: Dec<H>)
    | Next(d: Dec<H>, rest: Bytes, kinds: seq<FrameKind<P>>)
    | Fail(error: H2Error)

  function Keep<H>(d: Dec<H>, buf: Bytes): Dec<H> {
    d.(buffer := d.buffer + buf, offset := d.offset + |buf|)
  }

  /** `decode_frame_header`, and the change of stage that follows it. */
  function HeaderStep<H, P>(d: Dec<H>, buf: Bytes): Step<H, P>
    requires Valid(d) && d.stage == AtHeader
  {
    var need := FRAME_HEADER_LENGTH - d.offset;
    if |buf| < need then More(Keep(d, buf))
    else
      var h := ParseHeader(d.buffer + buf[..need]);
      if h.payloadLength > d.maxFrameSize then Fail(ConnectionError(FrameSizeError))
      else Next(d.(buffer := [], offset := 0, header := h, stage := AtPayload), buf[need..], [])
  }

  /** Between HEADERS and the end of its block only CONTINUATION on the same stream may come. */
  predicate OutOfPlace(h: FrameHeader, c: Continuations) {
    !c.isEndHeaders && (h.streamId != c.streamId || h.frameType != CONTINUATION)
  }

  /** PRIORITY compares the length of the piece at hand, before it is joined to the buffer. */
  predicate PriorityRefused(h: FrameHeader, offset: nat) {
    h.frameType == PRIORITY && h.streamId != 0 && offset != 0
  }

  /** `decode_frame_payload`, and the change of stage that follows it. */
  function PayloadStep<H, P>(hp: Hpack<H, P>, d: Dec<H>, buf: Bytes): Step<H, P>
    requires Valid(d) && d.stage == AtPayload
  {
    if OutOfPlace(d.header, d.cont) then Fail(ConnectionError(ProtocolError))
    else
      var need := d.header.payloadLength - d.offset;
      if |buf| < need then More(Keep(d, buf))
      else if PriorityRefused(d.header, d.offset) then Fail(StreamError(d.header.streamId, FrameSizeError))
      else
        match DecodePayload(hp, d.header, d.cont, d.hpack, d.buffer + buf[..need])
        case Bad(e) => Fail(e)
        case Good(kind, c, x) => Next(Closed(d, c, x), buf[need..], [kind])
  }

  /** The decoder after a frame: nothing buffered, no header. */
  function Closed<H>(d: Dec<H>, c: Continuations, x: H): Dec<H> {
    d.(buffer := [], offset := 0, stage := AtHeader, header := FrameHeader(0, 0, 0, 0), cont := c, hpack := x)
  }

  function StageStep<H, P>(hp: Hpack<H, P>, d: Dec<H>, buf: Bytes): Step<H, P>
    requires Valid(d)
  {
    if d.stage == AtHeader then HeaderStep(d, buf) else PayloadStep(hp, d, buf)
  }

  lemma BlockKept<H, P>(hp: Hpack<H, P>, h: FrameHeader, c: Continuations, x: H, buf: Bytes)
    requires |buf| == h.payloadLength && (c.isEndHeaders ==> c.promisedStreamId == 0)
    ensures
      var r := DecodePayload(hp, h, c, x, buf);
      r.Good? ==> r.cont.isEndHeaders ==> r.cont.promisedStreamId == 0
  {
  }

  /** Every stage keeps the decoder valid; in particular `buffer.len() == offset`. */
  lemma StepKeepsValid<H, P>(hp: Hpack<H, P>, d: Dec<H>, buf: Bytes)
    requires Valid(d)
    ensures
      match StageStep(hp, d, buf)
      case More(d') => Valid(d') && d'.stage == d.stage
      case Next(d', rest, _) => Valid(d') && d'.stage != d.stage && Measure(d', rest) < Measure(d, buf)
      case Fail(_) => true
  {
    if d.stage == AtPayload && !OutOfPlace(d.header, d.cont) && |buf| >= d.header.payloadLength - d.offset {
      var need := d.header.payloadLength - d.offset;
      hide DecodePayload;
      BlockKept(hp, d.header, d.cont, d.hpack, d.buffer + buf[..need]);
    }
  }

  function Measure<H>(d: Dec<H>, buf: Bytes): nat {
    2 * |buf| + if d.stage == AtPayload then 1 else 0
  }

  /** One call of `decode`: the frames and the decoder afterwards, or the error. */
  datatype Outcome<H, P> = Frames(list: seq<FrameKind<P>>, d: Dec<H>) | Error(error: H2Error)

  function Run<H, P>(hp: Hpack<H, P>, d: Dec<H>, buf: Bytes): (o: Outcome<H, P>)
    requires Valid(d)
    ensures o.Frames? ==> Valid(o.d)
    decreases Measure(d, buf)
  {
    StepKeepsValid(hp, d, buf);
    match StageStep(hp, d, buf)
    case More(d') => Frames([], d')
    case Fail(e) => Error(e)
    case Next(d', rest, kinds) => Prefixed(kinds, Run(hp, d', rest))
  }

  function Prefixed<H, P>(kinds: seq<FrameKind<P>>, o: Outcome<H, P>): Outcome<H, P> {
    match o
    case Error(e) => Error(e)
    case Frames(list, d) => Frames(kinds + list, d)
  }

  //
  // Segmentation.
  //

  /** Two calls, the second on what the first left behind. */
  function Then<H, P>(hp: Hpack<H, P>, o: Outcome<H, P>, b: Bytes): Outcome<H, P>
    requires o.Frames? ==> Valid(o.d)
  {
    match o
    case Error(e) => Error(e)
    case Frames(list, d) => Prefixed(list, Run(hp, d, b))
  }

  /** The decoder stands inside a PRIORITY payload of the right length. */
  predicate InsidePriority<H>(d: Dec<H>) {
    && d.stage == AtPayload && d.offset != 0
    && d.header.frameType == PRIORITY && d.header.streamId != 0 && d.header.payloadLength == 5
  }

  // A stage that wanted more bytes goes on with them as if they had been there.
  lemma MoreGoesOn<H, P>(hp: Hpack<H, P>, d: Dec<H>, a: Bytes, b: Bytes)
    requires Valid(d) && StageStep(hp, d, a).More?
    requires InsidePriority(Keep(d, a)) && !InsidePriority(d) ==> d.offset + |a| + |b| < 5
    ensures Valid(Keep(d, a))
    ensures
      var s, t := StageStep(hp, d, a + b), StageStep(hp, Keep(d, a), b);
      s == t
  {
    hide ParseHeader, DecodePayload;
    StepKeepsValid(hp, d, a);
    var d' := Keep(d, a);
    var need := (if d.stage == AtHeader then FRAME_HEADER_LENGTH else d.header.payloadLength) - d.offset;
    assert d.buffer + (a + b) == d'.buffer + b;
    if |a + b| >= need {
      assert d.buffer + (a + b)[..need] == d'.buffer + b[..need - |a|];
      assert (a + b)[need..] == b[need - |a|..];
      if d.stage == AtPayload && PriorityRefused(d'.header, d'.offset) && !PriorityRefused(d.header, d.offset) {
        WrongSizePriority(hp, d.header, d.cont, d.hpack, d.buffer + (a + b)[..need]);
      }
    }
  }

  lemma WrongSizePriority<H, P>(hp: Hpack<H, P>, h: FrameHeader, c: Continuations, x: H, buf: Bytes)
    requires |buf| == h.payloadLength != 5 && h.frameType == PRIORITY && h.streamId != 0
    ensures DecodePayload(hp, h, c, x, buf) == Bad(StreamError(h.streamId, FrameSizeError))
  {
  }

  // A stage that ended does not look at the bytes after its end.
  lemma NextGoesOn<H, P>(hp: Hpack<H, P>, d: Dec<H>, a: Bytes, b: Bytes)
    requires Valid(d) && !StageStep(hp, d, a).More?
    ensures
      match StageStep(hp, d, a)
      case Fail(e) => StageStep(hp, d, a + b) == Fail(e)
      case Next(d', rest, kinds) => StageStep(hp, d, a + b) == Next(d', rest + b, kinds)
      case More(_) => true
  {
    hide ParseHeader, DecodePayload;
    var need := (if d.stage == AtHeader then FRAME_HEADER_LENGTH else d.header.payloadLength) - d.offset;
    if need <= |a| {
      assert (a + b)[..need] == a[..need];
      assert (a + b)[need..] == a[need..] + b;
    }
  }

  lemma PrefixedTwice<H, P>(k: seq<FrameKind<P>>, l: seq<FrameKind<P>>, o: Outcome<H, P>)
    ensures Prefixed(k, Prefixed(l, o)) == Prefixed(k + l, o)
  {
    if o.Frames? { assert k + (l + o.list) == k + l + o.list; }
  }

  lemma PrefixedNone<H, P>(o: Outcome<H, P>)
    ensures Prefixed([], o) == o
  {
    if o.Frames? { assert [] + o.list == o.list; }
  }

  /**
   Input cut in two gives the frames, the decoder and the error that the whole
   gives, unless the cut falls inside a PRIORITY payload which the second part
   completes.
   */
  lemma {:induction false} CutInTwo<H, P>(hp: Hpack<H, P>, d: Dec<H>, a: Bytes, b: Bytes)
    requires Valid(d) && !InsidePriority(d)
    requires
      var o := Run(hp, d, a);
      o.Frames? && InsidePriority(o.d) ==> o.d.offset + |b| < 5
    ensures Run(hp, d, a + b) == Then(hp, Run(hp, d, a), b)
    decreases Measure(d, a)
  {
    hide StageStep, Prefixed;
    StepKeepsValid(hp, d, a);
    StepKeepsValid(hp, d, a + b);
    match StageStep(hp, d, a)
    case More(d') =>
      MoreIsKept(hp, d, a);
      MoreGoesOn(hp, d, a, b);
      PrefixedNone(Run(hp, d', b));
    case Fail(e) =>
      NextGoesOn(hp, d, a, b);
    case Next(d', rest, kinds) =>
      NextGoesOn(hp, d, a, b);
      FreshStage(hp, d, a);
      RunShape(hp, d', rest, kinds);
      CutInTwo(hp, d', rest, b);
      var o := Run(hp, d', rest);
      if o.Frames? {
        PrefixedTwice(kinds, o.list, Run(hp, o.d, b));
      }
  }

  lemma MoreIsKept<H, P>(hp: Hpack<H, P>, d: Dec<H>, a: Bytes)
    requires Valid(d) && StageStep(hp, d, a).More?
    ensures StageStep(hp, d, a).d == Keep(d, a)
  {
    hide DecodePayload;
  }

  lemma FreshStage<H, P>(hp: Hpack<H, P>, d: Dec<H>, a: Bytes)
    requires Valid(d) && StageStep(hp, d, a).Next?
    ensures StageStep(hp, d, a).d.offset == 0
  {
    hide DecodePayload;
  }

  lemma RunShape<H, P>(hp: Hpack<H, P>, d: Dec<H>, buf: Bytes, kinds: seq<FrameKind<P>>)
    requires Valid(d)
    ensures
      match Run(hp, d, buf)
      case Error(e) => Prefixed(kinds, Run(hp, d, buf)) == Error(e)
      case Frames(list, d') => Prefixed(kinds, Run(hp, d, buf)) == Frames(kinds + list, d')
  {
  }

  /** Where `decode` leaves off: at a payload only if bytes of it are missing. */
  predicate Settled<H>(d: Dec<H>) {
    Valid(d) && (d.stage == AtPayload ==> d.offset < d.header.payloadLength && !OutOfPlace(d.header, d.cont))
  }

  lemma {:induction false} RunSettles<H, P>(hp: Hpack<H, P>, d: Dec<H>, buf: Bytes)
    requires Valid(d)
    ensures Run(hp, d, buf).Frames? ==> Settled(Run(hp, d, buf).d)
    decreases Measure(d, buf)
  {
    hide DecodePayload;
    StepKeepsValid(hp, d, buf);
    match StageStep(hp, d, buf)
    case Next(d', rest, kinds) => RunSettles(hp, d', rest);
    case _ =>
  }

  lemma NothingToDo<H, P>(hp: Hpack<H, P>, d: Dec<H>)
    requires Settled(d)
    ensures Run(hp, d, []) == Frames([], d)
  {
    assert d.buffer + [] == d.buffer;
    assert StageStep(hp, d, []) == More(d);
  }

  /** A caller that hands over segment after segment and stops at the first error. */
  function RunSegments<H, P>(hp: Hpack<H, P>, d: Dec<H>, segments: seq<Bytes>): Outcome<H, P>
    requires Valid(d)
    decreases segments
  {
    if segments == [] then Frames([], d)
    else
      match Run(hp, d, segments[0])
      case Error(e) => Error(e)
      case Frames(list, d') => Prefixed(list, RunSegments(hp, d', segments[1..]))
  }

  /** No segment ends inside a PRIORITY payload. */
  predicate SparesPriority<H, P>(hp: Hpack<H, P>, d: Dec<H>, segments: seq<Bytes>)
    requires Valid(d)
    decreases segments
  {
    segments != [] ==>
      match Run(hp, d, segments[0])
      case Error(_) => true
      case Frames(_, d') => !InsidePriority(d') && SparesPriority(hp, d', segments[1..])
  }

  /** Decoding does not depend on how the input is cut into segments. */
  lemma {:induction false} SegmentsDoNotMatter<H, P>(hp: Hpack<H, P>, d: Dec<H>, segments: seq<Bytes>)
    requires Settled(d) && !InsidePriority(d) && SparesPriority(hp, d, segments)
    ensures RunSegments(hp, d, segments) == Run(hp, d, Concat(segments))
    decreases segments
  {
    hide Run, InsidePriority;
    if segments == [] {
      NothingToDo(hp, d);
    } else {
      var a, b := segments[0], Concat(segments[1..]);
      CutInTwo(hp, d, a, b);
      RunSettles(hp, d, a);
      var o := Run(hp, d, a);
      if o.Frames? {
        SegmentsDoNotMatter(hp, o.d, segments[1..]);
      }
    }
  }

  function PriorityFrame<P>(h: FrameHeader, buf: Bytes): FrameKind<P>
    requires |buf| == 5
  {
    Complete(Frame(h.streamId, h.flags, Priority(buf[0] >= 128, U31(buf[..4]), buf[4])))
  }

  /**
   The excluded case, exactly: the second part completes a PRIORITY payload that
   the first has begun. In one piece the frame is delivered and decoding goes on;
   in two pieces it is refused with a stream FRAME_SIZE_ERROR.
   */
  lemma {:induction false} CutInsidePriority<H, P>(hp: Hpack<H, P>, d: Dec<H>, a: Bytes, b: Bytes)
    requires Valid(d) && !InsidePriority(d)
    requires Run(hp, d, a).Frames?
    requires InsidePriority(Run(hp, d, a).d) && Run(hp, d, a).d.offset + |b| >= 5
    ensures
      var Frames(list, d1) := Run(hp, d, a);
      var need := 5 - d1.offset;
      && Then(hp, Run(hp, d, a), b) == Error(StreamError(d1.header.streamId, FrameSizeError))
      && Run(hp, d, a + b)
         == Prefixed(list + [PriorityFrame(d1.header, d1.buffer + b[..need])],
                     Run(hp, Closed(d1, d1.cont, d1.hpack), b[need..]))
    decreases Measure(d, a)
  {
    hide StageStep, PriorityFrame;
    StepKeepsValid(hp, d, a);
    StepKeepsValid(hp, d, a + b);
    match StageStep(hp, d, a)
    case More(d') =>
      MoreIsKept(hp, d, a);
      CompletesPriority(hp, d, a, b);
      var f := [PriorityFrame<P>(d'.header, d'.buffer + b[..5 - d'.offset])];
      assert [] + f == f;
    case Next(d', rest, kinds) =>
      NextGoesOn(hp, d, a, b);
      FreshStage(hp, d, a);
      FreshIsOutside(d');
      RunShape(hp, d', rest, kinds);
      CutInsidePriority(hp, d', rest, b);
      var o := Run(hp, d', rest);
      GoOnInsidePriority(hp, kinds, o, b);
  }

  lemma FreshIsOutside<H>(d: Dec<H>)
    requires d.offset == 0
    ensures !InsidePriority(d)
  {
  }

  lemma GoOnInsidePriority<H, P>(hp: Hpack<H, P>, kinds: seq<FrameKind<P>>, o: Outcome<H, P>, b: Bytes)
    requires o.Frames? && Valid(o.d) && InsidePriority(o.d) && o.d.offset + |b| >= 5
    ensures Valid(Closed(o.d, o.d.cont, o.d.hpack))
    ensures
      var need := 5 - o.d.offset;
      var f := [PriorityFrame(o.d.header, o.d.buffer + b[..need])];
      var after := Run(hp, Closed(o.d, o.d.cont, o.d.hpack), b[need..]);
      Prefixed(kinds, Prefixed(o.list + f, after)) == Prefixed(kinds + o.list + f, after)
  {
    hide Run, PriorityFrame;
    var need := 5 - o.d.offset;
    var f := [PriorityFrame<P>(o.d.header, o.d.buffer + b[..need])];
    PrefixedTwice(kinds, o.list + f, Run(hp, Closed(o.d, o.d.cont, o.d.hpack), b[need..]));
    assert kinds + (o.list + f) == kinds + o.list + f;
  }

  lemma CompletesPriority<H, P>(hp: Hpack<H, P>, d: Dec<H>, a: Bytes, b: Bytes)
    requires Valid(d) && !InsidePriority(d) && StageStep(hp, d, a) == More(Keep(d, a))
    requires InsidePriority(Keep(d, a)) && |a| + |b| >= 5
    ensures
      var need := 5 - |a|;
      && Run(hp, Keep(d, a), b) == Error(StreamError(d.header.streamId, FrameSizeError))
      && Run(hp, d, a + b)
         == Prefixed([PriorityFrame(d.header, a + b[..need])], Run(hp, Closed(d, d.cont, d.hpack), b[need..]))
      && Keep(d, a).buffer == a
  {
    var need := 5 - |a|;
    assert d.buffer == [] && d.offset == 0;
    assert d.buffer + (a + b)[..5] == a + b[..need];
    assert (a + b)[5..] == b[need..];
    assert PayloadStep(hp, Keep(d, a), b) == Fail(StreamError(d.header.streamId, FrameSizeError));
    assert PayloadStep(hp, d, a + b)
        == Next(Closed(d, d.cont, d.hpack), b[need..], [PriorityFrame(d.header, a + b[..need])]);
  }

  //
  // Whole frames.
  //

  /** A frame on the wire. */
  datatype Wire = Wire(header: FrameHeader, payload: Bytes)

  predicate WellFormed(w: Wire, maxFrameSize: nat) {
    && w.header.payloadLength == |w.payload| <= maxFrameSize
    && w.header.payloadLength < 0x100_0000 && w.header.streamId < 0x8000_0000
  }

  function WireBytes(ws: seq<Wire>): Bytes {
    if ws == [] then [] else HeaderBytes(ws[0].header) + ws[0].payload + WireBytes(ws[1..])
  }

  /** One frame after another, with no bytes in between. */
  function Accept<H, P>(hp: Hpack<H, P>, c: Continuations, x: H, w: Wire): Decoded<H, P>
    requires |w.payload| == w.header.payloadLength
  {
    if OutOfPlace(w.header, c) then Bad(ConnectionError(ProtocolError))
    else DecodePayload(hp, w.header, c, x, w.payload)
  }

  datatype Processed<H, P> = Processed(kinds: seq<FrameKind<P>>, cont: Continuations, hpack: H) | Refused(error: H2Error)

  function Process<H, P>(hp: Hpack<H, P>, c: Continuations, x: H, ws: seq<Wire>): (r: Processed<H, P>)
    requires forall i | 0 <= i < |ws| :: |ws[i].payload| == ws[i].header.payloadLength
    ensures r.Processed? ==> |r.kinds| == |ws|
    decreases ws
  {
    if ws == [] then Processed([], c, x)
    else
      match Accept(hp, c, x, ws[0])
      case Bad(e) => Refused(e)
      case Good(kind, c', x') =>
        match Process(hp, c', x', ws[1..])
        case Refused(e) => Refused(e)
        case Processed(kinds, c'', x'') => Processed([kind] + kinds, c'', x'')
  }

  lemma OneFrame<H, P>(hp: Hpack<H, P>, d: Dec<H>, w: Wire, rest: Bytes)
    requires Valid(d) && d.stage == AtHeader && d.offset == 0 && WellFormed(w, d.maxFrameSize)
    ensures
      var r := Accept(hp, d.cont, d.hpack, w);
      var all := HeaderBytes(w.header) + w.payload + rest;
      if r.Bad? then Run(hp, d, all) == Error(r.error)
      else
        && Valid(Closed(d, r.cont, r.hpack))
        && Run(hp, d, all) == Prefixed([r.kind], Run(hp, Closed(d, r.cont, r.hpack), rest))
  {
    hide ParseHeader, HeaderBytes, DecodePayload;
    var all := HeaderBytes(w.header) + w.payload + rest;
    HeaderRoundTrip(w.header);
    assert d.buffer + all[..9] == HeaderBytes(w.header);
    assert all[9..] == w.payload + rest;
    var d1 := d.(header := w.header, stage := AtPayload);
    assert HeaderStep<H, P>(d, all) == Next(d1, w.payload + rest, []);
    StepKeepsValid(hp, d, all);
    StepKeepsValid(hp, d1, w.payload + rest);
    assert d1.buffer + (w.payload + rest)[..|w.payload|] == w.payload;
    assert (w.payload + rest)[|w.payload|..] == rest;
    PrefixedNone(Run(hp, d1, w.payload + rest));
    if Accept(hp, d.cont, d.hpack, w).Good? {
      var Good(kind, c, x) := Accept(hp, d.cont, d.hpack, w);
      assert PayloadStep(hp, d1, w.payload + rest) == Next(Closed(d, c, x), rest, [kind]);
    }
  }

  /** On whole frames the decoder does exactly what processing them one by one does. */
  lemma {:induction false} WholeFrames<H, P>(hp: Hpack<H, P>, d: Dec<H>, ws: seq<Wire>)
    requires Valid(d) && d.stage == AtHeader && d.offset == 0
    requires forall i | 0 <= i < |ws| :: WellFormed(ws[i], d.maxFrameSize)
    requires Sized(ws)
    ensures
      var r := Process(hp, d.cont, d.hpack, ws);
      if r.Refused? then Run(hp, d, WireBytes(ws)) == Error(r.error)
      else Run(hp, d, WireBytes(ws)) == Frames(r.kinds, if ws == [] then d else Closed(d, r.cont, r.hpack))
    decreases ws
  {
    hide Run, Accept, HeaderBytes;
    if ws == [] {
      NothingToDo(hp, d);
    } else {
      OneFrame(hp, d, ws[0], WireBytes(ws[1..]));
      match Accept(hp, d.cont, d.hpack, ws[0])
      case Bad(e) =>
      case Good(kind, c, x) => WholeFrames(hp, Closed(d, c, x), ws[1..]);
    }
  }

  //
  // Cuts on the wire.
  //

  /** Position `k` lies strictly inside a PRIORITY payload of five bytes. */
  predicate CutsPriority(ws: seq<Wire>, k: nat)
    decreases ws
  {
    ws != [] &&
    var n := FRAME_HEADER_LENGTH + |ws[0].payload|;
    if k < n then ws[0].header.frameType == PRIORITY && |ws[0].payload| == 5 && k > FRAME_HEADER_LENGTH
    else CutsPriority(ws[1..], k - n)
  }

  predicate AllWellFormed(ws: seq<Wire>, maxFrameSize: nat) {
    forall i | 0 <= i < |ws| :: WellFormed(ws[i], maxFrameSize)
  }

  // A frame of which only the first `k` bytes are there.
  lemma PartOfFrame<H, P>(hp: Hpack<H, P>, d: Dec<H>, w: Wire, k: nat)
    requires Valid(d) && d.stage == AtHeader && d.offset == 0 && WellFormed(w, d.maxFrameSize)
    requires k < FRAME_HEADER_LENGTH + |w.payload|
    ensures
      var o := Run(hp, d, (HeaderBytes(w.header) + w.payload)[..k]);
      if k < FRAME_HEADER_LENGTH then o.Frames? && o.d.stage == AtHeader
      else if OutOfPlace(w.header, d.cont) then o.Error?
      else o == Frames([], d.(header := w.header, stage := AtPayload, buffer := w.payload[..k - 9], offset := k - 9))
  {
    hide ParseHeader, HeaderBytes, DecodePayload;
    var all := (HeaderBytes(w.header) + w.payload)[..k];
    if k >= FRAME_HEADER_LENGTH {
      HeaderRoundTrip(w.header);
      var rest := w.payload[..k - 9];
      assert d.buffer + all[..9] == HeaderBytes(w.header) && all[9..] == rest;
      var d1 := d.(header := w.header, stage := AtPayload);
      assert HeaderStep<H, P>(d, all) == Next(d1, rest, []);
      StepKeepsValid(hp, d, all);
      PrefixedNone(Run(hp, d1, rest));
      assert d1.buffer + rest == rest;
    }
  }

  /** The decoder stands inside a PRIORITY payload only where the input was cut inside one. */
  lemma {:induction false} InsideMeansCut<H, P>(hp: Hpack<H, P>, d: Dec<H>, ws: seq<Wire>, k: nat)
    requires Valid(d) && d.stage == AtHeader && d.offset == 0 && AllWellFormed(ws, d.maxFrameSize)
    requires k <= |WireBytes(ws)|
    ensures
      var o := Run(hp, d, WireBytes(ws)[..k]);
      o.Frames? && InsidePriority(o.d) ==> CutsPriority(ws, k)
    decreases ws
  {
    hide Run, Accept, HeaderBytes;
    if ws == [] {
      NothingToDo(hp, d);
      assert WireBytes(ws)[..k] == [];
    } else {
      var w := ws[0];
      var frame := HeaderBytes(w.header) + w.payload;
      assert WireBytes(ws) == frame + WireBytes(ws[1..]);
      if k < |frame| {
        assert WireBytes(ws)[..k] == frame[..k];
        PartOfFrame(hp, d, w, k);
      } else {
        var rest := WireBytes(ws[1..])[..k - |frame|];
        assert WireBytes(ws)[..k] == frame + rest;
        OneFrame(hp, d, w, rest);
        var r := Accept(hp, d.cont, d.hpack, w);
        if r.Good? {
          InsideMeansCut(hp, Closed(d, r.cont, r.hpack), ws[1..], k - |frame|);
        }
      }
    }
  }

  // No segment ends inside a PRIORITY payload if no prefix of their bytes does.
  lemma {:induction false} SparesOutside<H, P>(hp: Hpack<H, P>, d: Dec<H>, segments: seq<Bytes>)
    requires Valid(d) && !InsidePriority(d)
    requires forall m | 0 <= m <= |segments| ::
               var o := Run(hp, d, Concat(segments[..m]));
               o.Frames? ==> !InsidePriority(o.d)
    ensures SparesPriority(hp, d, segments)
    decreases |segments|
  {
    hide Run, InsidePriority;
    if segments != [] {
      var a, rest := segments[0], segments[1..];
      assert Concat(segments[..1]) == a by {
        assert segments[..1][0] == a && segments[..1][1..] == [];
        assert a + [] == a;
      }
      var o := Run(hp, d, a);
      if o.Frames? {
        forall m | 0 <= m <= |rest|
          ensures
            var p := Run(hp, o.d, Concat(rest[..m]));
            p.Frames? ==> !InsidePriority(p.d)
        {
          var b := Concat(rest[..m]);
          assert Concat(segments[..m + 1]) == a + b by {
            assert segments[..m + 1][0] == a && segments[..m + 1][1..] == rest[..m];
          }
          CutInTwo(hp, d, a, b);
        }
        SparesOutside(hp, o.d, rest);
      }
    }
  }

  /** No segment ends at a position strictly inside a PRIORITY payload. */
  predicate SparesPriorityPayloads(ws: seq<Wire>, segments: seq<Bytes>) {
    forall m | 0 <= m <= |segments| :: !CutsPriority(ws, |Concat(segments[..m])|)
  }

  lemma {:induction false} ConcatPrefix(segments: seq<Bytes>, m: nat)
    requires m <= |segments|
    ensures |Concat(segments[..m])| <= |Concat(segments)|
    ensures Concat(segments[..m]) == Concat(segments)[..|Concat(segments[..m])|]
    decreases m
  {
    if m > 0 {
      assert segments[..m][0] == segments[0] && segments[..m][1..] == segments[1..][..m - 1];
      ConcatPrefix(segments[1..], m - 1);
    }
  }

  /** Whole frames in segments that spare PRIORITY payloads are decoded as they are in one piece. */
  lemma WireSegments<H, P>(hp: Hpack<H, P>, d: Dec<H>, ws: seq<Wire>, segments: seq<Bytes>)
    requires Valid(d) && d.stage == AtHeader && d.offset == 0 && AllWellFormed(ws, d.maxFrameSize)
    requires Concat(segments) == WireBytes(ws) && SparesPriorityPayloads(ws, segments)
    ensures RunSegments(hp, d, segments) == Run(hp, d, WireBytes(ws))
  {
    hide Run, CutsPriority, WireBytes;
    forall m | 0 <= m <= |segments|
      ensures
        var o := Run(hp, d, Concat(segments[..m]));
        o.Frames? ==> !InsidePriority(o.d)
    {
      ConcatPrefix(segments, m);
      InsideMeansCut(hp, d, ws, |Concat(segments[..m])|);
    }
    SparesOutside(hp, d, segments);
    SegmentsDoNotMatter(hp, d, segments);
  }

  /** A cut inside a PRIORITY payload: the frame is delivered in one piece and refused in two. */
  lemma CutPriorityFrame<H, P>(hp: Hpack<H, P>, d: Dec<H>, id: u31, payload: Bytes, k: nat)
    requires Valid(d) && d.stage == AtHeader && d.offset == 0 && d.cont.isEndHeaders && d.maxFrameSize >= 5
    requires id != 0 && |payload| == 5 && 9 < k < 14
    ensures
      var w := Wire(FrameHeader(id, 0, PRIORITY, 5), payload);
      var bytes := WireBytes([w]);
      && |bytes| == 14 && CutsPriority([w], k)
      && Run(hp, d, bytes) == Frames([PriorityFrame(w.header, payload)], Closed(d, d.cont, d.hpack))
      && Then(hp, Run(hp, d, bytes[..k]), bytes[k..]) == Error(StreamError(id, FrameSizeError))
  {
    hide HeaderBytes, Run, PriorityFrame, Prefixed, DecodePayload;
    var w := Wire(FrameHeader(id, 0, PRIORITY, 5), payload);
    var frame := HeaderBytes(w.header) + payload;
    var a, b := frame[..k], frame[k..];
    assert [w][1..] == [] && WireBytes([w]) == frame + [] == frame;
    PartOfFrame(hp, d, w, k);
    assert a + b == frame;
    CutInsidePriority(hp, d, a, b);
    PriorityRest(payload, HeaderBytes(w.header), k);
    var d1 := Run(hp, d, a).d;
    var f: seq<FrameKind<P>> := [PriorityFrame(w.header, payload)];
    assert Closed(d1, d1.cont, d1.hpack) == Closed(d, d.cont, d.hpack);
    NothingToDo(hp, Closed(d, d.cont, d.hpack));
    assert [] + f == f;
    PrefixedAll(f, Closed(d, d.cont, d.hpack));
  }

  lemma PrefixedAll<H, P>(f: seq<FrameKind<P>>, d: Dec<H>)
    ensures Prefixed(f, Frames([], d)) == Frames(f, d)
  {
    assert f + [] == f;
  }

  lemma PriorityRest(payload: Bytes, header: Bytes, k: nat)
    requires |payload| == 5 && |header| == 9 && 9 < k < 14
    ensures
      var b := (header + payload)[k..];
      var need := 5 - (k - 9);
      && |b| == need && payload[..k - 9] + b[..need] == payload && b[need..] == []
  {
    assert (header + payload)[k..] == payload[k - 9..];
  }

  //
  // The CONTINUATION discipline.
  //

  /** A frame that begins a header block without ending it. */
  predicate OpensBlock(w: Wire) {
    (w.header.frameType == HEADERS || w.header.frameType == PUSH_PROMISE) && !EndHeaders(w.header.flags)
  }

  predicate ContinuesOn(w: Wire, stream: u32) {
    w.header.frameType == CONTINUATION && w.header.streamId == stream
  }

  predicate Sized(ws: seq<Wire>) {
    forall i | 0 <= i < |ws| :: |ws[i].payload| == ws[i].header.payloadLength
  }

  lemma AcceptOpen<H, P>(hp: Hpack<H, P>, c: Continuations, x: H, w: Wire)
    requires |w.payload| == w.header.payloadLength && Accept(hp, c, x, w).Good?
    ensures !c.isEndHeaders ==> ContinuesOn(w, c.streamId)
    ensures !c.isEndHeaders && !EndHeaders(w.header.flags) ==>
              Accept(hp, c, x, w).kind == Partial && Accept(hp, c, x, w).cont == c
    ensures !c.isEndHeaders && EndHeaders(w.header.flags) ==>
              var r := Accept(hp, c, x, w);
              && r.kind.Complete? && r.cont == NO_BLOCK
              && r.kind.frame.streamId == c.streamId && r.kind.frame.flags == c.flags
              && (c.promisedStreamId == 0 ==> r.kind.frame.payload.Headers?)
    ensures OpensBlock(w) && c.isEndHeaders ==>
              var r := Accept(hp, c, x, w);
              && r.kind == Partial && !r.cont.isEndHeaders
              && r.cont.streamId == w.header.streamId && r.cont.flags == w.header.flags
              && (w.header.frameType == HEADERS ==> r.cont.promisedStreamId == c.promisedStreamId)
  {
    hide FragmentOf;
  }

  // A block that is open stays open up to the first END_HEADERS.
  lemma {:induction false} OpenBlock<H, P>(hp: Hpack<H, P>, c: Continuations, x: H, ws: seq<Wire>, k: nat)
    requires Sized(ws) && Process(hp, c, x, ws).Processed?
    requires !c.isEndHeaders && k < |ws|
    requires forall m | 0 <= m < k :: !EndHeaders(ws[m].header.flags)
    ensures ContinuesOn(ws[k], c.streamId)
    ensures !EndHeaders(ws[k].header.flags) ==> Process(hp, c, x, ws).kinds[k] == Partial
    ensures EndHeaders(ws[k].header.flags) ==>
              var kind := Process(hp, c, x, ws).kinds[k];
              && kind.Complete? && kind.frame.streamId == c.streamId && kind.frame.flags == c.flags
              && (c.promisedStreamId == 0 ==> kind.frame.payload.Headers?)
    decreases k
  {
    hide Accept, EndHeaders;
    AcceptOpen(hp, c, x, ws[0]);
    if k > 0 {
      OpenBlock(hp, c, Accept(hp, c, x, ws[0]).hpack, ws[1..], k - 1);
    }
  }

  /**
   Over a whole accepted run: after a frame `i` that opens a header block every
   frame up to the first END_HEADERS is a CONTINUATION on its stream, all of them
   Partial, and the frame that ends the block is delivered with the stream id and
   the flags of frame `i`.
   */
  lemma {:induction false} BlocksAreContiguous<H, P>(hp: Hpack<H, P>, c: Continuations, x: H, ws: seq<Wire>, i: nat, k: nat)
    requires Sized(ws) && Process(hp, c, x, ws).Processed?
    requires c.isEndHeaders ==> c.promisedStreamId == 0
    requires i < k < |ws| && OpensBlock(ws[i])
    requires forall m | i < m < k :: !EndHeaders(ws[m].header.flags)
    ensures ContinuesOn(ws[k], ws[i].header.streamId)
    ensures Process(hp, c, x, ws).kinds[i] == Partial
    ensures !EndHeaders(ws[k].header.flags) ==> Process(hp, c, x, ws).kinds[k] == Partial
    ensures EndHeaders(ws[k].header.flags) ==>
              var kind := Process(hp, c, x, ws).kinds[k];
              && kind.Complete?
              && kind.frame.streamId == ws[i].header.streamId && kind.frame.flags == ws[i].header.flags
              && (ws[i].header.frameType == HEADERS ==> kind.frame.payload.Headers?)
    decreases i
  {
    hide EndHeaders, DecodePayload;
    AcceptOpen(hp, c, x, ws[0]);
    BlockKept(hp, ws[0].header, c, x, ws[0].payload);
    var r := Accept(hp, c, x, ws[0]);
    hide Accept;
    if i == 0 {
      assert forall m | 0 <= m < k - 1 :: ws[1..][m] == ws[m + 1];
      OpenBlock(hp, r.cont, r.hpack, ws[1..], k - 1);
    } else {
      BlocksAreContiguous(hp, r.cont, r.hpack, ws[1..], i - 1, k - 1);
    }
  }

  lemma {:induction false} ProcessPrefix<H, P>(hp: Hpack<H, P>, c: Continuations, x: H, ws: seq<Wire>, k: nat)
    requires Sized(ws) && k <= |ws|
    ensures
      match Process(hp, c, x, ws[..k])
      case Refused(e) => Process(hp, c, x, ws) == Refused(e)
      case Processed(_, c', x') => Process(hp, c', x', ws[k..]).Refused? ==>
                                     Process(hp, c, x, ws) == Process(hp, c', x', ws[k..])
    decreases k
  {
    hide Accept;
    if k == 0 {
      assert ws[..0] == [] && ws[0..] == ws;
    } else {
      assert ws[..k][1..] == ws[1..][..k - 1];
      assert ws[1..][k - 1..] == ws[k..];
      match Accept(hp, c, x, ws[0])
      case Bad(_) =>
      case Good(_, c', x') => ProcessPrefix(hp, c', x', ws[1..], k - 1);
    }
  }

  // The block that frame `i` opened is still open after the frames before `k`.
  lemma {:induction false} StillOpen<H, P>(hp: Hpack<H, P>, c: Continuations, x: H, ws: seq<Wire>, i: nat)
    requires Sized(ws) && Process(hp, c, x, ws).Processed?
    requires i < |ws| && OpensBlock(ws[i])
    requires forall m | i < m < |ws| :: !EndHeaders(ws[m].header.flags)
    ensures
      var c' := Process(hp, c, x, ws).cont;
      !c'.isEndHeaders && c'.streamId == ws[i].header.streamId
    decreases i
  {
    hide EndHeaders;
    AcceptOpen(hp, c, x, ws[0]);
    var r := Accept(hp, c, x, ws[0]);
    hide Accept;
    if i == 0 {
      assert forall m | 0 <= m < |ws| - 1 :: ws[1..][m] == ws[m + 1];
      StaysOpen(hp, r.cont, r.hpack, ws[1..]);
    } else {
      StillOpen(hp, r.cont, r.hpack, ws[1..], i - 1);
    }
  }

  lemma {:induction false} StaysOpen<H, P>(hp: Hpack<H, P>, c: Continuations, x: H, ws: seq<Wire>)
    requires Sized(ws) && Process(hp, c, x, ws).Processed? && !c.isEndHeaders
    requires forall m | 0 <= m < |ws| :: !EndHeaders(ws[m].header.flags)
    ensures Process(hp, c, x, ws).cont == c
    decreases ws
  {
    hide Accept, EndHeaders;
    if ws != [] {
      AcceptOpen(hp, c, x, ws[0]);
      StaysOpen(hp, c, Accept(hp, c, x, ws[0]).hpack, ws[1..]);
    }
  }

  /** The converse: any other frame inside an open block ends the run with a connection PROTOCOL_ERROR. */
  lemma IntruderIsRefused<H, P>(hp: Hpack<H, P>, c: Continuations, x: H, ws: seq<Wire>, i: nat, k: nat)
    requires Sized(ws)
    requires i < k < |ws| && OpensBlock(ws[i])
    requires Process(hp, c, x, ws[..k]).Processed?
    requires forall m | i < m < k :: !EndHeaders(ws[m].header.flags)
    requires !ContinuesOn(ws[k], ws[i].header.streamId)
    ensures Process(hp, c, x, ws) == Refused(ConnectionError(ProtocolError))
  {
    hide DecodePayload;
    ProcessPrefix(hp, c, x, ws, k);
    StillOpen(hp, c, x, ws[..k], i);
    var Processed(_, c', x') := Process(hp, c, x, ws[..k]);
    assert ws[k..][0] == ws[k];
    assert Accept(hp, c', x', ws[k]) == Bad(ConnectionError(ProtocolError));
  }

  /**
   The other half does not hold: a CONTINUATION that continues nothing is not
   refused. It is accepted exactly when its stream id is not zero and HPACK takes
   it, and a block it ends is delivered on stream 0 without flags.
   */
  lemma StrayContinuation<H, P>(hp: Hpack<H, P>, x: H, w: Wire)
    requires |w.payload| == w.header.payloadLength && w.header.frameType == CONTINUATION
    ensures
      var r := Accept(hp, NO_BLOCK, x, w);
      var fed := hp.feed(x, w.payload);
      && (r.Good? <==>
            && w.header.streamId != 0 && fed.FedOk?
            && (EndHeaders(w.header.flags) ==> hp.finish(fed.hpack).FinishedOk?))
      && (r.Good? && EndHeaders(w.header.flags) ==>
            r.kind == Complete(Frame(0, 0, Headers(hp.finish(fed.hpack).parts))))
  {
  }

  ghost predicate NeverPanics<H(!new), P>(hp: Hpack<H, P>) {
    && (forall y: H, b: Bytes :: hp.feed(y, b).FedErr? ==> hp.feed(y, b).error != Panic)
    && (forall y: H :: hp.finish(y).FinishedErr? ==> hp.finish(y).error != Panic)
  }

  /** Reading the pad length is out of bounds exactly for a padded HEADERS or PUSH_PROMISE frame without a payload. */
  lemma PanicsExactly<H(!new), P>(hp: Hpack<H, P>, c: Continuations, x: H, w: Wire)
    requires |w.payload| == w.header.payloadLength
    requires NeverPanics(hp)
    ensures Accept(hp, c, x, w) == Bad(Panic) <==>
              && !OutOfPlace(w.header, c) && w.header.streamId != 0 && w.payload == []
              && (w.header.frameType == HEADERS || w.header.frameType == PUSH_PROMISE) && IsPadded(w.header.flags)
  {
    ControlNeverPanics(w);
    hide DecodeControl;
    var buf := w.payload;
    if w.header.frameType == HEADERS {
      var f := FragmentOf(w.header, if HasPriority(w.header.flags) then 5 else 0, buf);
      assert f == NoFragment(Panic) <==> IsPadded(w.header.flags) && buf == [];
    } else if w.header.frameType == PUSH_PROMISE {
      PushPromisePanics(hp, w.header, c, x, buf);
    }
  }

  lemma PushPromisePanics<H(!new), P>(hp: Hpack<H, P>, h: FrameHeader, c: Continuations, x: H, buf: Bytes)
    requires |buf| == h.payloadLength
    requires NeverPanics(hp)
    ensures DecodePushPromise(hp, h, c, x, buf) == Bad(Panic) <==> h.streamId != 0 && IsPadded(h.flags) && buf == []
  {
    var f := FragmentOf(h, 4, buf);
    assert f == NoFragment(Panic) <==> IsPadded(h.flags) && buf == [];
    hide FragmentOf, U31;
  }

  lemma ControlNeverPanics(w: Wire)
    requires |w.payload| == w.header.payloadLength
    ensures DecodeControl(w.header, w.payload) != Err(Panic)
  {
    if w.header.payloadLength % 6 == 0 {
      SettingsNeverPanic(w.payload);
    }
  }

  lemma {:induction false} SettingsNeverPanic(buf: Bytes)
    requires |buf| % 6 == 0
    ensures ParseSettings(buf) != SettingsErr(Panic)
  {
    if buf != [] { SettingsNeverPanic(buf[6..]); }
  }

  //
  // The decoder object.
  //

  /** The loop over the six-byte groups of a SETTINGS payload. */
  method ReadSettings(buf: Bytes) returns (r: SettingsResult)
    requires |buf| % 6 == 0
    ensures r == ParseSettings(buf)
  {
    hide U16, U32, GetSetting;
    var settings := [];
    var i := 0;
    assert buf[0..] == buf;
    while i < |buf|
      invariant 0 <= i <= |buf| && i % 6 == 0
      invariant
        match ParseSettings(buf[i..])
        case SettingsErr(e) => ParseSettings(buf) == SettingsErr(e)
        case SettingsOk(rest) => ParseSettings(buf) == SettingsOk(settings + rest)
    {
      var token := buf[i..i + 6];
      assert buf[i..][..2] == token[..2];
      assert buf[i..][2..6] == buf[i + 2..i + 6] == token[2..6];
      assert buf[i..][6..] == buf[i + 6..];
      var got := GetSetting(U16(token[..2]), U32(token[2..6]));
      match got {
        case Rejected(e) => return SettingsErr(e);
        case Ignored =>
        case Known(setting) =>
          ghost var rest := ParseSettings(buf[i + 6..]);
          if rest.SettingsOk? { assert settings + ([setting] + rest.list) == settings + [setting] + rest.list; }
          settings := settings + [setting];
      }
      i := i + 6;
    }
    return SettingsOk(settings);
  }

  lemma OneStage<H, P>(hp: Hpack<H, P>, d: Dec<H>, buf: Bytes, frames: seq<FrameKind<P>>)
    requires Valid(d)
    ensures
      var all := Prefixed(frames, Run(hp, d, buf));
      var s := if d.stage == AtHeader then HeaderStep(d, buf) else PayloadStep(hp, d, buf);
      && (s.More? ==> Valid(s.d) && all == Frames(frames, s.d))
      && (s.Fail? ==> all == Error(s.error))
      && (s.Next? ==>
            && Valid(s.d) && s.d.maxFrameSize == d.maxFrameSize && Measure(s.d, s.rest) < Measure(d, buf)
            && all == Prefixed(frames + s.kinds, Run(hp, s.d, s.rest)))
  {
    hide ParseHeader, DecodePayload;
    StepKeepsValid(hp, d, buf);
    match StageStep(hp, d, buf)
    case More(d') => assert frames + [] == frames;
    case Fail(e) =>
    case Next(d', rest, kinds) => PrefixedTwice(frames, kinds, Run(hp, d', rest));
  }

  lemma DecodedAsSettings<H, P>(hp: Hpack<H, P>, h: FrameHeader, c: Continuations, x: H, buf: Bytes)
    requires |buf| == h.payloadLength
    ensures h.frameType == SETTINGS && h.streamId == 0 && h.payloadLength % 6 == 0 && !Ack(h.flags) ==>
              DecodePayload(hp, h, c, x, buf) ==
              (match ParseSettings(buf)
               case SettingsErr(e) => Bad(e)
               case SettingsOk(l) => Good(Complete(Frame(h.streamId, h.flags, Settings(l))), c, x))
  {
  }

  class FrameDecoder<H, P> {
    const hp: Hpack<H, P>
    var buffer: Bytes
    var offset: nat
    var maxFrameSize: nat
    var stage: Stage
    var header: FrameHeader
    var hpack: H
    var continuations: Continuations

    ghost function State(): Dec<H>
      reads this
    {
      Dec(buffer, offset, maxFrameSize, stage, header, continuations, hpack)
    }

    constructor (hp: Hpack<H, P>, hpack: H)
      ensures this.hp == hp && Settled(State()) && !InsidePriority(State())
      ensures State() == Dec([], 0, DEFAULT_MAX_FRAME_SIZE, AtHeader, FrameHeader(0, 0, 0, 0), NO_BLOCK, hpack)
    {
      this.hp := hp;
      this.hpack := hpack;
      buffer, offset, maxFrameSize, stage := [], 0, DEFAULT_MAX_FRAME_SIZE, AtHeader;
      header, continuations := FrameHeader(0, 0, 0, 0), NO_BLOCK;
    }

    method SetMaxFrameSize(size: u32) returns (r: Result<()>)
      modifies this`maxFrameSize
      ensures r.Ok? <==> DEFAULT_MAX_FRAME_SIZE <= size <= MAX_ALLOWED_MAX_FRAME_SIZE
      ensures maxFrameSize == if r.Ok? then size else old(maxFrameSize)
      ensures r.Err? ==> r.error == ConnectionError(ProtocolError)
    {
      if !(DEFAULT_MAX_FRAME_SIZE <= size <= MAX_ALLOWED_MAX_FRAME_SIZE) {
        return Err(ConnectionError(ProtocolError));
      }
      maxFrameSize := size;
      return Ok(());
    }

    /** Reads the frame header; `None` if bytes of it are still missing. */
    method DecodeFrameHeader(buf: Bytes) returns (r: Result<Option<Bytes>>)
      requires Valid(State()) && stage == AtHeader
      modifies this`buffer, this`offset, this`header
      ensures
        match HeaderStep<H, P>(old(State()), buf)
        case More(d) => r == Ok(None) && State() == d
        case Next(d, rest, kinds) => kinds == [] && r == Ok(Some(rest)) && State().(stage := AtPayload) == d
        case Fail(e) => r == Err(e)
    {
      var payloadPos := FRAME_HEADER_LENGTH - offset;
      if |buf| < payloadPos {
        offset := offset + |buf|;
        buffer := buffer + buf;
        return Ok(None);
      }
      var headerBuffer := buf[..payloadPos];
      if offset != 0 {
        buffer := buffer + headerBuffer;
        headerBuffer := buffer;
      }
      assert headerBuffer == old(buffer) + buf[..payloadPos];
      var h := ParseHeader(headerBuffer);
      if h.payloadLength > maxFrameSize {
        return Err(ConnectionError(FrameSizeError));
      }
      if offset != 0 {
        offset := 0;
        buffer := [];
      }
      header := h;
      return Ok(Some(buf[payloadPos..]));
    }

    // Joins a piece to what is buffered of the payload.
    method Join(piece: Bytes) returns (whole: Bytes)
      requires |buffer| == offset
      modifies this`buffer, this`offset
      ensures whole == old(buffer) + piece
      ensures old(offset) == 0 ==> offset == 0 && buffer == old(buffer)
      ensures old(offset) != 0 ==> offset != 0
    {
      whole := piece;
      if offset != 0 {
        buffer := buffer + piece;
        offset := offset + |piece|;
        whole := buffer;
      }
    }

    /** Decodes the payload; `None` if bytes of it are still missing. */
    method DecodeFramePayload(buf: Bytes) returns (r: Result<Option<(Bytes, FrameKind<P>)>>)
      requires Valid(State()) && stage == AtPayload
      modifies this`buffer, this`offset, this`header, this`hpack, this`continuations
      ensures
        match PayloadStep(hp, old(State()), buf)
        case More(d) => r == Ok(None) && State() == d
        case Next(d, rest, kinds) =>
          && r.Ok? && r.value.Some?
          && r.value.value.0 == rest && kinds == [r.value.value.1]
          && State().(stage := AtHeader) == d
        case Fail(e) => r == Err(e)
    {
      if !continuations.isEndHeaders
         && (header.streamId != continuations.streamId || header.frameType != CONTINUATION) {
        return Err(ConnectionError(ProtocolError));
      }
      var frameEnd := header.payloadLength - offset;
      if |buf| < frameEnd {
        offset := offset + |buf|;
        buffer := buffer + buf;
        return Ok(None);
      }
      var piece := buf[..frameEnd];
      if header.frameType == PRIORITY && header.streamId != 0 && (header.payloadLength != 5 || |piece| != 5) {
        if offset == 0 {
          WrongSizePriority(hp, header, continuations, hpack, buffer + piece);
        }
        return Err(StreamError(header.streamId, FrameSizeError));
      }
      var whole := Join(piece);
      hide DecodePayload;
      DecodedAsSettings(hp, header, continuations, hpack, whole);
      var decoded: Decoded<H, P>;
      if header.frameType == SETTINGS && header.streamId == 0 && header.payloadLength % 6 == 0 && !Ack(header.flags) {
        var list := ReadSettings(whole);
        match list {
          case SettingsErr(e) => decoded := Bad(e);
          case SettingsOk(l) =>
            decoded := Good(Complete(Frame(header.streamId, header.flags, Settings(l))), continuations, hpack);
        }
      } else {
        decoded := DecodePayload(hp, header, continuations, hpack, whole);
      }
      match decoded
      case Bad(e) => return Err(e);
      case Good(kind, c, x) =>
        continuations, hpack := c, x;
        // The header is reset and the buffer emptied for the next frame.
        header := FrameHeader(0, 0, 0, 0);
        if offset != 0 {
          offset := 0;
          buffer := [];
        }
        return Ok(Some((buf[frameEnd..], kind)));
    }

    /** All frames of a piece of input; what is left over waits for the next piece. */
    method Decode(buf: Bytes) returns (r: Result<seq<FrameKind<P>>>)
      requires Valid(State())
      modifies this
      ensures maxFrameSize == old(maxFrameSize)
      ensures
        match Run(hp, old(State()), buf)
        case Error(e) => r == Err(e)
        case Frames(list, d) => r == Ok(list) && State() == d && Settled(State())
    {
      hide HeaderStep, PayloadStep, Run, Prefixed;
      var frames: seq<FrameKind<P>> := [];
      var buffer := buf;
      RunSettles(hp, State(), buf);
      PrefixedNone(Run(hp, State(), buf));
      while true
        invariant Valid(State()) && maxFrameSize == old(maxFrameSize)
        invariant Run(hp, old(State()), buf) == Prefixed(frames, Run(hp, State(), buffer))
        decreases Measure(State(), buffer)
      {
        OneStage(hp, State(), buffer, frames);
        match stage
        case AtHeader =>
          var remain := DecodeFrameHeader(buffer);
          match remain {
            case Err(e) => return Err(e);
            case Ok(None) => break;
            case Ok(Some(rest)) =>
              buffer := rest;
              stage := AtPayload;
              assert frames + [] == frames;
          }
        case AtPayload =>
          var remain := DecodeFramePayload(buffer);
          match remain {
            case Err(e) => return Err(e);
            case Ok(None) => break;
            case Ok(Some((rest, kind))) =>
              frames := frames + [kind];
              buffer := rest;
              stage := AtHeader;
          }
      }
      return Ok(frames);
    }
  }
}
