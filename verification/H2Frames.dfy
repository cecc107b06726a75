/** The frames of HTTP/2, their nine-byte headers, flags and big-endian fields. */
module H2Frames {
  import opened MachineWords

  type u31 = x: int | 0 <= x < 0x8000_0000
  type u32 = x: int | 0 <= x < 0x1_0000_0000

  datatype ErrorCode = ProtocolError | FlowControlError | FrameSizeError | CompressionError

  /** The errors of the decoder; `Panic` stands for an index out of bounds that ends the program. */
  datatype H2Error = ConnectionError(code: ErrorCode) | StreamError(id: u32, code: ErrorCode) | Panic

  const DEFAULT_MAX_FRAME_SIZE: nat := 16384
  const MAX_ALLOWED_MAX_FRAME_SIZE: nat := 16777215
  const MAX_INITIAL_WINDOW_SIZE: nat := 0x7fff_ffff
  const FRAME_HEADER_LENGTH: nat := 9

  // Frame type codes.
  const DATA: u8 := 0
  const HEADERS: u8 := 1
  const PRIORITY: u8 := 2
  const RST_STREAM: u8 := 3
  const SETTINGS: u8 := 4
  const PUSH_PROMISE: u8 := 5
  const PING: u8 := 6
  const GOAWAY: u8 := 7
  const WINDOW_UPDATE: u8 := 8
  const CONTINUATION: u8 := 9

  // Flag bits: 0x01, 0x04, 0x08 and 0x20; ACK shares the bit of END_STREAM.
  predicate EndStream(flags: u8) { flags % 2 == 1 }
  predicate Ack(flags: u8) { flags % 2 == 1 }
  predicate EndHeaders(flags: u8) { flags / 4 % 2 == 1 }
  predicate IsPadded(flags: u8) { flags / 8 % 2 == 1 }
  predicate HasPriority(flags: u8) { flags / 32 % 2 == 1 }

  datatype Setting =
    | HeaderTableSize(size: u32)
    | EnablePush(enabled: bool)
    | MaxConcurrentStreams(streams: u32)
    | InitialWindowSize(window: u32)
    | MaxFrameSize(frame: u32)
    | MaxHeaderListSize(list: u32)

  /** Frame payloads; `P` is whatever HPACK makes of a header block. */
  datatype Payload<+P> =
    | Data(data: Bytes)
    | Headers(parts: P)
    | Priority(exclusive: bool, dependency: u32, weight: u8)
    | RstStream(error: u32)
    | Settings(settings: seq<Setting>)
    | PushPromise(promised: u32, promisedParts: P)
    | Ping(opaqueData: Bytes)
    | Goaway(code: u32, lastStreamId: u32, debugData: Bytes)
    | WindowUpdate(increment: u32)

  datatype Frame<+P> = Frame(streamId: u32, flags: u8, payload: Payload<P>)

  datatype FrameKind<+P> = Complete(frame: Frame<P>) | Partial

  /** The nine bytes in front of a payload. */
  datatype FrameHeader = FrameHeader(streamId: u32, flags: u8, frameType: u8, payloadLength: nat)

  //
  // Big-endian fields.
  //

  function U16(t: Bytes): nat
    requires |t| == 2
  {
    t[0] as int * 0x100 + t[1] as int
  }

  function U24(t: Bytes): nat
    requires |t| == 3
  {
    t[0] as int * 0x1_0000 + t[1] as int * 0x100 + t[2] as int
  }

  /** `get_code_value`. */
  function U32(t: Bytes): u32
    requires |t| == 4
  {
    t[0] as int * 0x100_0000 + t[1] as int * 0x1_0000 + t[2] as int * 0x100 + t[3] as int
  }

  /** `get_stream_id`: the reserved bit is dropped. */
  function U31(t: Bytes): u31
    requires |t| == 4
  {
    t[0] as int % 128 * 0x100_0000 + t[1] as int * 0x1_0000 + t[2] as int * 0x100 + t[3] as int
  }

  function Be16(v: nat): (t: Bytes)
    ensures |t| == 2
  {
    [v / 0x100 % 256, v % 256]
  }

  function Be24(v: nat): (t: Bytes)
    ensures |t| == 3
  {
    [v / 0x1_0000 % 256, v / 0x100 % 256, v % 256]
  }

  function Be32(v: nat): (t: Bytes)
    ensures |t| == 4
  {
    [v / 0x100_0000 % 256, v / 0x1_0000 % 256, v / 0x100 % 256, v % 256]
  }

  lemma Be16RoundTrip(v: nat)
    requires v < 0x1_0000
    ensures U16(Be16(v)) == v
  {
  }

  lemma Be24RoundTrip(v: nat)
    requires v < 0x100_0000
    ensures U24(Be24(v)) == v
  {
    var h := v / 0x100;
    assert v / 0x1_0000 == h / 0x100;
  }

  lemma Be32RoundTrip(v: nat)
    requires v < 0x1_0000_0000
    ensures U32(Be32(v)) == v
    ensures v < 0x8000_0000 ==> U31(Be32(v)) == v
  {
    var a := v / 0x100;
    var b := a / 0x100;
    var c := b / 0x100;
    assert v / 0x1_0000 == b && v / 0x100_0000 == c;
    assert c < 256;
    assert v < 0x8000_0000 ==> c < 128;
  }

  //
  // Frame headers on the wire.
  //

  function HeaderBytes(h: FrameHeader): (t: Bytes)
    ensures |t| == 9
  {
    Be24(h.payloadLength) + [h.frameType, h.flags] + Be32(h.streamId)
  }

  function ParseHeader(t: Bytes): FrameHeader
    requires |t| == 9
  {
    FrameHeader(U31(t[5..9]), t[4], t[3], U24(t[..3]))
  }

  /** Length, type, flags and stream id of a header survive the wire. */
  lemma HeaderRoundTrip(h: FrameHeader)
    requires h.payloadLength < 0x100_0000 && h.streamId < 0x8000_0000
    ensures ParseHeader(HeaderBytes(h)) == h
  {
    hide U24, U31, Be24, Be32;
    var t := HeaderBytes(h);
    assert t[..3] == Be24(h.payloadLength);
    assert t[5..9] == Be32(h.streamId);
    Be24RoundTrip(h.payloadLength);
    Be32RoundTrip(h.streamId);
  }

  //
  // SETTINGS entries.
  //

  datatype SettingResult = Known(setting: Setting) | Ignored | Rejected(error: H2Error)

  /** `get_setting`. */
  function GetSetting(id: nat, value: u32): SettingResult {
    if id == 1 then Known(HeaderTableSize(value))
    else if id == 2 then
      if value == 0 then Known(EnablePush(false))
      else if value == 1 then Known(EnablePush(true))
      else Rejected(ConnectionError(ProtocolError))
    else if id == 3 then Known(MaxConcurrentStreams(value))
    else if id == 4 then
      if value > MAX_INITIAL_WINDOW_SIZE then Rejected(ConnectionError(FlowControlError))
      else Known(InitialWindowSize(value))
    else if id == 5 then
      if DEFAULT_MAX_FRAME_SIZE <= value <= MAX_ALLOWED_MAX_FRAME_SIZE then Known(MaxFrameSize(value))
      else Rejected(ConnectionError(ProtocolError))
    else if id == 6 then Known(MaxHeaderListSize(value))
    else Ignored
  }

  /** The identifier and the value of a setting. */
  function SettingId(s: Setting): nat {
    match s
    case HeaderTableSize(_) => 1
    case EnablePush(_) => 2
    case MaxConcurrentStreams(_) => 3
    case InitialWindowSize(_) => 4
    case MaxFrameSize(_) => 5
    case MaxHeaderListSize(_) => 6
  }

  function SettingValue(s: Setting): u32 {
    match s
    case HeaderTableSize(v) => v
    case EnablePush(b) => if b then 1 else 0
    case MaxConcurrentStreams(v) => v
    case InitialWindowSize(v) => v
    case MaxFrameSize(v) => v
    case MaxHeaderListSize(v) => v
  }

  /** Settings whose value a decoder accepts. */
  predicate ValidSetting(s: Setting) {
    && (s.InitialWindowSize? ==> s.window <= MAX_INITIAL_WINDOW_SIZE)
    && (s.MaxFrameSize? ==> DEFAULT_MAX_FRAME_SIZE <= s.frame <= MAX_ALLOWED_MAX_FRAME_SIZE)
  }

  /** A setting is accepted under its own id and value exactly when it is valid. */
  lemma SettingAccepted(s: Setting)
    ensures GetSetting(SettingId(s), SettingValue(s)) == Known(s) <==> ValidSetting(s)
  {
  }

  /** The settings of a payload cut into groups of six bytes; unknown ids are skipped. */
  datatype SettingsResult = SettingsOk(list: seq<Setting>) | SettingsErr(error: H2Error)

  function ParseSettings(buf: Bytes): SettingsResult
    requires |buf| % 6 == 0
  {
    if buf == [] then SettingsOk([])
    else
      match GetSetting(U16(buf[..2]), U32(buf[2..6]))
      case Rejected(e) => SettingsErr(e)
      case Ignored => ParseSettings(buf[6..])
      case Known(s) =>
        match ParseSettings(buf[6..])
        case SettingsErr(e) => SettingsErr(e)
        case SettingsOk(rest) => SettingsOk([s] + rest)
  }

  function SettingsBytes(list: seq<Setting>): (t: Bytes)
    ensures |t| == 6 * |list|
  {
    if list == [] then []
    else Be16(SettingId(list[0])) + Be32(SettingValue(list[0])) + SettingsBytes(list[1..])
  }

  lemma {:induction false} SettingsRoundTrip(list: seq<Setting>)
    requires forall i | 0 <= i < |list| :: ValidSetting(list[i])
    ensures ParseSettings(SettingsBytes(list)) == SettingsOk(list)
  {
    if list != [] {
      hide U16, U32, Be16, Be32, GetSetting, SettingId, SettingValue, ValidSetting;
      var s := list[0];
      var t := SettingsBytes(list);
      assert t[..2] == Be16(SettingId(s));
      assert t[2..6] == Be32(SettingValue(s));
      assert t[6..] == SettingsBytes(list[1..]);
      SettingIdSmall(s);
      Be16RoundTrip(SettingId(s));
      Be32RoundTrip(SettingValue(s));
      SettingAccepted(s);
      SettingsRoundTrip(list[1..]);
      assert list == [s] + list[1..];
    }
  }

  lemma SettingIdSmall(s: Setting)
    ensures SettingId(s) < 0x1_0000
  {
  }
}
