/**
 The HTTP/3 encoder of DATA and SETTINGS frames, which fills output buffers of
 at least 1024 bytes.
 */
module H3Encoder {
  import opened MachineWords
  import opened H3Octets
  import opened H3Frames
  import H3Decoder
  import H3Control

  const MIN_BUFFER: nat := 1024
  const MAX_ADDITIONAL: nat := 50

  datatype Outgoing = OutData(data: Bytes) | OutSettings(settings: Settings)

  datatype State = Idle | FrameComplete | DataFrame | DataPayload | SettingsFrame | SettingsPayload

  datatype Enc = Enc(frame: Option<Outgoing>, state: State, payloadOffset: nat)

  datatype Encoded = Written(n: nat) | Failed(error: H3Error)

  /** The length of a DATA frame and all settings are representable. */
  predicate Sendable(f: Outgoing) {
    match f
    case OutData(data) => |data| < VARINT_LIMIT
    case OutSettings(s) => Small(Entries(s))
  }

  predicate TooMany(s: Settings) {
    |ExtraEntries(s)| > MAX_ADDITIONAL
  }

  lemma TooManyExactly(s: Settings)
    ensures TooMany(s) <==> s.additional.Some? && |s.additional.value| > 50
  {
  }

  predicate Valid(e: Enc) {
    && (e.frame.Some? ==> Sendable(e.frame.value))
    && (e.state != DataPayload ==> e.payloadOffset == 0)
    && (e.state == DataFrame ==> e.frame.Some? && e.frame.value.OutData?)
    && (e.state == DataPayload ==> e.frame.Some? && e.frame.value.OutData? && e.payloadOffset <= |e.frame.value.data|)
    && (e.state == SettingsFrame ==> e.frame.Some? && e.frame.value.OutSettings?)
    && (e.state == SettingsPayload ==> e.frame.Some? && e.frame.value.OutSettings? && !TooMany(e.frame.value.settings))
  }

  function SettingsBytes(s: Settings): Bytes
    requires Small(Entries(s))
  {
    EntryBytes(Entries(s))
  }

  /** At most 5 named and 50 additional entries: 1024 bytes are enough for any SETTINGS frame. */
  lemma SettingsFit(s: Settings)
    requires Small(Entries(s)) && !TooMany(s)
    ensures |SettingsBytes(s)| <= 16 * 55
    ensures |H3Decoder.FrameBytes(SETTINGS, SettingsBytes(s))| <= MIN_BUFFER
  {
    hide EntryBytes, Varint;
    EntryBytesBound(Entries(s));
  }

  /** The whole frame on the wire. */
  function Wire(f: Outgoing): Bytes
    requires Sendable(f) && (f.OutSettings? ==> !TooMany(f.settings))
  {
    match f
    case OutData(data) => H3Decoder.FrameBytes(DATA, data)
    case OutSettings(s) => SettingsFit(s); H3Decoder.FrameBytes(SETTINGS, SettingsBytes(s))
  }

  /** The encoder refuses a frame with too many settings, and only that. */
  predicate Refuses(e: Enc) {
    e.state == SettingsFrame && e.frame.Some? && e.frame.value.OutSettings? && TooMany(e.frame.value.settings)
  }

  /** Everything that is still to be written of the current frame. */
  function Pending(e: Enc): Bytes
    requires Valid(e) && !Refuses(e)
  {
    match e.state
    case DataFrame => Wire(e.frame.value)
    case DataPayload => e.frame.value.data[e.payloadOffset..]
    case SettingsFrame => Wire(e.frame.value)
    case SettingsPayload => SettingsBytes(e.frame.value.settings)
    case _ => []
  }

  /** `num` pending bytes went to `at`, the others are still pending. */
  ghost predicate Emits(e: Enc, e': Enc, was: Bytes, now: Bytes, at: nat, num: nat) {
    && Valid(e) && Valid(e') && !Refuses(e) && !Refuses(e') && num <= |Pending(e)| && at + num <= |was|
    && now == Spliced(was, at, Pending(e)[..num])
    && Pending(e') == Pending(e)[num..]
  }

  lemma EmitsBytes(e: Enc, e': Enc, was: Bytes, now: Bytes, at: nat, w: Bytes)
    requires Valid(e) && Valid(e') && !Refuses(e) && !Refuses(e') && at + |w| <= |was|
    requires Pending(e) == w + Pending(e') && now == Spliced(was, at, w)
    ensures Emits(e, e', was, now, at, |w|)
  {
    hide Pending, Valid, Refuses;
  }

  lemma EmitsOn(e: Enc, e1: Enc, e2: Enc, was: Bytes, b1: Bytes, b2: Bytes, n1: nat, n2: nat)
    requires Emits(e, e1, was, b1, 0, n1) && Emits(e1, e2, b1, b2, n1, n2)
    ensures Emits(e, e2, was, b2, 0, n1 + n2)
  {
    hide Pending, Valid, Refuses;
    var p := Pending(e);
    SpliceMore(was, 0, p[..n1], p[n1..][..n2]);
    assert p[..n1] + p[n1..][..n2] == p[..n1 + n2];
  }

  lemma EmitsNone(e: Enc, was: Bytes)
    requires Valid(e) && !Refuses(e)
    ensures Emits(e, e, was, was, 0, 0)
  {
    hide Pending, Valid, Refuses;
    SpliceNone(was, 0, []);
    EmitsBytes(e, e, was, was, 0, []);
  }

  //
  // The code.
  //

  /** `encode_var_integer`. */
  method EncodeVarInteger(v: nat, buf: array<u8>, at: nat) returns (ok: bool, size: nat)
    requires v < VARINT_LIMIT && at <= buf.Length
    modifies buf
    ensures ok == (at + VarintLen(v) <= buf.Length) && size == (if ok then VarintLen(v) else 0)
    ensures buf[..] == Spliced(old(buf[..]), at, if ok then Varint(v) else [])
  {
    hide Varint;
    var writable := new WritableBytes(buf, at);
    ok := writable.WriteVarint(v);
    size := writable.idx;
  }

  /** A key and its value; the caller has made sure that they fit. */
  method EncodeEntry(key: nat, value: nat, buf: array<u8>, at: nat) returns (written: nat)
    requires key < VARINT_LIMIT && value < VARINT_LIMIT && at + VarintLen(key) + VarintLen(value) <= buf.Length
    modifies buf
    ensures written == VarintLen(key) + VarintLen(value)
    ensures buf[..] == Spliced(old(buf[..]), at, Varint(key) + Varint(value))
  {
    hide Varint, Spliced, VarintLen;
    ghost var was := buf[..];
    var ok, n := EncodeVarInteger(key, buf, at);
    var ok', m := EncodeVarInteger(value, buf, at + n);
    SpliceMore(was, at, Varint(key), Varint(value));
    written := n + m;
  }

  lemma OneEntryBytes(e: Entry)
    requires Small([e])
    ensures e.0 < VARINT_LIMIT && e.1 < VARINT_LIMIT && EntryBytes([e]) == Varint(e.0) + Varint(e.1)
  {
    hide Varint;
    assert [e][0] == e && [e][1..] == [];
    assert EntryBytes([e]) == Varint(e.0) + Varint(e.1) + [];
  }

  // One more entry behind those that are written.
  lemma NextEntry(was: Bytes, at: nat, es: seq<Entry>, e: Entry)
    requires Small(es) && Small([e]) && at + |EntryBytes(es)| + |EntryBytes([e])| <= |was|
    ensures Small(es + [e]) && |EntryBytes(es + [e])| == |EntryBytes(es)| + |EntryBytes([e])|
    ensures Spliced(Spliced(was, at, EntryBytes(es)), at + |EntryBytes(es)|, EntryBytes([e]))
         == Spliced(was, at, EntryBytes(es + [e]))
  {
    hide Spliced, EntryBytes;
    EntryBytesConcat(es, [e]);
    SpliceMore(was, at, EntryBytes(es), EntryBytes([e]));
  }

  /** Entries one after another. */
  method EncodeEntries(es: seq<Entry>, buf: array<u8>, at: nat) returns (written: nat)
    requires Small(es) && at + |EntryBytes(es)| <= buf.Length
    modifies buf
    ensures written == |EntryBytes(es)| && buf[..] == Spliced(old(buf[..]), at, EntryBytes(es))
  {
    hide EntryBytes, Spliced;
    ghost var was := buf[..];
    written := 0;
    NoEntries(was, at);
    for i := 0 to |es|
      invariant written == |EntryBytes(es[..i])| <= |EntryBytes(es)|
      invariant buf[..] == Spliced(was, at, EntryBytes(es[..i]))
    {
      assert es[..i + 1] == es[..i] + [es[i]];
      EntryBytesConcat(es[..i], [es[i]]);
      PrefixFits(es, i + 1);
      OneEntryBytes(es[i]);
      var size := EncodeEntry(es[i].0, es[i].1, buf, at + written);
      NextEntry(was, at, es[..i], es[i]);
      written := written + size;
    }
    assert es[..|es|] == es;
  }

  lemma NoEntries(was: Bytes, at: nat)
    requires at <= |was|
    ensures EntryBytes([]) == [] && Spliced(was, at, EntryBytes([])) == was
  {
    SpliceNone(was, at, []);
  }

  lemma PrefixFits(es: seq<Entry>, i: nat)
    requires Small(es) && i <= |es|
    ensures |EntryBytes(es[..i])| <= |EntryBytes(es)|
  {
    hide EntryBytes;
    assert es == es[..i] + es[i..];
    EntryBytesConcat(es[..i], es[i..]);
  }

  /** A named setting, if it is present, behind the entries `done`. */
  method EncodeOption(k: nat, v: Option<nat>, buf: array<u8>, at: nat, written: nat, ghost was: Bytes, ghost done: seq<Entry>)
    returns (total: nat)
    requires Small(done + One(k, v)) && |was| == buf.Length && at + |EntryBytes(done + One(k, v))| <= buf.Length
    requires Small(done) && written == |EntryBytes(done)| && at + written <= buf.Length
    requires buf[..] == Spliced(was, at, EntryBytes(done))
    modifies buf
    ensures total == |EntryBytes(done + One(k, v))| && buf[..] == Spliced(was, at, EntryBytes(done + One(k, v)))
  {
    hide EntryBytes, Spliced;
    SmallParts(done, One(k, v));
    total := written;
    if v.Some? {
      OneEntryBytes((k, v.value));
      var n := EncodeEntry(k, v.value, buf, at + written);
      NextEntry(was, at, done, (k, v.value));
      total := written + n;
    } else {
      assert done + One(k, v) == done;
    }
  }

  /** The length of a named setting, if it is present. */
  function OptionLen(k: nat, v: Option<nat>): nat
    requires Small(One(k, v))
  {
    if v.None? then 0 else assert One(k, v)[0] == (k, v.value); VarintLen(k) + VarintLen(v.value)
  }

  lemma OptionLenIs(k: nat, v: Option<nat>)
    requires Small(One(k, v))
    ensures OptionLen(k, v) == |EntryBytes(One(k, v))|
  {
    if v.Some? {
      OneEntryBytes((k, v.value));
    }
  }

  lemma NamedParts(s: Settings)
    requires Small(Entries(s))
    ensures Small(One(MAX_FIELD_SECTION, s.maxFieldSection)) && Small(One(CONNECT_PROTOCOL, s.connectProtocol))
    ensures Small(One(QPACK_CAPACITY, s.qpackCapacity)) && Small(One(QPACK_BLOCKED, s.qpackBlocked))
    ensures Small(One(H3_DATAGRAM, s.datagram)) && Small(ExtraEntries(s)) && Small(NamedEntries(s))
    ensures EntryBytes(NamedEntries(s)) ==
              EntryBytes(One(MAX_FIELD_SECTION, s.maxFieldSection)) + EntryBytes(One(CONNECT_PROTOCOL, s.connectProtocol))
              + EntryBytes(One(QPACK_CAPACITY, s.qpackCapacity)) + EntryBytes(One(QPACK_BLOCKED, s.qpackBlocked))
              + EntryBytes(One(H3_DATAGRAM, s.datagram))
    ensures SettingsBytes(s) == EntryBytes(NamedEntries(s)) + EntryBytes(ExtraEntries(s))
  {
    var a, b := One(MAX_FIELD_SECTION, s.maxFieldSection), One(CONNECT_PROTOCOL, s.connectProtocol);
    var c, d := One(QPACK_CAPACITY, s.qpackCapacity), One(QPACK_BLOCKED, s.qpackBlocked);
    var e := One(H3_DATAGRAM, s.datagram);
    hide EntryBytes, One, ExtraEntries;
    SmallParts(NamedEntries(s), ExtraEntries(s));
    SmallParts(a + b + c + d, e);
    SmallParts(a + b + c, d);
    SmallParts(a + b, c);
    SmallParts(a, b);
  }

  lemma SmallParts(a: seq<Entry>, b: seq<Entry>)
    requires Small(a + b)
    ensures Small(a) && Small(b) && EntryBytes(a + b) == EntryBytes(a) + EntryBytes(b)
  {
    hide EntryBytes;
    assert forall i | 0 <= i < |a| :: (a + b)[i] == a[i];
    assert forall i | 0 <= i < |b| :: (a + b)[|a| + i] == b[i];
    EntryBytesConcat(a, b);
  }

  /** In the loop of `encode`: nothing was done yet, or the head of the frame was written. */
  ghost predicate Begun(e: Enc, e': Enc, was: Bytes, now: Bytes, n: nat) {
    || (n == 0 && e' == e && now == was)
    || (0 < n < MIN_BUFFER && Emits(e, e', was, now, 0, n)
        && (e'.state == DataPayload
            || (e'.state == SettingsPayload && Valid(e') && n + |SettingsBytes(e'.frame.value.settings)| <= MIN_BUFFER)))
  }

  lemma NotBegun(e: Enc, was: Bytes)
    ensures Begun(e, e, was, was, 0)
  {
  }

  lemma HeadWritten(e: Enc, e': Enc, was: Bytes, now: Bytes, n: nat)
    requires Emits(e, e', was, now, 0, n) && 0 < n < MIN_BUFFER
    requires e'.state == DataPayload || e'.state == SettingsPayload
    requires e'.state == SettingsPayload ==>
               Valid(e') && n + |SettingsBytes(e'.frame.value.settings)| <= MIN_BUFFER
    ensures Begun(e, e', was, now, n)
  {
  }

  // Nothing was written before a head, nor after the end of a frame.
  lemma BegunFacts(e: Enc, e': Enc, was: Bytes, now: Bytes, n: nat)
    requires Begun(e, e', was, now, n) && Valid(e')
    ensures n < MIN_BUFFER
    ensures e'.state != DataPayload && e'.state != SettingsPayload ==> n == 0 && e' == e && now == was
    ensures e'.state == DataPayload || e'.state == SettingsPayload ==> Valid(e) && !Refuses(e) && !Refuses(e')
    ensures e'.state == SettingsPayload ==> n == 0 || n + |SettingsBytes(e'.frame.value.settings)| <= MIN_BUFFER
  {
    hide Pending;
  }

  // The payload follows what was begun.
  lemma Finished(e: Enc, e1: Enc, e2: Enc, was: Bytes, b1: Bytes, b2: Bytes, n1: nat, n2: nat)
    requires Valid(e) && Begun(e, e1, was, b1, n1) && !Refuses(e1) && Emits(e1, e2, b1, b2, n1, n2)
    requires n2 == Min(|was| - n1, |Pending(e1)|)
    ensures !Refuses(e) && Emits(e, e2, was, b2, 0, n1 + n2) && n1 + n2 == Min(|was|, |Pending(e)|)
    ensures n1 + n2 == |Pending(e)| ==> n2 == |Pending(e1)|
  {
    hide Pending, Valid, Refuses, Spliced;
    if n1 > 0 {
      EmitsOn(e, e1, e2, was, b1, b2, n1, n2);
    }
  }

  lemma PayloadFits(e: Enc)
    requires Valid(e) && e.state == SettingsPayload
    ensures |SettingsBytes(e.frame.value.settings)| == |Pending(e)| <= MIN_BUFFER
  {
    SettingsFit(e.frame.value.settings);
  }

  lemma Unbegun(e: Enc, was: Bytes)
    requires Valid(e) && (e.state == Idle || e.state == FrameComplete)
    ensures Pending(e) == [] && Emits(e, e, was, was, 0, 0)
  {
    EmitsNone(e, was);
  }

  class EncodedStream {
    var currentFrame: Option<Outgoing>
    var state: State
    var payloadOffset: nat

    ghost function Model(): Enc
      reads this
    {
      Enc(currentFrame, state, payloadOffset)
    }

    constructor ()
      ensures Valid(Model()) && !Refuses(Model()) && Pending(Model()) == []
    {
      currentFrame, state, payloadOffset := None, Idle, 0;
    }

    /** A frame is taken only when no other is under way. */
    method SetFrame(f: Outgoing) returns (ok: bool)
      requires Valid(Model()) && Sendable(f)
      modifies this
      ensures ok == (old(state) == Idle || old(state) == FrameComplete)
      ensures !ok ==> Model() == old(Model())
      ensures Valid(Model())
      ensures ok ==> if f.OutSettings? && TooMany(f.settings) then Refuses(Model())
                     else !Refuses(Model()) && Pending(Model()) == Wire(f)
    {
      if state != Idle && state != FrameComplete {
        return false;
      }
      currentFrame := Some(f);
      state := if f.OutData? then DataFrame else SettingsFrame;
      return true;
    }

    /** The declared length is that of the payload. */
    method SettingsLen(s: Settings) returns (len: nat)
      requires Small(Entries(s))
      ensures len == |SettingsBytes(s)|
    {
      NamedParts(s);
      hide EntryBytes, One, OptionLen, Entries, NamedEntries, ExtraEntries, Small;
      OptionLenIs(MAX_FIELD_SECTION, s.maxFieldSection);
      OptionLenIs(CONNECT_PROTOCOL, s.connectProtocol);
      OptionLenIs(QPACK_CAPACITY, s.qpackCapacity);
      OptionLenIs(QPACK_BLOCKED, s.qpackBlocked);
      OptionLenIs(H3_DATAGRAM, s.datagram);
      len := OptionLen(MAX_FIELD_SECTION, s.maxFieldSection);
      len := len + OptionLen(CONNECT_PROTOCOL, s.connectProtocol);
      len := len + OptionLen(QPACK_CAPACITY, s.qpackCapacity);
      len := len + OptionLen(QPACK_BLOCKED, s.qpackBlocked);
      len := len + OptionLen(H3_DATAGRAM, s.datagram);
      var more := ExtraLen(ExtraEntries(s));
      len := len + more;
    }

    /** The loop over the additional entries. */
    method ExtraLen(es: seq<Entry>) returns (len: nat)
      requires Small(es)
      ensures len == |EntryBytes(es)|
    {
      hide EntryBytes;
      len := 0;
      NoEntries([], 0);
      for i := 0 to |es|
        invariant len == |EntryBytes(es[..i])|
      {
        assert es[..i + 1] == es[..i] + [es[i]];
        EntryBytesConcat(es[..i], [es[i]]);
        OneEntryBytes(es[i]);
        len := len + VarintLen(es[i].0) + VarintLen(es[i].1);
      }
      assert es[..|es|] == es;
    }

    method EncodeSettingsPayload(buf: array<u8>, at: nat) returns (written: nat)
      requires Valid(Model()) && state == SettingsPayload && at <= buf.Length
      requires at + |SettingsBytes(currentFrame.value.settings)| <= buf.Length
      modifies this, buf
      ensures written == |old(Pending(Model()))| && state == FrameComplete && currentFrame == old(currentFrame)
      ensures Emits(old(Model()), Model(), old(buf[..]), buf[..], at, written)
    {
      hide SettingsBytes, Spliced, Entries, ExtraEntries;
      ghost var e, was := Model(), buf[..];
      var s := currentFrame.value.settings;
      state := FrameComplete;
      written := EncodeSettings(s, buf, at);
      assert SettingsBytes(s) == SettingsBytes(s) + [];
      EmitsBytes(e, Model(), was, buf[..], at, SettingsBytes(s));
    }

    /** Type and length of a DATA frame. */
    method EncodeDataFrame(buf: array<u8>) returns (written: nat)
      requires Valid(Model()) && state == DataFrame && MIN_BUFFER <= buf.Length
      modifies this, buf
      ensures state == DataPayload && currentFrame == old(currentFrame) && 0 < written <= 16
      ensures Emits(old(Model()), Model(), old(buf[..]), buf[..], 0, written)
    {
      hide Varint, Spliced, Entries, ExtraEntries;
      ghost var e, was := Model(), buf[..];
      var data := currentFrame.value.data;
      var ok, n := EncodeVarInteger(DATA, buf, 0);
      var ok', m := EncodeVarInteger(|data|, buf, n);
      SpliceMore(was, 0, Varint(DATA), Varint(|data|));
      state := DataPayload;
      written := n + m;
      ghost var w := Varint(DATA) + Varint(|data|);
      assert data[0..] == data;
      assert Varint(DATA) + (Varint(|data|) + data) == w + data;
      EmitsBytes(e, Model(), was, buf[..], 0, w);
    }

    /** Type and length of a SETTINGS frame, unless it has too many entries. */
    method EncodeSettingsFrame(buf: array<u8>) returns (ok: bool, written: nat)
      requires Valid(Model()) && state == SettingsFrame && MIN_BUFFER <= buf.Length
      modifies this, buf
      ensures ok == !Refuses(old(Model())) && currentFrame == old(currentFrame)
      ensures !ok ==> Model() == old(Model())
      ensures ok ==>
                && state == SettingsPayload && 0 < written <= 16
                && written + |SettingsBytes(currentFrame.value.settings)| <= MIN_BUFFER
                && Emits(old(Model()), Model(), old(buf[..]), buf[..], 0, written)
    {
      hide Varint, Spliced, Entries, ExtraEntries, SettingsBytes;
      ghost var e, was := Model(), buf[..];
      var s := currentFrame.value.settings;
      var fits, n := EncodeVarInteger(SETTINGS, buf, 0);
      if |ExtraEntries(s)| > MAX_ADDITIONAL {
        return false, 0;
      }
      SettingsFit(s);
      ghost var p := SettingsBytes(s);
      var len := SettingsLen(s);
      var fits', m := EncodeVarInteger(len, buf, n);
      SpliceMore(was, 0, Varint(SETTINGS), Varint(len));
      state := SettingsPayload;
      ok, written := true, n + m;
      ghost var w := Varint(SETTINGS) + Varint(len);
      assert Varint(SETTINGS) + (Varint(len) + p) == w + p;
      EmitsBytes(e, Model(), was, buf[..], 0, w);
    }

    /** As much of the data as fits. */
    method EncodeDataPayload(buf: array<u8>, at: nat) returns (written: nat)
      requires Valid(Model()) && state == DataPayload && at <= buf.Length
      modifies this, buf
      ensures currentFrame == old(currentFrame)
      ensures written == Min(buf.Length - at, |old(Pending(Model()))|)
      ensures state == if buf.Length - at >= |old(Pending(Model()))| then FrameComplete else DataPayload
      ensures Emits(old(Model()), Model(), old(buf[..]), buf[..], at, written)
    {
      hide Varint, Spliced, Entries, ExtraEntries;
      ghost var e, was := Model(), buf[..];
      var data := currentFrame.value.data;
      var remaining := |data| - payloadOffset;
      written := Min(buf.Length - at, remaining);
      ghost var w := data[payloadOffset..payloadOffset + written];
      assert data[payloadOffset..] == w + data[payloadOffset + written..];
      CopySlice(data[payloadOffset..payloadOffset + written], buf, at);
      if buf.Length - at >= remaining {
        payloadOffset := 0;
        state := FrameComplete;
      } else {
        payloadOffset := payloadOffset + written;
      }
      EmitsBytes(e, Model(), was, buf[..], at, w);
    }

    /** The payload of the frame whose head, if any, is in `buf[..at]`. */
    method EncodePayload(buf: array<u8>, at: nat, ghost e: Enc, ghost was: Bytes) returns (n: nat)
      requires Valid(e) && Valid(Model()) && (state == DataPayload || state == SettingsPayload)
      requires buf.Length >= MIN_BUFFER && |was| == buf.Length && Begun(e, Model(), was, buf[..], at)
      modifies this, buf
      ensures currentFrame == old(currentFrame) && !Refuses(e)
      ensures Emits(e, Model(), was, buf[..], 0, at + n) && at + n == Min(buf.Length, |Pending(e)|)
      ensures at + n == |Pending(e)| ==> state == Idle || state == FrameComplete
    {
      hide Pending, Valid, Spliced, Emits, SettingsBytes, Begun, Refuses, Sendable, TooMany;
      ghost var e1, b1 := Model(), buf[..];
      BegunFacts(e, e1, was, b1, at);
      if state == DataPayload {
        n := EncodeDataPayload(buf, at);
      } else {
        PayloadFits(Model());
        n := EncodeSettingsPayload(buf, at);
      }
      Finished(e, e1, Model(), was, b1, buf[..], at, n);
    }

    /**
     Fills a buffer with what is pending. Buffers below 1024 bytes are refused, and
     SETTINGS with more than 50 additional entries.
     */
    method Encode(buf: array<u8>) returns (r: Encoded)
      requires Valid(Model())
      modifies this, buf
      ensures buf.Length < MIN_BUFFER ==> r == Failed(BufferTooShort) && Model() == old(Model()) && buf[..] == old(buf[..])
      ensures buf.Length >= MIN_BUFFER && Refuses(old(Model())) ==> r == Failed(TooManySettings) && Model() == old(Model())
      ensures buf.Length >= MIN_BUFFER && !Refuses(old(Model())) ==>
                && r == Written(Min(buf.Length, |old(Pending(Model()))|))
                && currentFrame == old(currentFrame)
                && (r.n == |old(Pending(Model()))| ==> state == Idle || state == FrameComplete)
                && Emits(old(Model()), Model(), old(buf[..]), buf[..], 0, r.n)
    {
      if buf.Length < MIN_BUFFER {
        return Failed(BufferTooShort);
      }
      hide Pending, Valid, Emits, Begun, Refuses;
      ghost var e, was := Model(), buf[..];
      var frameBytes: nat := 0;
      NotBegun(e, was);
      while frameBytes < buf.Length
        invariant Valid(Model()) && currentFrame == e.frame
        invariant Begun(e, Model(), was, buf[..], frameBytes)
        decreases state == DataFrame || state == SettingsFrame
      {
        BegunFacts(e, Model(), was, buf[..], frameBytes);
        match state
        case Idle =>
          break;
        case FrameComplete =>
          break;
        case DataFrame =>
          frameBytes := EncodeDataFrame(buf);
          HeadWritten(e, Model(), was, buf[..], frameBytes);
        case SettingsFrame =>
          var ok;
          ok, frameBytes := EncodeSettingsFrame(buf);
          if !ok {
            return Failed(TooManySettings);
          }
          HeadWritten(e, Model(), was, buf[..], frameBytes);
        case DataPayload =>
          var n := EncodePayload(buf, frameBytes, e, was);
          return Written(frameBytes + n);
        case SettingsPayload =>
          var n := EncodePayload(buf, frameBytes, e, was);
          return Written(frameBytes + n);
      }
      BegunFacts(e, Model(), was, buf[..], frameBytes);
      Unbegun(e, was);
      return Written(frameBytes);
    }
  }

  method EncodeNamed(s: Settings, buf: array<u8>, at: nat) returns (written: nat)
    requires Small(Entries(s)) && Small(NamedEntries(s)) && at + |EntryBytes(NamedEntries(s))| <= buf.Length
    modifies buf
    ensures written == |EntryBytes(NamedEntries(s))| && buf[..] == Spliced(old(buf[..]), at, EntryBytes(NamedEntries(s)))
  {
    ghost var was := buf[..];
    NoEntries(was, at);
    var a, b := One(MAX_FIELD_SECTION, s.maxFieldSection), One(CONNECT_PROTOCOL, s.connectProtocol);
    var c, d := One(QPACK_CAPACITY, s.qpackCapacity), One(QPACK_BLOCKED, s.qpackBlocked);
    assert [] + a == a;
    NamedPrefixes(a, b, c, d, One(H3_DATAGRAM, s.datagram));
    hide EntryBytes, One, Spliced, Small;
    written := EncodeOption(MAX_FIELD_SECTION, s.maxFieldSection, buf, at, 0, was, []);
    written := EncodeOption(CONNECT_PROTOCOL, s.connectProtocol, buf, at, written, was, a);
    written := EncodeOption(QPACK_CAPACITY, s.qpackCapacity, buf, at, written, was, a + b);
    written := EncodeOption(QPACK_BLOCKED, s.qpackBlocked, buf, at, written, was, a + b + c);
    written := EncodeOption(H3_DATAGRAM, s.datagram, buf, at, written, was, a + b + c + d);
  }

  lemma NamedPrefixes(a: seq<Entry>, b: seq<Entry>, c: seq<Entry>, d: seq<Entry>, e: seq<Entry>)
    requires Small(a + b + c + d + e)
    ensures Small([]) && Small(a) && Small(a + b) && Small(a + b + c) && Small(a + b + c + d)
    ensures |EntryBytes(a)| <= |EntryBytes(a + b)| <= |EntryBytes(a + b + c)|
         <= |EntryBytes(a + b + c + d)| <= |EntryBytes(a + b + c + d + e)|
  {
    hide EntryBytes;
    SmallParts(a + b + c + d, e);
    SmallParts(a + b + c, d);
    SmallParts(a + b, c);
    SmallParts(a, b);
  }

  /** The named settings that are present, then the additional ones. */
  method EncodeSettings(s: Settings, buf: array<u8>, at: nat) returns (written: nat)
    requires Small(Entries(s)) && at + |SettingsBytes(s)| <= buf.Length
    modifies buf
    ensures written == |SettingsBytes(s)| && buf[..] == Spliced(old(buf[..]), at, SettingsBytes(s))
  {
    ghost var was := buf[..];
    SmallParts(NamedEntries(s), ExtraEntries(s));
    hide EntryBytes, One, Spliced, ExtraEntries, NamedEntries;
    written := EncodeNamed(s, buf, at);
    var n := EncodeEntries(ExtraEntries(s), buf, at + written);
    SpliceMore(was, at, EntryBytes(NamedEntries(s)), EntryBytes(ExtraEntries(s)));
    written := written + n;
  }

  predicate LargeEnough(capacities: seq<nat>) {
    forall i | 0 <= i < |capacities| :: capacities[i] >= MIN_BUFFER
  }

  /** Encodes a frame into buffers of these capacities, as far as they go: together they hold its bytes. */
  method Transmit(stream: EncodedStream, f: Outgoing, capacities: seq<nat>) returns (ok: bool, out: Bytes)
    requires Valid(stream.Model()) && (stream.state == Idle || stream.state == FrameComplete) && Sendable(f)
    requires LargeEnough(capacities)
    modifies stream
    ensures Valid(stream.Model())
    ensures ok == (f.OutSettings? && capacities != [] ==> !TooMany(f.settings))
    ensures ok && capacities != [] ==>
              && !Refuses(stream.Model()) && out + Pending(stream.Model()) == Wire(f)
              && |out| == Min(Sum(capacities), |Wire(f)|)
              && (out == Wire(f) ==> stream.state == Idle || stream.state == FrameComplete)
  {
    hide Pending, Wire, Spliced, Sendable, Emits, Valid, Refuses, TooMany;
    out := [];
    ok := stream.SetFrame(f);
    if capacities == [] {
      return;
    }
    ghost var many := Refuses(stream.Model());
    for i := 0 to |capacities|
      invariant Valid(stream.Model()) && many == Refuses(stream.Model()) == (f.OutSettings? && TooMany(f.settings))
      invariant many ==> i == 0
      invariant !many ==> out + Pending(stream.Model()) == Wire(f) && |out| == Min(Sum(capacities[..i]), |Wire(f)|)
      invariant !many && i > 0 && out == Wire(f) ==> stream.state == Idle || stream.state == FrameComplete
    {
      var buf := new u8[capacities[i]];
      ghost var e, was := stream.Model(), buf[..];
      var r := stream.Encode(buf);
      if r.Failed? {
        return false, [];
      }
      EmitsPrefix(e, stream.Model(), was, buf[..], r.n);
      out := out + buf[..r.n];
      assert capacities[..i + 1] == capacities[..i] + [capacities[i]];
      SumLast(capacities[..i], capacities[i]);
    }
    assert capacities[..|capacities|] == capacities;
  }

  lemma EmitsPrefix(e: Enc, e': Enc, was: Bytes, now: Bytes, n: nat)
    requires Emits(e, e', was, now, 0, n)
    ensures Valid(e) && Valid(e') && !Refuses(e) && !Refuses(e')
    ensures n <= |was| == |now| && Pending(e) == now[..n] + Pending(e')
  {
    hide Pending, Valid, Refuses;
  }

  /** DATA frames with these payloads. */
  function DataItems(payloads: seq<Bytes>): seq<H3Decoder.Item> {
    seq(|payloads|, i requires 0 <= i < |payloads| => H3Decoder.DataItem(payloads[i]))
  }

  predicate AllSendable(payloads: seq<Bytes>) {
    forall i | 0 <= i < |payloads| :: |payloads[i]| < VARINT_LIMIT
  }

  lemma {:induction false} ItemsPayloads(payloads: seq<Bytes>)
    ensures H3Decoder.Payloads(DataItems(payloads)) == Concat(payloads)
  {
    if payloads != [] {
      assert DataItems(payloads)[1..] == DataItems(payloads[1..]);
      ItemsPayloads(payloads[1..]);
    }
  }

  lemma {:induction false} OneMoreItem(payloads: seq<Bytes>, data: Bytes)
    requires AllSendable(payloads) && |data| < VARINT_LIMIT
    ensures
      H3Decoder.ItemBytes(DataItems(payloads + [data]))
      == H3Decoder.ItemBytes(DataItems(payloads)) + H3Decoder.FrameBytes(DATA, data)
    decreases |payloads|
  {
    hide H3Decoder.FrameBytes;
    var all := DataItems(payloads + [data]);
    if payloads == [] {
      assert all[1..] == [] && payloads + [data] == [data];
      var f := H3Decoder.FrameBytes(DATA, data);
      assert H3Decoder.ItemBytes(all) == f + [];
    } else {
      assert all[1..] == DataItems(payloads[1..] + [data]) by {
        assert (payloads + [data])[1..] == payloads[1..] + [data];
      }
      assert DataItems(payloads)[1..] == DataItems(payloads[1..]);
      OneMoreItem(payloads[1..], data);
    }
  }

  /** The buffers for each frame are large enough, and together have room for it. */
  predicate RoomForAll(payloads: seq<Bytes>, capacities: seq<seq<nat>>)
    requires AllSendable(payloads)
  {
    && |capacities| == |payloads|
    && forall i | 0 <= i < |payloads| ::
         LargeEnough(capacities[i]) && |H3Decoder.FrameBytes(DATA, payloads[i])| <= Sum(capacities[i])
  }

  /** DATA frames one after another, each through buffers of any capacities from 1024 on. */
  method TransmitAll(stream: EncodedStream, payloads: seq<Bytes>, capacities: seq<seq<nat>>) returns (out: Bytes)
    requires Valid(stream.Model()) && (stream.state == Idle || stream.state == FrameComplete)
    requires AllSendable(payloads) && RoomForAll(payloads, capacities)
    modifies stream
    ensures out == H3Decoder.ItemBytes(DataItems(payloads))
  {
    hide Valid, Pending, H3Decoder.FrameBytes, H3Decoder.ItemBytes;
    out := [];
    NoItems();
    for i := 0 to |payloads|
      invariant Valid(stream.Model()) && (stream.state == Idle || stream.state == FrameComplete)
      invariant AllSendable(payloads[..i]) && out == H3Decoder.ItemBytes(DataItems(payloads[..i]))
    {
      FrameIsNotEmpty(payloads[i]);
      var ok, bytes := Transmit(stream, OutData(payloads[i]), capacities[i]);
      assert payloads[..i + 1] == payloads[..i] + [payloads[i]];
      OneMoreItem(payloads[..i], payloads[i]);
      out := out + bytes;
    }
    assert payloads[..|payloads|] == payloads;
  }

  lemma NoItems()
    ensures H3Decoder.ItemBytes(DataItems([])) == []
  {
  }

  lemma FrameIsNotEmpty(data: Bytes)
    requires |data| < VARINT_LIMIT
    ensures H3Decoder.FrameBytes(DATA, data) != []
  {
    hide Varint;
  }

  /** From end to end: payloads sent through any buffers and received in any segments arrive as they were. */
  lemma DataArrives(payloads: seq<Bytes>, segments: seq<Bytes>)
    requires AllSendable(payloads) && segments != []
    requires Concat(segments) == H3Decoder.ItemBytes(DataItems(payloads))
    ensures
      var r := H3Decoder.RunSegments(H3Decoder.REQUEST, [], segments);
      r.Done? && r.unread == [] && H3Decoder.Body(r.out) == Concat(payloads)
  {
    ItemsPayloads(payloads);
    H3Decoder.DataEndToEnd(DataItems(payloads), segments);
  }

  /**
   SETTINGS from end to end: at the start of a control stream, in any segments,
   they come back, `Some([])` as `None`, exactly if the additional keys are
   neither reserved nor those of named settings.
   */
  lemma SettingsEndToEnd(s: Settings, segments: seq<Bytes>)
    requires Small(Entries(s)) && !TooMany(s)
    requires Concat(segments) == Varint(0) + Wire(OutSettings(s))
    ensures
      var r := H3Decoder.RunSegments(H3Decoder.UNIDIRECTIONAL, [], segments);
      r.Done? && r.s == H3Control.CONTROL_SET && r.unread == []
      && H3Decoder.Others(r.out) == [H3Decoder.SettingsFrame(Normal(s))] && H3Decoder.Body(r.out) == []
      <==> AllAdditional(ExtraEntries(s))
  {
    hide *;
    var es := Entries(s);
    SettingsFit(s);
    WireIsControl(s);
    StartIsValid();
    var u := H3Control.ControlBytes(EntryBytes(es));
    assert u[..|u|] == u;
    H3Control.SettingsInSegments(es, segments, |u|);
    SettingsRun(es);
    EntriesRoundTrip(s);
    SameSettings(H3Decoder.Run(H3Decoder.UNIDIRECTIONAL, u), H3Decoder.RunSegments(H3Decoder.UNIDIRECTIONAL, [], segments),
                 es, Normal(s));
  }

  lemma StartIsValid()
    ensures H3Decoder.Valid(H3Decoder.UNIDIRECTIONAL)
  {
  }

  lemma WireIsControl(s: Settings)
    requires Small(Entries(s)) && !TooMany(s)
    ensures Small(Entries(s)) && |EntryBytes(Entries(s))| < VARINT_LIMIT
    ensures Sendable(OutSettings(s))
    ensures H3Control.ControlBytes(EntryBytes(Entries(s))) == Varint(0) + Wire(OutSettings(s))
  {
    SettingsFit(s);
    hide EntryBytes, Varint;
  }

  // The run on the whole control stream.
  lemma SettingsRun(es: seq<Entry>)
    requires Small(es) && |EntryBytes(es)| < VARINT_LIMIT
    ensures
      var reading := EnterAll(START, es);
      H3Decoder.Run(H3Decoder.UNIDIRECTIONAL, H3Control.ControlBytes(EntryBytes(es)))
      == if reading.Refused? then H3Decoder.Error(reading.error)
         else H3Decoder.Done(H3Control.CONTROL_SET, [], [H3Decoder.SettingsFrame(Outcome(reading))])
  {
    hide *;
    var u := H3Control.ControlBytes(EntryBytes(es));
    H3Control.SettingsThen(es, []);
    assert u + [] == u;
  }

  lemma SameSettings(r: H3Decoder.Result, r': H3Decoder.Result, es: seq<Entry>, s: Settings)
    requires H3Decoder.Same(r, r')
    requires
      var reading := EnterAll(START, es);
      r == if reading.Refused? then H3Decoder.Error(reading.error)
           else H3Decoder.Done(H3Control.CONTROL_SET, [], [H3Decoder.SettingsFrame(Outcome(reading))])
    ensures
      var reading := EnterAll(START, es);
      r'.Done? && r'.s == H3Control.CONTROL_SET && r'.unread == []
      && H3Decoder.Others(r'.out) == [H3Decoder.SettingsFrame(s)] && H3Decoder.Body(r'.out) == []
      <==> reading.Reading? && Outcome(reading) == s
  {
    OneSettings(es);
    hide EnterAll, Outcome, H3Decoder.Body, H3Decoder.Others;
  }

  lemma OneSettings(es: seq<Entry>)
    ensures
      var r := EnterAll(START, es);
      r.Reading? ==>
        var out := [H3Decoder.SettingsFrame(Outcome(r))];
        H3Decoder.Others(out) == out && H3Decoder.Body(out) == []
  {
  }
}
