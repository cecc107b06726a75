/** SETTINGS at the start of an HTTP/3 control stream, and what comes after them. */
module H3Control {
  import opened MachineWords
  import opened H3Octets
  import opened H3Frames
  import opened H3Decoder

  // Entries that end with the payload are read as they are, whatever follows.
  lemma {:induction false} EntriesAreRead(u: Bytes, i: nat, es: seq<Entry>, rest: Bytes, r: Reading)
    requires Small(es) && r.Reading? && i <= |u| && u[i..] == EntryBytes(es) + rest
    ensures
      var len := i + |EntryBytes(es)|;
      var sr := ReadEntries(u, i, len, r);
      sr.reading == EnterAll(r, es) && (sr.reading.Reading? ==> sr.index == len)
    decreases |es|
  {
    hide GetVarint, Varint, Enter;
    if es != [] {
      var n, m := VarintLen(es[0].0), VarintLen(es[0].1);
      OneEntry(u, i, es, rest);
      hide EntryBytes;
      var r' := Enter(r, es[0]);
      if r'.Reading? {
        EntriesAreRead(u, i + n + m, es[1..], rest, r');
      }
    }
  }

  lemma OneEntry(u: Bytes, i: nat, es: seq<Entry>, rest: Bytes)
    requires Small(es) && es != [] && i <= |u| && u[i..] == EntryBytes(es) + rest
    ensures
      var (k, v) := es[0];
      var n, m := VarintLen(k), VarintLen(v);
      && Small(es[1..]) && |EntryBytes(es)| == n + m + |EntryBytes(es[1..])|
      && i + n + m <= |u| && u[i + n + m..] == EntryBytes(es[1..]) + rest
      && GetVarint(u[i..]) == Some((k, n)) && GetVarint(u[i + n..]) == Some((v, m))
  {
    hide GetVarint, Varint;
    var (k, v) := es[0];
    var more := EntryBytes(es[1..]) + rest;
    assert EntryBytes(es) + rest == Varint(k) + (Varint(v) + more);
    TakeOff(u, i, Varint(k), Varint(v) + more);
    TakeOff(u, i + VarintLen(k), Varint(v), more);
    VarintRoundTrip(k, Varint(v) + more);
    VarintRoundTrip(v, more);
  }

  lemma TakeOff(u: Bytes, i: nat, a: Bytes, b: Bytes)
    requires i <= |u| && u[i..] == a + b
    ensures i + |a| <= |u| && u[i + |a|..] == b
  {
    assert u[i + |a|..] == u[i..][|a|..];
  }

  const CONTROL_SET := Stream(Control, AtFrameType, None, None, true)

  /** The control stream that begins with these settings. */
  function ControlBytes(p: Bytes): Bytes
    requires |p| < VARINT_LIMIT
  {
    Varint(0) + FrameBytes(SETTINGS, p)
  }

  // Up to the payload of the SETTINGS frame.
  lemma ControlHead(p: Bytes, rest: Bytes)
    requires |p| < VARINT_LIMIT
    ensures
      var s := CONTROL_SET.(frameType := Some(SETTINGS), payloadLen := Some(|p|), state := AtSettings);
      Run(UNIDIRECTIONAL, ControlBytes(p) + rest) == Run(s, p + rest)
  {
    hide GetVarint, Varint, Run;
    var u := FrameBytes(SETTINGS, p) + rest;
    assert ControlBytes(p) + rest == Varint(0) + u;
    VarintRoundTrip(0, u);
    assert (Varint(0) + u)[VarintLen(0)..] == u;
    var c := Stream(Control, AtFrameType, None, None, false);
    assert StepOf(UNIDIRECTIONAL, Varint(0) + u) == Continue(c, u, []);
    RunContinue(UNIDIRECTIONAL, Varint(0) + u);
    PrefixedNone(Run(c, u));
    FrameHead(c, SETTINGS, p, rest);
  }

  lemma SettingsStepIs(s: Stream, es: seq<Entry>, rest: Bytes)
    requires Small(es) && s.payloadLen == Some(|EntryBytes(es)|)
    ensures
      var r := EnterAll(START, es);
      SettingsStep(s, EntryBytes(es) + rest) ==
        if r.Refused? then Fail(r.error)
        else if rest == [] then Return(Cleared(s), [], [SettingsFrame(Outcome(r))])
        else Continue(Cleared(s), EntryBytes(es) + rest, [SettingsFrame(Outcome(r))])
  {
    hide EntryBytes, EnterAll, ReadEntries, Outcome;
    var u := EntryBytes(es) + rest;
    assert u[0..] == u;
    EntriesAreRead(u, 0, es, rest, START);
    assert |u| == |EntryBytes(es)| <==> rest == [];
  }

  /**
   What the decoder does with the settings of a control stream. If bytes follow
   in the same call, the payload is read once more, as frames.
   */
  lemma SettingsThen(es: seq<Entry>, rest: Bytes)
    requires Small(es) && |EntryBytes(es)| < VARINT_LIMIT
    ensures
      var p := EntryBytes(es);
      var r := EnterAll(START, es);
      Run(UNIDIRECTIONAL, ControlBytes(p) + rest) ==
        if r.Refused? then Error(r.error)
        else if rest == [] then Done(CONTROL_SET, [], [SettingsFrame(Outcome(r))])
        else Prefixed([SettingsFrame(Outcome(r))], Run(CONTROL_SET, p + rest))
  {
    var p := EntryBytes(es);
    ControlHead(p, rest);
    var s := CONTROL_SET.(frameType := Some(SETTINGS), payloadLen := Some(|p|), state := AtSettings);
    SettingsStepIs(s, es, rest);
    hide EntryBytes, EnterAll, SettingsStep, ControlBytes, Outcome;
    assert StepOf(s, p + rest) == SettingsStep(s, p + rest);
    hide StepOf;
    assert Cleared(s) == CONTROL_SET;
  }

  /**
   A control stream that ends with its SETTINGS frame gives these settings back,
   `Some([])` as `None`, exactly if the additional keys are additional ones.
   */
  lemma SettingsRoundTrip(s: Settings)
    requires Small(Entries(s)) && |EntryBytes(Entries(s))| < VARINT_LIMIT
    ensures
      Run(UNIDIRECTIONAL, ControlBytes(EntryBytes(Entries(s)))) == Done(CONTROL_SET, [], [SettingsFrame(Normal(s))])
      <==> AllAdditional(ExtraEntries(s))
  {
    var es := Entries(s);
    SettingsThen(es, []);
    EntriesRoundTrip(s);
    hide Run, EntryBytes, Entries, EnterAll, AllAdditional, ControlBytes;
    assert ControlBytes(EntryBytes(es)) + [] == ControlBytes(EntryBytes(es));
  }

  /** One more byte after the settings `QPACK_MAX_TABLE_CAPACITY = 0` makes the decoder see a HEADERS frame. */
  lemma SettingsAreReadAgain(b: u8)
    ensures
      var p := EntryBytes([(QPACK_CAPACITY, 0)]);
      |p| < VARINT_LIMIT && Run(UNIDIRECTIONAL, ControlBytes(p) + [b]) == Error(UnexpectedFrame(HEADERS))
  {
    var es := [(QPACK_CAPACITY, 0)];
    var p := EntryBytes(es);
    EntryBytesBound(es);
    SettingsThen(es, [b]);
    assert EnterAll(START, es) == EnterAll(Enter(START, es[0]), []) by { assert es[1..] == []; }
    var more := Varint(0) + EntryBytes([]) + [b];
    assert p + [b] == Varint(1) + more by {
      assert es[1..] == [];
      hide Varint;
      assert p == Varint(1) + (Varint(0) + EntryBytes([]));
    }
    HeadersAreRefused(more);
    hide EntryBytes, ControlBytes, StepOf, Varint;
  }

  lemma HeadersAreRefused(more: Bytes)
    ensures Run(CONTROL_SET, Varint(1) + more) == Error(UnexpectedFrame(HEADERS))
  {
    VarintRoundTrip(1, more);
    hide GetVarint, Varint;
    assert FrameTypeStep(CONTROL_SET, Varint(1) + more) == Fail(UnexpectedFrame(HEADERS));
  }

  // A strict prefix of the stream waits for the rest.
  lemma PrefixIsSpared(p: Bytes, k: nat)
    requires |p| < VARINT_LIMIT && k < |ControlBytes(p)|
    ensures Spared(UNIDIRECTIONAL, ControlBytes(p)[..k])
  {
    hide GetVarint, Varint;
    var u := ControlBytes(p)[..k];
    if GetVarint(u).Some? {
      var whole := Varint(0) + FrameBytes(SETTINGS, p);
      PrefixReads(0, FrameBytes(SETTINGS, p), k);
      var c := Stream(Control, AtFrameType, None, None, false);
      var n := VarintLen(0);
      var u1 := FrameBytes(SETTINGS, p)[..k - n];
      assert StepOf(UNIDIRECTIONAL, u) == Continue(c, u1, []);
      FramePrefixIsSpared(c, p, k - n);
      hide StepOf;
    }
  }

  lemma FramePrefixIsSpared(c: Stream, p: Bytes, k: nat)
    requires c == Stream(Control, AtFrameType, None, None, false) && |p| < VARINT_LIMIT && k < |FrameBytes(SETTINGS, p)|
    ensures Spared(c, FrameBytes(SETTINGS, p)[..k])
  {
    hide GetVarint, Varint;
    var tail := Varint(|p|) + p;
    var u := FrameBytes(SETTINGS, p)[..k];
    if GetVarint(u).Some? {
      PrefixReads(SETTINGS, tail, k);
      var n := VarintLen(SETTINGS);
      var u1 := tail[..k - n];
      var s1 := c.(frameType := Some(SETTINGS), state := AtPayloadLen, isSet := true);
      assert StepOf(c, u) == Continue(s1, u1, []);
      if GetVarint(u1).Some? {
        PrefixReads(|p|, p, k - n);
        var m := VarintLen(|p|);
        var s2 := s1.(payloadLen := Some(|p|), state := AtSettings);
        var u2 := p[..k - n - m];
        assert StepOf(s1, u1) == Continue(s2, u2, []);
        assert StepOf(s2, u2).Return?;
        assert Spared(s2, u2);
      }
      assert Spared(s1, u1);
    }
  }

  // A varint at the start of a prefix is read only as a whole.
  lemma PrefixReads(v: nat, tail: Bytes, k: nat)
    requires v < VARINT_LIMIT && k <= |Varint(v) + tail| && GetVarint((Varint(v) + tail)[..k]).Some?
    ensures
      var n := VarintLen(v);
      var u := (Varint(v) + tail)[..k];
      n <= k && GetVarint(u) == Some((v, n)) && u[n..] == tail[..k - n]
  {
    var n := VarintLen(v);
    var u := (Varint(v) + tail)[..k];
    if k < n {
      assert u == Varint(v)[..k];
      StrictPrefixFails(v, k);
    } else {
      hide GetVarint, Varint;
      assert u == Varint(v) + tail[..k - n];
      VarintRoundTrip(v, tail[..k - n]);
    }
  }

  lemma {:induction false} LastSegment(s: Stream, u: Bytes, segments: seq<Bytes>, last: Bytes)
    requires Valid(s)
    ensures
      var r := RunSegments(s, u, segments);
      && (r.Done? ==> Valid(r.s))
      && RunSegments(s, u, segments + [last]) == Then(r, last)
    decreases |segments|
  {
    hide Run;
    var all := segments + [last];
    if segments == [] {
      assert all[1..] == [];
      var r := Run(s, u + last);
      if r.Done? {
        assert r.out + [] == r.out && [] + r.out == r.out;
      }
    } else {
      assert all[0] == segments[0] && all[1..] == segments[1..] + [last];
      var r := Run(s, u + segments[0]);
      if r.Done? {
        LastSegment(r.s, r.unread, segments[1..], last);
        ThenPrefixed(r.out, RunSegments(r.s, r.unread, segments[1..]), last);
      }
    }
  }

  lemma SameThen(r: Result, r': Result, b: Bytes)
    requires Same(r, r') && (r.Done? ==> Valid(r.s))
    ensures Same(Then(r, b), Then(r', b))
  {
    hide Run, Body, Others;
    if r.Done? {
      SameOut(r.out, r'.out, Run(r.s, r.unread + b));
    }
  }

  // Nothing more comes after the settings.
  lemma SettingsThenNothing(es: seq<Entry>)
    requires Small(es) && |EntryBytes(es)| < VARINT_LIMIT
    ensures
      var r := Run(UNIDIRECTIONAL, ControlBytes(EntryBytes(es)));
      Same(r, Then(r, []))
  {
    hide EntryBytes, EnterAll, ControlBytes, Outcome, Body, Others, Run;
    var u := ControlBytes(EntryBytes(es));
    SettingsThen(es, []);
    assert u + [] == u;
    var r := Run(UNIDIRECTIONAL, u);
    if r.Done? {
      PartialIsSilent();
      ControlWaits();
      ThenDone(CONTROL_SET, r.out, []);
      OutConcat(r.out, [Partial]);
    }
  }

  lemma ControlWaits()
    ensures Run(CONTROL_SET, []) == Done(CONTROL_SET, [], [Partial])
  {
  }

  /** A control stream that ends with its settings may come in any segments. */
  lemma {:induction false} SettingsInSegments(es: seq<Entry>, segments: seq<Bytes>, k: nat)
    requires Small(es) && |EntryBytes(es)| < VARINT_LIMIT
    requires
      var u := ControlBytes(EntryBytes(es));
      k <= |u| && Concat(segments) == u[..k]
    ensures Same(Run(UNIDIRECTIONAL, ControlBytes(EntryBytes(es))[..k]), RunSegments(UNIDIRECTIONAL, [], segments))
    decreases |segments|
  {
    var p := EntryBytes(es);
    var u := ControlBytes(p);
    hide Run, ControlBytes, EntryBytes, Body, Others, Spared;
    if segments == [] {
      NothingYet();
      assert u[..k] == [];
    } else {
      var last := segments[|segments| - 1];
      var init := segments[..|segments| - 1];
      assert segments == init + [last];
      ConcatLast(init, last);
      var j := k - |last|;
      assert u[..k] == Concat(init) + last && u[..k][..j] == u[..j] == Concat(init);
      SettingsInSegments(es, init, j);
      LastSegment(UNIDIRECTIONAL, [], init, last);
      SameThen(Run(UNIDIRECTIONAL, u[..j]), RunSegments(UNIDIRECTIONAL, [], init), last);
      if j < |u| {
        PrefixIsSpared(p, j);
        CutInTwo(UNIDIRECTIONAL, u[..j], last);
      } else {
        assert last == [] && u[..k] == u[..j] == u;
        SettingsThenNothing(es);
      }
    }
  }

  lemma NothingYet()
    ensures Run(UNIDIRECTIONAL, []) == Done(UNIDIRECTIONAL, [], [])
  {
  }

  //
  // What follows the settings.
  //

  /** Whole frames of unknown type, one after the other, as the decoder would skip them. */
  predicate UnknownFrames(p: Bytes)
    decreases |p|
  {
    p == [] ||
    match GetVarint(p)
    case None => false
    case Some((t, n)) =>
      !KnownFrame(t) &&
      match GetVarint(p[n..])
      case None => false
      case Some((len, m)) => n + m + len <= |p| && UnknownFrames(p[n + m + len..])
  }

  /** All was read, nothing was handed out, and the stream is back between frames. */
  predicate Skipped(r: Result) {
    r.Done? && r.s == CONTROL_SET && r.unread == [] && Body(r.out) == [] && Others(r.out) == []
  }

  /** After the settings a control stream skips bytes exactly if they are whole frames of unknown type. */
  lemma {:induction false} SkipsExactly(p: Bytes)
    ensures Skipped(Run(CONTROL_SET, p)) <==> UnknownFrames(p)
    decreases |p|
  {
    hide GetVarint, Body, Others;
    PartialIsSilent();
    if p != [] && GetVarint(p).Some? {
      var (t, n) := GetVarint(p).value;
      if !Unexpected(CONTROL_SET, t) {
        var s1 := CONTROL_SET.(frameType := Some(t), state := AtPayloadLen);
        assert StepOf(CONTROL_SET, p) == Continue(s1, p[n..], []);
        RunContinue(CONTROL_SET, p);
        PrefixedNone(Run(s1, p[n..]));
        SkipsFrame(p, t, n);
      }
    }
  }

  lemma {:induction false} SkipsFrame(p: Bytes, t: nat, n: nat)
    requires p != [] && GetVarint(p) == Some((t, n)) && !Unexpected(CONTROL_SET, t)
    ensures
      var s := CONTROL_SET.(frameType := Some(t), state := AtPayloadLen);
      Skipped(Run(s, p[n..])) <==> UnknownFrames(p)
    decreases |p|, 0
  {
    hide GetVarint, Body, Others;
    var s, u := CONTROL_SET.(frameType := Some(t), state := AtPayloadLen), p[n..];
    if GetVarint(u).Some? {
      var (len, m) := GetVarint(u).value;
      var s' := s.(payloadLen := Some(len), state := PayloadState(t));
      assert StepOf(s, u) == Continue(s', u[m..], []);
      RunContinue(s, u);
      PrefixedNone(Run(s', u[m..]));
      assert u[m..] == p[n + m..];
      if KnownFrame(t) {
        NotSkipped(s', p[n + m..]);
      } else {
        var rest := p[n + m..];
        PayloadRun(s', rest);
        if len <= |rest| {
          assert rest[len..] == p[n + m + len..];
          hide Run, StepOf;
          RunFrameEnd(s', rest[len..], [], s', rest);
          PartialIsSilent();
          PrefixedNone(Run(CONTROL_SET, rest[len..]));
          SkipsExactly(rest[len..]);
        }
      }
    }
  }

  // GOAWAY and CANCEL_PUSH are handed out, or wait for their integer.
  lemma NotSkipped(s: Stream, u: Bytes)
    requires Valid(s) && s.state == AtVariable
    ensures !Skipped(Run(s, u))
  {
    hide GetVarint;
    if GetVarint(u).Some? {
      var (id, n) := GetVarint(u).value;
      var out := [IdFrame(s.frameType.value, id)];
      assert StepOf(s, u) == FrameEnd(s, u[n..], out);
      hide StepOf, Run;
      RunFrameEnd(s, u[n..], out, s, u);
      assert out[1..] == [] && Others(out) == out + [];
      var r := Run(Cleared(s), u[n..]);
      if r.Done? {
        OutConcat(out, r.out);
      }
    }
  }

  /** Where a call leaves a stream: bytes are missing for the next step. */
  predicate Waits(s: Stream, u: Bytes)
    requires Valid(s)
  {
    match s.state
    case AtData => u == [] && s.payloadLen.value > 0
    case AtUnknown => u == [] && s.payloadLen.value > 0
    case AtSettings => |u| < s.payloadLen.value
    case Outside => false
    case _ => GetVarint(u) == None
  }

  lemma {:induction false} RunWaits(s: Stream, u: Bytes)
    requires Valid(s)
    ensures Run(s, u).Done? ==> Waits(Run(s, u).s, Run(s, u).unread)
    decreases Measure(s, u)
  {
    hide ReadEntries, Unexpected;
    StepMakesProgress(s, u);
    if StepOf(s, u).Continue? {
      RunWaits(StepOf(s, u).s, StepOf(s, u).unread);
    }
  }

  // A varint that lacked bytes is complete with its last one.
  lemma LastByte(u: Bytes, b: u8)
    requires GetVarint(u) == None && GetVarint(u + [b]).Some?
    ensures GetVarint(u + [b]).value.1 == |u| + 1
  {
    if u != [] {
      assert (u + [b])[0] == u[0];
    }
  }

  /** The first byte of a varint of two. */
  const HALF: u8 := 0x40

  lemma HalfWaits()
    ensures GetVarint([HALF]) == GetVarint([]) == None && Run(CONTROL_SET, [HALF]) == Done(CONTROL_SET, [HALF], [Partial])
  {
  }

  // Only a stream between frames with nothing unread leaves half a varint alone.
  lemma HalfIsLeft(s: Stream, u: Bytes)
    requires PastSettings(s) && Waits(s, u)
    requires
      var r := Run(s, u + [HALF]);
      r.Done? && r.s == CONTROL_SET && r.unread == [HALF]
    ensures s == CONTROL_SET && u == []
  {
    var v := u + [HALF];
    HalfWaits();
    hide GetVarint;
    if s.state == AtData || s.state == AtUnknown {
      assert v == [HALF];
      HalfPayload(s);
    } else if GetVarint(v) == None {
      WaitsOn(s, v);
    } else {
      LastByte(u, HALF);
      HalfCompletes(s, u);
    }
  }

  lemma WaitsOn(s: Stream, v: Bytes)
    requires Valid(s) && Waits(s, v)
    requires s.state == AtFrameType || s.state == AtPayloadLen || s.state == AtVariable
    ensures Run(s, v).s == s && Run(s, v).unread == v
  {
    hide GetVarint;
  }

  lemma HalfPayload(s: Stream)
    requires InPayload(s) && s.payloadLen.value > 0
    ensures Run(s, [HALF]).Done? ==> Run(s, [HALF]).unread == []
  {
    PayloadRun(s, [HALF]);
    var len := s.payloadLen.value;
    if len == 1 {
      assert [HALF][1..] == [];
      RunFrameEnd(s, [], FullOut(s, [HALF][..1]), s, [HALF]);
    }
  }

  // The byte completes a varint: nothing is left of it.
  lemma HalfCompletes(s: Stream, u: Bytes)
    requires Valid(s) && (s.state == AtFrameType || s.state == AtPayloadLen || s.state == AtVariable)
    requires GetVarint(u + [HALF]).Some? && GetVarint(u + [HALF]).value.1 == |u| + 1
    ensures Run(s, u + [HALF]).Done? ==> Run(s, u + [HALF]).unread == []
  {
    hide GetVarint, Unexpected, Run, StepOf, Measure;
    var v := u + [HALF];
    assert v[GetVarint(v).value.1..] == [];
    StepLeavesNothing(s, v);
    match StepOf(s, v)
    case Continue(s', _, _) =>
      RunContinue(s, v);
      NothingUnread(s');
    case Return(_, _, _) => ReturnIsDone(s, v);
    case _ => FailIsError(s, v);
  }

  lemma StepLeavesNothing(s: Stream, v: Bytes)
    requires Valid(s) && (s.state == AtFrameType || s.state == AtPayloadLen || s.state == AtVariable)
    requires GetVarint(v).Some? && v[GetVarint(v).value.1..] == []
    ensures StepOf(s, v).Continue? ==> StepOf(s, v).unread == []
    ensures StepOf(s, v).Return? ==> StepOf(s, v).unread == []
  {
    hide GetVarint, Unexpected;
  }

  lemma NothingUnread(s: Stream)
    requires Valid(s)
    ensures Run(s, []).Done? ==> Run(s, []).unread == []
  {
  }

  lemma FailIsError(s: Stream, u: Bytes)
    requires Valid(s) && (StepOf(s, u).Fail? || StepOf(s, u).Elsewhere?)
    ensures !Run(s, u).Done?
  {
    hide StepOf;
  }

  /**
   Bytes before others on a control stream make no difference, whatever the
   others are, exactly if they are whole frames of unknown type. Half a varint
   behind them is enough to tell.
   */
  lemma TransparentExactly(p: Bytes)
    ensures (forall rest: Bytes :: Same(Run(CONTROL_SET, p + rest), Run(CONTROL_SET, rest))) <==> UnknownFrames(p)
    ensures Same(Run(CONTROL_SET, p + [HALF]), Run(CONTROL_SET, [HALF])) <==> UnknownFrames(p)
  {
    hide Run, UnknownFrames, Body, Others;
    SkipsExactly(p);
    if UnknownFrames(p) {
      forall rest: Bytes
        ensures Same(Run(CONTROL_SET, p + rest), Run(CONTROL_SET, rest))
      {
        SkippedThen(p, rest);
      }
      assert Same(Run(CONTROL_SET, p + [HALF]), Run(CONTROL_SET, [HALF]));
    } else {
      if Same(Run(CONTROL_SET, p + [HALF]), Run(CONTROL_SET, [HALF])) {
        HalfTells(p);
      }
    }
  }

  lemma SkippedThen(p: Bytes, rest: Bytes)
    requires Skipped(Run(CONTROL_SET, p))
    ensures Same(Run(CONTROL_SET, p + rest), Run(CONTROL_SET, rest))
  {
    hide Run, Spared, Body, Others, Same, Then, PastSettings;
    var r := Run(CONTROL_SET, p);
    PastControl();
    PastSettingsIsSpared(CONTROL_SET, p);
    CutInTwo(CONTROL_SET, p, rest);
    ThenDone(CONTROL_SET, r.out, rest);
    SilentOut(r.out, Run(CONTROL_SET, rest));
    SameBoth(Run(CONTROL_SET, p + rest), Prefixed(r.out, Run(CONTROL_SET, rest)), Run(CONTROL_SET, rest));
  }

  lemma PastControl()
    ensures PastSettings(CONTROL_SET)
  {
  }

  lemma SameBoth(a: Result, b: Result, c: Result)
    requires Same(a, b) && Same(c, b)
    ensures Same(a, c)
  {
    hide Body, Others;
  }

  lemma HalfTells(p: Bytes)
    requires Same(Run(CONTROL_SET, p + [HALF]), Run(CONTROL_SET, [HALF]))
    ensures Skipped(Run(CONTROL_SET, p))
  {
    hide Run, Spared, Body, Others, PastSettings, Waits, Same, Then, Prefixed;
    var r := Run(CONTROL_SET, p);
    PastControl();
    PastSettingsIsSpared(CONTROL_SET, p);
    CutInTwo(CONTROL_SET, p, [HALF]);
    HalfWaits();
    HalfLeft(Run(CONTROL_SET, p + [HALF]), r);
    RunWaits(CONTROL_SET, p);
    HalfIsLeft(r.s, r.unread);
  }

  // What the second of two calls leaves, and what both of them do not hand out.
  lemma HalfLeft(whole: Result, r: Result)
    requires (r.Done? ==> Valid(r.s)) && Same(whole, Done(CONTROL_SET, [HALF], [Partial])) && Same(whole, Then(r, [HALF]))
    ensures r.Done? && Body(r.out) == [] && Others(r.out) == []
    ensures
      var more := Run(r.s, r.unread + [HALF]);
      more.Done? && more.s == CONTROL_SET && more.unread == [HALF]
  {
    PartialIsSilent();
    hide Run, Body, Others;
    var more := Run(r.s, r.unread + [HALF]);
    OutConcat(r.out, more.out);
  }

  /** What follows the stream so far in one call is decoded as it is in a call of its own. */
  predicate AsIntended(u: Bytes, rest: Bytes) {
    Same(Run(UNIDIRECTIONAL, u + rest), Then(Run(UNIDIRECTIONAL, u), rest))
  }

  /**
   Whatever follows the settings is decoded as intended, exactly if the payload of
   the settings, read as frames, consists of whole frames of unknown type.
   */
  lemma SettingsFollowedExactly(es: seq<Entry>)
    requires Small(es) && |EntryBytes(es)| < VARINT_LIMIT && EnterAll(START, es).Reading?
    ensures (forall rest: Bytes :: AsIntended(ControlBytes(EntryBytes(es)), rest)) <==> UnknownFrames(EntryBytes(es))
  {
    hide *;
    var p := EntryBytes(es);
    TransparentExactly(p);
    if UnknownFrames(p) {
      forall rest: Bytes
        ensures AsIntended(ControlBytes(p), rest)
      {
        FollowedBy(es, rest);
      }
    } else {
      FollowedBy(es, [HALF]);
      assert !AsIntended(ControlBytes(p), [HALF]);
    }
  }

  /** For given bytes that follow: exactly if the payload, read as frames, makes no difference before them. */
  lemma FollowedBy(es: seq<Entry>, rest: Bytes)
    requires Small(es) && |EntryBytes(es)| < VARINT_LIMIT && EnterAll(START, es).Reading?
    ensures
      AsIntended(ControlBytes(EntryBytes(es)), rest)
      <==> rest == [] || Same(Run(CONTROL_SET, EntryBytes(es) + rest), Run(CONTROL_SET, rest))
  {
    hide EntryBytes, ControlBytes, EnterAll, Run, Same, Outcome;
    var p := EntryBytes(es);
    var u := ControlBytes(p);
    SettingsThen(es, []);
    SettingsThen(es, rest);
    SettingsThenNothing(es);
    assert u + [] == u && [] + rest == rest;
    var f := [SettingsFrame(Outcome(EnterAll(START, es)))];
    SamePrefixed(f, Run(CONTROL_SET, p + rest), Run(CONTROL_SET, rest));
  }

  lemma Single(b: u8, rest: Bytes)
    requires b < 64
    ensures GetVarint([b] + rest) == Some((b as nat, 1)) && ([b] + rest)[1..] == rest
  {
    var s := [b] + rest;
    assert s[..1] == [b];
    OneByte([b]);
  }

  /** The setting 0x21 = 0 is a frame of unknown type without a payload: any bytes may follow it. */
  lemma HarmlessSettings(rest: Bytes)
    ensures |EntryBytes([(0x21, 0)])| < VARINT_LIMIT && AsIntended(ControlBytes(EntryBytes([(0x21, 0)])), rest)
  {
    var es := [(0x21, 0)];
    HarmlessPayload(es);
    assert EnterAll(START, es) == EnterAll(Enter(START, es[0]), []) by { assert es[1..] == []; }
    hide EntryBytes, ControlBytes, AsIntended, UnknownFrames;
    SettingsFollowedExactly(es);
  }

  lemma HarmlessPayload(es: seq<Entry>)
    requires es == [(0x21, 0)]
    ensures |EntryBytes(es)| < VARINT_LIMIT && UnknownFrames(EntryBytes(es))
  {
    hide GetVarint, EntryBytes, Varint;
    var p := Varint(0x21) + Varint(0);
    assert EntryBytes(es) == p by { TwoVarints(es); }
    VarintRoundTrip(0x21, Varint(0));
    VarintRoundTrip(0, []);
    assert Varint(0) + [] == Varint(0);
    var q := p[VarintLen(0x21)..];
    assert q == Varint(0) && |p| == 2;
    assert UnknownFrames(p[1 + 1 + 0..]);
  }

  lemma TwoVarints(es: seq<Entry>)
    requires es == [(0x21, 0)]
    ensures EntryBytes(es) == Varint(0x21) + Varint(0)
  {
    hide Varint;
    assert es[1..] == [];
    assert EntryBytes(es) == Varint(0x21) + Varint(0) + [];
  }

  /** An entry that runs past the declared length: an error at the end of a call, read on otherwise. */
  lemma EntryPastTheEnd()
    ensures Run(UNIDIRECTIONAL, ControlBytes([0x21])) == Error(FrameSizeError(1))
    ensures
      Run(UNIDIRECTIONAL, ControlBytes([0x21]) + [0])
      == Done(CONTROL_SET, [], [SettingsFrame(DEFAULT.(additional := Some([(0x21, 0)])))])
  {
    var s := CONTROL_SET.(frameType := Some(SETTINGS), payloadLen := Some(1), state := AtSettings);
    ControlHead([0x21], []);
    ControlHead([0x21], [0]);
    EntryLacksValue();
    EntryHasValue();
    hide ControlBytes, ReadEntries;
    assert ControlBytes([0x21]) + [] == ControlBytes([0x21]);
    assert [0x21] + [] == [0x21] && [0x21] + [0] == [0x21, 0];
  }

  lemma EntryLacksValue()
    ensures ReadEntries([0x21], 0, 1, START).reading == Refused(FrameSizeError(1))
  {
    var u := [0x21];
    assert u[0..] == [0x21] + [] && u[0 + 1..] == [];
    Single(0x21, []);
  }

  lemma EntryHasValue()
    ensures ReadEntries([0x21, 0], 0, 1, START) == SettingsRead(Reading(DEFAULT, [(0x21, 0)]), 2)
  {
    var u := [0x21, 0];
    assert u[0..] == [0x21] + [0] && u[0 + 1..] == [0] + [];
    Single(0x21, [0]);
    Single(0, []);
    hide GetVarint;
    var r := Enter(START, (0x21, 0));
    assert r == Reading(DEFAULT, [] + [(0x21, 0)]);
    assert ReadEntries(u, 2, 1, r) == SettingsRead(r, 2);
  }

  //
  // Frames of one integer, and frames that are refused.
  //

  function IdBytes(t: nat, id: nat): Bytes
    requires t < VARINT_LIMIT && id < VARINT_LIMIT
  {
    Varint(t) + (Varint(VarintLen(id)) + Varint(id))
  }

  /** GOAWAY and CANCEL_PUSH frames are delivered with the integer that they carry. */
  lemma IdArrives(t: nat, id: nat, rest: Bytes)
    requires (t == 0x7 || t == 0x3) && id < VARINT_LIMIT
    ensures
      var out := [IdFrame(t, id)];
      Run(CONTROL_SET, IdBytes(t, id) + rest)
      == if rest == [] then Done(CONTROL_SET, [], out) else Prefixed(out, Run(CONTROL_SET, rest))
  {
    hide GetVarint, Varint, Run;
    var p := Varint(id);
    assert FrameBytes(t, p) == IdBytes(t, id);
    FrameHead(CONTROL_SET, t, p, rest);
    var s := CONTROL_SET.(frameType := Some(t), payloadLen := Some(|p|), state := AtVariable);
    VarintRoundTrip(id, rest);
    assert (p + rest)[VarintLen(id)..] == rest;
    assert StepOf(s, p + rest) == FrameEnd(s, rest, [IdFrame(t, id)]);
    hide StepOf;
    RunFrameEnd(s, rest, [IdFrame(t, id)], s, p + rest);
  }

  /** The frame types that are refused, by stream: a request, a control stream before its settings, and after them. */
  function RefusedTypes(s: Stream): set<nat> {
    if s.ty == Request then {0x3, 0x4, 0xd}
    else if s.isSet then {0x0, 0x1, 0x4, 0x5, 0xd}
    else {0x0, 0x1, 0x5, 0xd}
  }

  /** A frame of such a type is refused as soon as its type is there, and no other is. */
  lemma RefusedExactly(s: Stream, t: nat, rest: Bytes)
    requires Valid(s) && s.state == AtFrameType && (s.ty == Request || s.ty == Control) && t < VARINT_LIMIT
    ensures t in RefusedTypes(s) ==> Run(s, Varint(t) + rest) == Error(UnexpectedFrame(t))
    ensures t !in RefusedTypes(s) ==>
              StepOf(s, Varint(t) + rest)
              == Continue(s.(frameType := Some(t), state := AtPayloadLen, isSet := s.isSet || t == 0x4), rest, [])
  {
    hide GetVarint, Varint;
    VarintRoundTrip(t, rest);
    assert (Varint(t) + rest)[VarintLen(t)..] == rest;
  }

  /** Header blocks, and streams of other types, lead out of the model. */
  lemma LeadsOutside(t: nat, len: nat, rest: Bytes)
    requires (t == 0x1 || t == 0x5) && len < VARINT_LIMIT
    ensures Run(REQUEST, Varint(t) + (Varint(len) + rest)) == Beyond
  {
    hide GetVarint, Varint;
    var u, v := Varint(t) + (Varint(len) + rest), Varint(len) + rest;
    VarintRoundTrip(t, v);
    VarintRoundTrip(len, rest);
    assert u[VarintLen(t)..] == v && v[VarintLen(len)..] == rest;
    var s1 := REQUEST.(frameType := Some(t), state := AtPayloadLen);
    var s2 := s1.(payloadLen := Some(len), state := Outside);
    assert StepOf(REQUEST, u) == Continue(s1, v, []) && StepOf(s1, v) == Continue(s2, rest, []);
    assert StepOf(s2, rest) == Elsewhere;
    hide StepOf;
    RunContinue(REQUEST, u);
    RunContinue(s1, v);
  }

  /** Settings with a reserved identifier are refused with it, whatever comes behind it. */
  lemma ReservedIsRefused(es: seq<Entry>, k: nat, v: nat, more: seq<Entry>)
    requires EnterAll(START, es).Reading? && k in {0x0, 0x2, 0x3, 0x4, 0x5}
    ensures EnterAll(START, es + ([(k, v)] + more)) == Refused(UnsupportedSetting(k))
  {
    EnterConcat(START, es, [(k, v)] + more);
    assert ([(k, v)] + more)[0] == (k, v);
  }

  /** The identifiers of the named settings, in the order in which they are written, and how they are read. */
  lemma NamedSettings(a: nat, b: nat, c: nat, d: nat, e: nat)
    ensures
      var named := [(0x6, a), (0x8, b), (0x1, c), (0x7, d), (0x33, e)];
      var s := Settings(Some(a), Some(b), Some(c), Some(d), Some(e), None);
      Entries(s) == named && EnterAll(START, named) == Reading(s, [])
  {
    var s := Settings(Some(a), Some(b), Some(c), Some(d), Some(e), None);
    assert Entries(s) == NamedEntries(s) == [(0x6, a), (0x8, b), (0x1, c), (0x7, d), (0x33, e)];
    EnterNamed(s);
  }
}
