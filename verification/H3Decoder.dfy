/**
 The decoder of HTTP/3 streams, which may be handed a stream in any pieces:
 DATA, SETTINGS, frames of one integer, and frames of unknown type on request
 and control streams. Whatever needs QPACK or push ids is outside of it.
 */
module H3Decoder {
  import opened MachineWords
  import opened H3Octets
  import opened H3Frames

  datatype StreamType = Init | Request | Control | OtherStream

  datatype State =
    | AtStreamType | AtFrameType | AtPayloadLen | AtData | AtSettings | AtVariable | AtUnknown | Outside

  /** The stream between steps, without its buffer. */
  datatype Stream = Stream(
    ty: StreamType, state: State, frameType: Option<nat>, payloadLen: Option<nat>, isSet: bool)

  const REQUEST := Stream(Request, AtFrameType, None, None, false)
  const UNIDIRECTIONAL := Stream(Init, AtStreamType, None, None, false)

  /** What `decode` hands out; a DATA frame comes in one or more pieces. */
  datatype Kind = Piece(data: Bytes) | SettingsFrame(settings: Settings) | IdFrame(frameType: nat, id: nat) | Partial

  predicate Valid(s: Stream) {
    && (s.state == AtStreamType ==> s.ty == Init)
    && (s.state == AtPayloadLen ==> s.frameType.Some?)
    && (s.state in {AtData, AtSettings, AtVariable, AtUnknown} ==> s.payloadLen.Some?)
    && (s.state == AtVariable ==> s.frameType.Some?)
  }

  /** One step on the unread bytes. */
  datatype Step =
    | Continue(s: Stream, unread: Bytes, out: seq<Kind>)
    | Return(s: Stream, unread: Bytes, out: seq<Kind>)
    | Fail(error: H3Error)
    | Elsewhere

  function StreamTypeStep(s: Stream, u: Bytes): Step {
    match GetVarint(u)
    case None => Return(s, u, [])
    case Some((t, n)) =>
      if t == 0 then Continue(s.(ty := Control, state := AtFrameType), u[n..], [])
      else Continue(s.(ty := OtherStream, state := Outside), u[n..], [])
  }

  /** Frames that may not come on the stream. */
  predicate Unexpected(s: Stream, t: nat) {
    || ((t == DATA || t == HEADERS || t == PUSH_PROMISE) && s.ty != Request)
    || (t == SETTINGS && (s.ty != Control || s.isSet))
    || (t == CANCEL_PUSH && s.ty != Control)
    || t == MAX_PUSH_ID
  }

  function FrameTypeStep(s: Stream, u: Bytes): Step {
    match GetVarint(u)
    case None => Return(s, u, [Partial])
    case Some((t, n)) =>
      if Unexpected(s, t) then Fail(UnexpectedFrame(t))
      else Continue(s.(frameType := Some(t), state := AtPayloadLen, isSet := s.isSet || t == SETTINGS), u[n..], [])
  }

  function PayloadState(t: nat): State {
    if t == DATA then AtData
    else if t == HEADERS || t == PUSH_PROMISE then Outside
    else if t == SETTINGS then AtSettings
    else if t == GOAWAY || t == MAX_PUSH_ID || t == CANCEL_PUSH then AtVariable
    else AtUnknown
  }

  function PayloadLenStep(s: Stream, u: Bytes): Step
    requires s.frameType.Some?
  {
    match GetVarint(u)
    case None => Return(s, u, [Partial])
    case Some((len, n)) => Continue(s.(payloadLen := Some(len), state := PayloadState(s.frameType.value)), u[n..], [])
  }

  /** The stream after a frame. */
  function Cleared(s: Stream): Stream {
    s.(frameType := None, payloadLen := None, state := AtFrameType)
  }

  /** A frame is over: decoding goes on if bytes are left. */
  function FrameEnd(s: Stream, u: Bytes, out: seq<Kind>): Step {
    if u == [] then Return(Cleared(s), [], out) else Continue(Cleared(s), u, out)
  }

  function DataStep(s: Stream, u: Bytes): Step
    requires s.payloadLen.Some?
  {
    var len := s.payloadLen.value;
    if |u| < len then Return(s.(payloadLen := Some(len - |u|)), [], [Piece(u), Partial])
    else FrameEnd(s, u[len..], [Piece(u[..len])])
  }

  function UnknownStep(s: Stream, u: Bytes): Step
    requires s.payloadLen.Some?
  {
    var len := s.payloadLen.value;
    if |u| < len then Return(s.(payloadLen := Some(len - |u|)), [], [Partial])
    else FrameEnd(s, u[len..], [])
  }

  function VariableStep(s: Stream, u: Bytes): Step
    requires s.frameType.Some?
  {
    match GetVarint(u)
    case None => Return(s, u, [Partial])
    case Some((id, n)) => FrameEnd(s, u[n..], [IdFrame(s.frameType.value, id)])
  }

  /** Entries up to the length of the frame, and the index at which reading ends. */
  datatype SettingsRead = SettingsRead(reading: Reading, index: nat)

  function ReadEntries(u: Bytes, i: nat, len: nat, r: Reading): (sr: SettingsRead)
    requires i <= |u| && r.Reading?
    ensures sr.index <= |u|
    decreases |u| - i
  {
    if i >= len then SettingsRead(r, i)
    else
      match GetVarint(u[i..])
      case None => SettingsRead(Refused(FrameSizeError(len)), i)
      case Some((k, n)) =>
        match GetVarint(u[i + n..])
        case None => SettingsRead(Refused(FrameSizeError(len)), i)
        case Some((v, m)) =>
          var r' := Enter(r, (k, v));
          if r'.Refused? then SettingsRead(r', i) else ReadEntries(u, i + n + m, len, r')
  }

  /** If bytes follow, they are read from the start of the payload. */
  function SettingsStep(s: Stream, u: Bytes): Step
    requires s.payloadLen.Some?
  {
    var len := s.payloadLen.value;
    if |u| < len then Return(s, u, [Partial])
    else
      var sr := ReadEntries(u, 0, len, START);
      match sr.reading
      case Refused(e) => Fail(e)
      case Reading(_, _) =>
        var out := [SettingsFrame(Outcome(sr.reading))];
        if sr.index == |u| then Return(Cleared(s), [], out) else Continue(Cleared(s), u, out)
  }

  function StepOf(s: Stream, u: Bytes): Step
    requires Valid(s)
  {
    match s.state
    case AtStreamType => StreamTypeStep(s, u)
    case AtFrameType => FrameTypeStep(s, u)
    case AtPayloadLen => PayloadLenStep(s, u)
    case AtData => DataStep(s, u)
    case AtSettings => SettingsStep(s, u)
    case AtVariable => VariableStep(s, u)
    case AtUnknown => UnknownStep(s, u)
    case Outside => Elsewhere
  }

  /** Unread bytes first, then the rank of the state. */
  function Measure(s: Stream, u: Bytes): nat {
    2 * |u| + if s.state == AtFrameType then 0 else 1
  }

  lemma StepMakesProgress(s: Stream, u: Bytes)
    requires Valid(s)
    ensures
      match StepOf(s, u)
      case Continue(s', u', _) => Valid(s') && Measure(s', u') < Measure(s, u)
      case Return(s', _, _) => Valid(s')
      case _ => true
  {
    hide GetVarint, ReadEntries, Unexpected;
  }

  datatype Result = Done(s: Stream, unread: Bytes, out: seq<Kind>) | Error(error: H3Error) | Beyond

  /** One call of `decode`: the loop over the unread bytes. */
  function Run(s: Stream, u: Bytes): (r: Result)
    requires Valid(s)
    ensures r.Done? ==> Valid(r.s)
    decreases Measure(s, u)
  {
    StepMakesProgress(s, u);
    match StepOf(s, u)
    case Continue(s', u', out) => Prefixed(out, Run(s', u'))
    case Return(s', u', out) => Done(s', u', out)
    case Fail(e) => Error(e)
    case Elsewhere => Beyond
  }

  function Prefixed(out: seq<Kind>, r: Result): Result {
    match r
    case Done(s, u, more) => Done(s, u, out + more)
    case Error(e) => Error(e)
    case Beyond => Beyond
  }

  //
  // Segmentation.
  //

  function DataOf(k: Kind): Bytes {
    if k.Piece? then k.data else []
  }

  function OtherOf(k: Kind): seq<Kind> {
    if k.IdFrame? || k.SettingsFrame? then [k] else []
  }

  /** All data, in order. */
  function Body(out: seq<Kind>): Bytes {
    if out == [] then [] else DataOf(out[0]) + Body(out[1..])
  }

  /** All frames that do not carry data. */
  function Others(out: seq<Kind>): seq<Kind> {
    if out == [] then [] else OtherOf(out[0]) + Others(out[1..])
  }

  lemma {:induction false} OutConcat(a: seq<Kind>, b: seq<Kind>)
    ensures Body(a + b) == Body(a) + Body(b) && Others(a + b) == Others(a) + Others(b)
  {
    hide DataOf, OtherOf;
    if a == [] {
      assert a + b == b;
    } else {
      assert (a + b)[0] == a[0] && (a + b)[1..] == a[1..] + b;
      OutConcat(a[1..], b);
    }
  }

  /** The same stream, the same data and frames, though the data may come in other pieces. */
  predicate Same(r: Result, r': Result) {
    match r
    case Done(s, u, out) =>
      r'.Done? && r'.s == s && r'.unread == u && Body(r'.out) == Body(out) && Others(r'.out) == Others(out)
    case _ => r == r'
  }

  /** A second call with more bytes, after what the first has left. */
  function Then(r: Result, b: Bytes): Result
    requires r.Done? ==> Valid(r.s)
  {
    match r
    case Done(s, u, out) => Prefixed(out, Run(s, u + b))
    case _ => r
  }

  lemma SamePrefixed(out: seq<Kind>, r: Result, r': Result)
    ensures Same(Prefixed(out, r), Prefixed(out, r')) <==> Same(r, r')
  {
    if r.Done? && r'.Done? {
      OutConcat(out, r.out);
      OutConcat(out, r'.out);
      hide Body, Others;
      Cancel(Body(out), Body(r.out), Body(r'.out));
      Cancel(Others(out), Others(r.out), Others(r'.out));
    }
  }

  lemma Cancel<T>(a: seq<T>, b: seq<T>, c: seq<T>)
    ensures a + b == a + c <==> b == c
  {
    assert (a + b)[|a|..] == b && (a + c)[|a|..] == c;
  }

  // The steps under more bytes.

  // Entries that were read stay as they are; only one that lacks bytes may still change.
  lemma {:induction false} MoreEntries(u: Bytes, b: Bytes, i: nat, len: nat, r: Reading)
    requires i <= |u| && r.Reading?
    requires ReadEntries(u, i, len, r).reading != Refused(FrameSizeError(len))
    ensures ReadEntries(u + b, i, len, r) == ReadEntries(u, i, len, r)
    decreases |u| - i
  {
    hide GetVarint, Enter;
    if i < len {
      MoreBytesFollow(u[i..], b);
      assert (u + b)[i..] == u[i..] + b;
      var (k, n) := GetVarint(u[i..]).value;
      MoreBytesFollow(u[i + n..], b);
      assert (u + b)[i + n..] == u[i + n..] + b;
      var (v, m) := GetVarint(u[i + n..]).value;
      var r' := Enter(r, (k, v));
      if r'.Reading? {
        MoreEntries(u, b, i + n + m, len, r');
      }
    }
  }

  lemma MoreContinue(s: Stream, u: Bytes, b: Bytes)
    requires Valid(s) && StepOf(s, u).Continue?
    ensures
      var Continue(s', u', out) := StepOf(s, u);
      StepOf(s, u + b) == Continue(s', u' + b, out)
  {
    hide GetVarint, Unexpected, ReadEntries;
    if s.state == AtData || s.state == AtUnknown {
      var len := s.payloadLen.value;
      assert (u + b)[len..] == u[len..] + b && (u + b)[..len] == u[..len];
    } else if s.state == AtSettings {
      MoreEntries(u, b, 0, s.payloadLen.value, START);
    } else {
      MoreBytesFollow(u, b);
      var n := GetVarint(u).value.1;
      assert (u + b)[n..] == u[n..] + b;
    }
  }

  /**
   The bytes end where a SETTINGS payload does, or inside an entry that runs past
   the declared length: what the decoder does then depends on what follows.
   */
  predicate Exhausts(s: Stream, u: Bytes)
    requires Valid(s)
  {
    && s.state == AtSettings && u != [] && |u| >= s.payloadLen.value
    && var sr := ReadEntries(u, 0, s.payloadLen.value, START);
       if sr.reading.Reading? then sr.index == |u| else sr.reading.error == FrameSizeError(s.payloadLen.value)
  }

  /** Where the loop stops, and what it has handed out before its last step. */
  datatype Stop = Stop(s: Stream, unread: Bytes, out: seq<Kind>)

  function StopOf(s: Stream, u: Bytes): (r: Stop)
    requires Valid(s)
    ensures Valid(r.s)
    decreases Measure(s, u)
  {
    StepMakesProgress(s, u);
    match StepOf(s, u)
    case Continue(s', u', out) =>
      var r := StopOf(s', u');
      Stop(r.s, r.unread, out + r.out)
    case _ => Stop(s, u, [])
  }

  /** The loop does not stop at exhausted settings. */
  predicate Spared(s: Stream, u: Bytes)
    requires Valid(s)
  {
    !Exhausts(StopOf(s, u).s, StopOf(s, u).unread)
  }

  // With more bytes the loop comes to the same place and goes on from there.
  lemma {:induction false} RunMore(s: Stream, u: Bytes, b: Bytes)
    requires Valid(s)
    ensures
      var Stop(t, v, out) := StopOf(s, u);
      && !StepOf(t, v).Continue?
      && Run(s, u) == Prefixed(out, Run(t, v)) && Run(s, u + b) == Prefixed(out, Run(t, v + b))
    decreases Measure(s, u)
  {
    StepMakesProgress(s, u);
    match StepOf(s, u)
    case Continue(s', u', out) =>
      MoreContinue(s, u, b);
      StepMakesProgress(s, u + b);
      hide StepOf;
      RunMore(s', u', b);
      var Stop(t, v, more) := StopOf(s', u');
      PrefixedTwice(out, more, Run(t, v));
      PrefixedTwice(out, more, Run(t, v + b));
    case _ =>
      hide StepOf, Run;
      PrefixedNone(Run(s, u));
      PrefixedNone(Run(s, u + b));
  }

  /** No SETTINGS frame can come any more: on request streams, and once the settings are there. */
  predicate PastSettings(s: Stream) {
    && Valid(s) && s.state != AtSettings && s.state != AtStreamType
    && (s.state == AtPayloadLen ==> s.frameType != Some(SETTINGS))
    && (s.ty == Control ==> s.isSet)
  }

  lemma StaysPastSettings(s: Stream, u: Bytes)
    requires PastSettings(s)
    ensures StepOf(s, u).Continue? ==> PastSettings(StepOf(s, u).s)
    ensures StepOf(s, u).Return? ==> PastSettings(StepOf(s, u).s)
  {
    hide GetVarint;
  }

  lemma {:induction false} PastSettingsIsSpared(s: Stream, u: Bytes)
    requires PastSettings(s)
    ensures Spared(s, u)
    ensures Run(s, u).Done? ==> PastSettings(Run(s, u).s)
    decreases Measure(s, u)
  {
    StepMakesProgress(s, u);
    StaysPastSettings(s, u);
    if StepOf(s, u).Continue? {
      PastSettingsIsSpared(StepOf(s, u).s, StepOf(s, u).unread);
    }
  }

  lemma MoreFail(s: Stream, u: Bytes, b: Bytes)
    requires Valid(s) && !Exhausts(s, u) && (StepOf(s, u).Fail? || StepOf(s, u).Elsewhere?)
    ensures StepOf(s, u + b) == StepOf(s, u)
  {
    hide GetVarint;
    if s.state == AtSettings {
      MoreEntries(u, b, 0, s.payloadLen.value, START);
    } else if GetVarint(u).Some? {
      MoreBytesFollow(u, b);
    }
  }

  lemma ThenPrefixed(out: seq<Kind>, r: Result, b: Bytes)
    requires r.Done? ==> Valid(r.s)
    ensures Then(Prefixed(out, r), b) == Prefixed(out, Then(r, b))
  {
    hide Run;
    if r.Done? {
      var more := Run(r.s, r.unread + b);
      if more.Done? {
        assert out + r.out + more.out == out + (r.out + more.out);
      }
    }
  }

  // Markers and empty pieces carry nothing.
  lemma SilentOut(out: seq<Kind>, r: Result)
    requires Body(out) == [] && Others(out) == []
    ensures Same(r, Prefixed(out, r))
  {
    if r.Done? {
      OutConcat(out, r.out);
    }
  }

  lemma PartialIsSilent()
    ensures Body([Partial]) == Body([]) == [] && Others([Partial]) == Others([]) == []
  {
    assert [Partial][1..] == [];
  }

  lemma PieceOut(d: Bytes)
    ensures Body([Piece(d)]) == d == Body([Piece(d), Partial]) && Others([Piece(d)]) == [] == Others([Piece(d), Partial])
  {
    PartialIsSilent();
    assert [Piece(d)][1..] == [] && [Piece(d), Partial][1..] == [Partial];
  }

  // Two outputs of the same content before the same rest.
  lemma SameOut(a: seq<Kind>, b: seq<Kind>, r: Result)
    requires Body(a) == Body(b) && Others(a) == Others(b)
    ensures Same(Prefixed(a, r), Prefixed(b, r))
  {
    if r.Done? {
      OutConcat(a, r.out);
      OutConcat(b, r.out);
    }
  }

  // A frame ended with the first bytes.
  lemma EndThen(s: Stream, b: Bytes, out: seq<Kind>, r: Result)
    requires Valid(s)
    requires r == if b == [] then Done(Cleared(s), [], out) else Prefixed(out, Run(Cleared(s), b))
    ensures Same(r, Prefixed(out, Run(Cleared(s), b)))
  {
    if b == [] {
      PartialIsSilent();
      assert Run(Cleared(s), b) == Done(Cleared(s), [], [Partial]);
      OutConcat(out, [Partial]);
    } else if r.Done? {
    }
  }

  lemma RunFrameEnd(s: Stream, u: Bytes, out: seq<Kind>, t: Stream, v: Bytes)
    requires Valid(s) && Valid(t) && StepOf(t, v) == FrameEnd(s, u, out)
    ensures Run(t, v) == if u == [] then Done(Cleared(s), [], out) else Prefixed(out, Run(Cleared(s), u))
  {
    hide GetVarint, StepOf;
  }

  /** The output for `d` bytes of a payload that lacks more. */
  function ShortOut(s: Stream, d: Bytes): seq<Kind> {
    if s.state == AtData then [Piece(d), Partial] else [Partial]
  }

  function FullOut(s: Stream, d: Bytes): seq<Kind> {
    if s.state == AtData then [Piece(d)] else []
  }

  predicate InPayload(s: Stream) {
    Valid(s) && (s.state == AtData || s.state == AtUnknown)
  }

  lemma PayloadOut(s: Stream, d: Bytes)
    requires InPayload(s)
    ensures Body(ShortOut(s, d)) == Body(FullOut(s, d)) == if s.state == AtData then d else []
    ensures Others(ShortOut(s, d)) == Others(FullOut(s, d)) == []
  {
    PartialIsSilent();
    PieceOut(d);
  }

  lemma PayloadRun(s: Stream, u: Bytes)
    requires InPayload(s)
    ensures
      var len := s.payloadLen.value;
      if |u| < len then Run(s, u) == Done(s.(payloadLen := Some(len - |u|)), [], ShortOut(s, u))
      else StepOf(s, u) == FrameEnd(s, u[len..], FullOut(s, u[..len]))
  {
  }

  // Data and unknown payloads that the first bytes do not complete.
  lemma ShortThen(s: Stream, u: Bytes, b: Bytes)
    requires InPayload(s) && |u| < s.payloadLen.value
    ensures Same(Run(s, u + b), Then(Run(s, u), b))
  {
    if |u + b| < s.payloadLen.value {
      StillShort(s, u, b);
    } else {
      NowComplete(s, u, b);
    }
  }

  lemma StillShort(s: Stream, u: Bytes, b: Bytes)
    requires InPayload(s) && |u + b| < s.payloadLen.value
    ensures Same(Run(s, u + b), Then(Run(s, u), b))
  {
    hide Run, Body, Others, StepOf, ShortOut, FullOut;
    var s' := s.(payloadLen := Some(s.payloadLen.value - |u|));
    PayloadRun(s, u);
    PayloadRun(s, u + b);
    PayloadRun(s', b);
    assert [] + b == b;
    PayloadOut(s, u);
    PayloadOut(s, u + b);
    PayloadOut(s', b);
    OutConcat(ShortOut(s, u), ShortOut(s', b));
  }

  lemma NowComplete(s: Stream, u: Bytes, b: Bytes)
    requires InPayload(s) && |u| < s.payloadLen.value <= |u + b|
    ensures Same(Run(s, u + b), Then(Run(s, u), b))
  {
    var len := s.payloadLen.value;
    var s' := s.(payloadLen := Some(len - |u|));
    var n := len - |u|;
    var w, rest := b[..n], b[n..];
    PayloadRun(s, u);
    PayloadRun(s, u + b);
    PayloadRun(s', b);
    assert (u + b)[len..] == rest && (u + b)[..len] == u + w && [] + b == b;
    PayloadOut(s, u);
    PayloadOut(s, u + w);
    PayloadOut(s', w);
    hide *;
    RunFrameEnd(s, rest, FullOut(s, u + w), s, u + b);
    RunFrameEnd(s', rest, FullOut(s', w), s', b);
    OutConcat(ShortOut(s, u), FullOut(s', w));
    ClearedAlike(s, n);
    CompletedAlike(s, rest, FullOut(s, u + w), ShortOut(s, u), FullOut(s', w), Run(s, u + b), Run(s', b));
    ThenDone(s', ShortOut(s, u), b);
  }

  lemma ClearedAlike(s: Stream, n: nat)
    ensures Cleared(s.(payloadLen := Some(n))) == Cleared(s)
  {
  }

  lemma ThenDone(s: Stream, out: seq<Kind>, b: Bytes)
    requires Valid(s)
    ensures Then(Done(s, [], out), b) == Prefixed(out, Run(s, b))
  {
    hide Run;
    assert [] + b == b;
  }

  lemma CompletedAlike(s: Stream, rest: Bytes, whole: seq<Kind>, first: seq<Kind>, second: seq<Kind>, r: Result, r2: Result)
    requires Valid(s)
    requires Body(whole) == Body(first + second) && Others(whole) == Others(first + second)
    requires r == if rest == [] then Done(Cleared(s), [], whole) else Prefixed(whole, Run(Cleared(s), rest))
    requires r2 == if rest == [] then Done(Cleared(s), [], second) else Prefixed(second, Run(Cleared(s), rest))
    ensures Same(r, Prefixed(first, r2))
  {
    hide Run, Body, Others;
    if rest != [] {
      var t := Run(Cleared(s), rest);
      SameOut(whole, first + second, t);
      if t.Done? {
        assert first + (second + t.out) == first + second + t.out;
      }
    }
  }

  /**
   A stream cut in two gives the same stream, data and frames, or the same error,
   unless the first part exhausts a SETTINGS payload.
   */
  lemma CutInTwo(s: Stream, u: Bytes, b: Bytes)
    requires Valid(s) && Spared(s, u)
    ensures Same(Run(s, u + b), Then(Run(s, u), b))
  {
    var Stop(t, v, out) := StopOf(s, u);
    RunMore(s, u, b);
    StopThen(t, v, b);
    hide *;
    SamePrefixed(out, Run(t, v + b), Then(Run(t, v), b));
    ThenPrefixed(out, Run(t, v), b);
  }

  lemma StopThen(s: Stream, u: Bytes, b: Bytes)
    requires Valid(s) && !Exhausts(s, u) && !StepOf(s, u).Continue?
    ensures Same(Run(s, u + b), Then(Run(s, u), b))
  {
    hide Exhausts;
    match StepOf(s, u)
    case Return(_, _, _) =>
      if InPayload(s) && |u| < s.payloadLen.value {
        ShortThen(s, u, b);
      } else {
        CompleteThen(s, u, b);
      }
    case _ =>
      MoreFail(s, u, b);
  }

  /** The step ends a frame, or skips the empty SETTINGS payload at the end of the bytes. */
  predicate EndsFrame(s: Stream, u: Bytes)
    requires Valid(s)
  {
    StepOf(s, u).Return? && StepOf(s, u).s.state != s.state
  }

  lemma CompleteThen(s: Stream, u: Bytes, b: Bytes)
    requires Valid(s) && !Exhausts(s, u) && StepOf(s, u).Return?
    requires InPayload(s) ==> |u| >= s.payloadLen.value
    ensures Same(Run(s, u + b), Then(Run(s, u), b))
  {
    hide GetVarint, Run, Body, Others, Exhausts, ReadEntries;
    var Return(s', u', out) := StepOf(s, u);
    ReturnIsDone(s, u);
    if EndsFrame(s, u) {
      MoreEnd(s, u, b);
      hide StepOf;
      RunFrameEnd(s, b, out, s, u + b);
      assert [] + b == b;
      EndThen(s, b, out, Run(s, u + b));
    } else {
      PartialIsSilent();
      assert s' == s && u' == u && (out == [Partial] || out == []);
      SilentOut(out, Run(s, u + b));
    }
  }

  lemma ReturnIsDone(s: Stream, u: Bytes)
    requires Valid(s) && StepOf(s, u).Return?
    ensures Run(s, u) == Done(StepOf(s, u).s, StepOf(s, u).unread, StepOf(s, u).out)
  {
    hide StepOf;
  }

  lemma MoreEnd(s: Stream, u: Bytes, b: Bytes)
    requires Valid(s) && !Exhausts(s, u) && EndsFrame(s, u)
    ensures StepOf(s, u).s == Cleared(s) && StepOf(s, u).unread == []
    ensures StepOf(s, u + b) == FrameEnd(s, b, StepOf(s, u).out)
  {
    hide GetVarint, Unexpected;
    assert [] + b == b;
    if InPayload(s) {
      var len := s.payloadLen.value;
      assert (u + b)[len..] == u[len..] + b && (u + b)[..len] == u[..len];
    } else if s.state == AtSettings {
      MoreEntries(u, b, 0, s.payloadLen.value, START);
    } else {
      MoreBytesFollow(u, b);
      var n := GetVarint(u).value.1;
      assert (u + b)[n..] == u[n..] + b;
    }
  }

  /**
   The excluded cases, exactly. After settings that end with the first part, the
   second part is decoded as it should be, while in one piece the payload is
   decoded once more, as frames. An entry that runs past the declared length is
   an error at the end of the first part, and is read on from there in one piece.
   */
  lemma CutAfterSettings(s: Stream, u: Bytes, b: Bytes)
    requires Valid(s) && !Spared(s, u)
    ensures
      var Stop(t, v, out) := StopOf(s, u);
      var reading := ReadEntries(v, 0, t.payloadLen.value, START).reading;
      if reading.Reading? then
        var o := out + [SettingsFrame(Outcome(reading))];
        && Then(Run(s, u), b) == Prefixed(o, Run(Cleared(t), b))
        && (b != [] ==> Run(s, u + b) == Prefixed(o, Run(Cleared(t), v + b)))
      else
        && Then(Run(s, u), b) == Error(FrameSizeError(t.payloadLen.value))
        && Run(s, u + b) == Prefixed(out, Run(t, v + b))
  {
    var Stop(t, v, out) := StopOf(s, u);
    RunMore(s, u, b);
    var reading := ReadEntries(v, 0, t.payloadLen.value, START).reading;
    if reading.Reading? {
      var f := [SettingsFrame(Outcome(reading))];
      ReturnIsDone(t, v);
      SettingsMore(t, v, b);
      hide *;
      ThenPrefixed(out, Run(t, v), b);
      ThenDone(Cleared(t), f, b);
      PrefixedTwice(out, f, Run(Cleared(t), b));
      PrefixedTwice(out, f, Run(Cleared(t), v + b));
    }
  }

  lemma SettingsMore(t: Stream, v: Bytes, b: Bytes)
    requires Valid(t) && Exhausts(t, v) && ReadEntries(v, 0, t.payloadLen.value, START).reading.Reading?
    ensures
      var out := [SettingsFrame(Outcome(ReadEntries(v, 0, t.payloadLen.value, START).reading))];
      && StepOf(t, v) == Return(Cleared(t), [], out)
      && (b != [] ==> Run(t, v + b) == Prefixed(out, Run(Cleared(t), v + b)))
  {
    hide ReadEntries, Outcome;
    MoreEntries(v, b, 0, t.payloadLen.value, START);
    if b != [] {
      RunContinue(t, v + b);
    }
  }

  lemma RunContinue(s: Stream, u: Bytes)
    requires Valid(s) && StepOf(s, u).Continue?
    ensures Valid(StepOf(s, u).s)
    ensures Run(s, u) == Prefixed(StepOf(s, u).out, Run(StepOf(s, u).s, StepOf(s, u).unread))
  {
    StepMakesProgress(s, u);
    hide StepOf;
  }

  /** Exhausted settings make no difference exactly if their payload, read as frames, makes none. */
  lemma CutMattersExactly(s: Stream, u: Bytes, b: Bytes)
    requires Valid(s) && !Spared(s, u) && b != []
    requires ReadEntries(StopOf(s, u).unread, 0, StopOf(s, u).s.payloadLen.value, START).reading.Reading?
    ensures
      var Stop(t, v, _) := StopOf(s, u);
      Same(Run(s, u + b), Then(Run(s, u), b)) <==> Same(Run(Cleared(t), v + b), Run(Cleared(t), b))
  {
    var Stop(t, v, out) := StopOf(s, u);
    CutAfterSettings(s, u, b);
    hide *;
    var o := out + [SettingsFrame(Outcome(ReadEntries(v, 0, t.payloadLen.value, START).reading))];
    SamePrefixed(o, Run(Cleared(t), v + b), Run(Cleared(t), b));
  }

  /** One call of `decode` after another, up to the first error. */
  function RunSegments(s: Stream, u: Bytes, segments: seq<Bytes>): Result
    requires Valid(s)
    decreases |segments|
  {
    if segments == [] then Done(s, u, [])
    else
      match Run(s, u + segments[0])
      case Done(s', u', out) => Prefixed(out, RunSegments(s', u', segments[1..]))
      case r => r
  }

  /** No segment but the last exhausts a SETTINGS payload. */
  predicate SparesSettings(s: Stream, u: Bytes, segments: seq<Bytes>)
    requires Valid(s)
    decreases |segments|
  {
    |segments| > 1 ==>
      && Spared(s, u + segments[0])
      && match Run(s, u + segments[0])
         case Done(s', u', _) => SparesSettings(s', u', segments[1..])
         case _ => true
  }

  /** The data and the frames do not depend on the segments. */
  lemma {:induction false} SegmentsDoNotMatter(s: Stream, u: Bytes, segments: seq<Bytes>)
    requires Valid(s) && segments != [] && SparesSettings(s, u, segments)
    ensures Same(Run(s, u + Concat(segments)), RunSegments(s, u, segments))
    decreases |segments|
  {
    hide Run, Spared, Body, Others;
    var a, rest := segments[0], segments[1..];
    var first := Run(s, u + a);
    if rest == [] {
      assert a + [] == a;
      if first.Done? {
        assert first.out + [] == first.out;
      }
    } else {
      var more := Concat(rest);
      assert u + Concat(segments) == u + a + more;
      CutInTwo(s, u + a, more);
      if first.Done? {
        SegmentsDoNotMatter(first.s, first.unread, rest);
        SamePrefixed(first.out, Run(first.s, first.unread + more), RunSegments(first.s, first.unread, rest));
      }
    }
  }

  /** On request streams, and on control streams whose settings are there, any segments will do. */
  lemma {:induction false} PastSettingsSpares(s: Stream, u: Bytes, segments: seq<Bytes>)
    requires PastSettings(s)
    ensures SparesSettings(s, u, segments)
    decreases |segments|
  {
    hide Run, Spared;
    if |segments| > 1 {
      PastSettingsIsSpared(s, u + segments[0]);
      var r := Run(s, u + segments[0]);
      if r.Done? {
        PastSettingsSpares(r.s, r.unread, segments[1..]);
      }
    }
  }

  //
  // DATA frames and frames of unknown type on a request stream.
  //

  datatype Item = DataItem(payload: Bytes) | UnknownItem(frameType: nat, payload: Bytes)

  predicate ValidItem(i: Item) {
    && |i.payload| < VARINT_LIMIT
    && (i.UnknownItem? ==> i.frameType < VARINT_LIMIT && !KnownFrame(i.frameType))
  }

  predicate ValidItems(items: seq<Item>) {
    forall i | 0 <= i < |items| :: ValidItem(items[i])
  }

  function TypeOf(i: Item): nat {
    if i.DataItem? then DATA else i.frameType
  }

  function FrameBytes(t: nat, payload: Bytes): Bytes
    requires t < VARINT_LIMIT && |payload| < VARINT_LIMIT
  {
    Varint(t) + (Varint(|payload|) + payload)
  }

  function ItemBytes(items: seq<Item>): Bytes
    requires ValidItems(items)
  {
    if items == [] then [] else FrameBytes(TypeOf(items[0]), items[0].payload) + ItemBytes(items[1..])
  }

  /** The payloads of the DATA frames, one after the other. */
  function Payloads(items: seq<Item>): Bytes {
    if items == [] then []
    else (if items[0].DataItem? then items[0].payload else []) + Payloads(items[1..])
  }

  // Type and length of a frame.
  lemma FrameHead(s: Stream, t: nat, payload: Bytes, rest: Bytes)
    requires Valid(s) && s.state == AtFrameType && t < VARINT_LIMIT && |payload| < VARINT_LIMIT && !Unexpected(s, t)
    ensures
      var s' := s.(frameType := Some(t), payloadLen := Some(|payload|), state := PayloadState(t), isSet := s.isSet || t == SETTINGS);
      Valid(s') && Run(s, FrameBytes(t, payload) + rest) == Run(s', payload + rest)
  {
    hide GetVarint, Varint;
    var len := Varint(|payload|);
    var u2 := len + (payload + rest);
    var u1 := FrameBytes(t, payload) + rest;
    assert u1 == Varint(t) + u2;
    VarintRoundTrip(t, u2);
    VarintRoundTrip(|payload|, payload + rest);
    assert u1[VarintLen(t)..] == u2 && u2[VarintLen(|payload|)..] == payload + rest;
    var s1 := s.(frameType := Some(t), state := AtPayloadLen, isSet := s.isSet || t == SETTINGS);
    var s2 := s1.(payloadLen := Some(|payload|), state := PayloadState(t));
    assert StepOf(s, u1) == Continue(s1, u2, []);
    assert StepOf(s1, u2) == Continue(s2, payload + rest, []);
    hide StepOf;
    PrefixedNone(Run(s2, payload + rest));
    PrefixedNone(Run(s1, u2));
  }

  lemma PrefixedNone(r: Result)
    ensures Prefixed([], r) == r
  {
    if r.Done? {
      assert [] + r.out == r.out;
    }
  }

  lemma OneItem(i: Item, rest: Bytes)
    requires ValidItem(i)
    ensures
      var out := if i.DataItem? then [Piece(i.payload)] else [];
      Run(REQUEST, FrameBytes(TypeOf(i), i.payload) + rest)
      == if rest == [] then Done(REQUEST, [], out) else Prefixed(out, Run(REQUEST, rest))
  {
    var t := TypeOf(i);
    FrameHead(REQUEST, t, i.payload, rest);
    var s := REQUEST.(frameType := Some(t), payloadLen := Some(|i.payload|), state := PayloadState(t));
    var u := i.payload + rest;
    assert u[..|i.payload|] == i.payload && u[|i.payload|..] == rest;
    PayloadRun(s, u);
    hide Run, GetVarint, StepOf;
    RunFrameEnd(s, rest, FullOut(s, i.payload), s, u);
  }

  /** A request stream of DATA and unknown frames is read to its end; its data are the payloads. */
  lemma {:induction false} ItemsAreDecoded(items: seq<Item>)
    requires ValidItems(items)
    ensures
      var r := Run(REQUEST, ItemBytes(items));
      r.Done? && r.s == REQUEST && r.unread == [] && Body(r.out) == Payloads(items) && Others(r.out) == []
    decreases |items|
  {
    if items == [] {
      PartialIsSilent();
    } else {
      var i, rest := items[0], ItemBytes(items[1..]);
      OneItem(i, rest);
      PieceOut(i.payload);
      var out := if i.DataItem? then [Piece(i.payload)] else [];
      ItemsAreDecoded(items[1..]);
      hide Run, FrameBytes;
      if rest == [] {
        FramesAreNotEmpty(items[1..]);
      } else {
        OutConcat(out, Run(REQUEST, rest).out);
      }
    }
  }

  lemma FramesAreNotEmpty(items: seq<Item>)
    requires ValidItems(items)
    ensures ItemBytes(items) == [] ==> items == [] && Payloads(items) == []
  {
    hide Varint;
  }

  /** End to end: whatever the segments, the data delivered are the payloads. */
  lemma DataEndToEnd(items: seq<Item>, segments: seq<Bytes>)
    requires ValidItems(items)
    requires segments != [] && Concat(segments) == ItemBytes(items)
    ensures
      var r := RunSegments(REQUEST, [], segments);
      r.Done? && r.s == REQUEST && r.unread == [] && Body(r.out) == Payloads(items) && Others(r.out) == []
  {
    ItemsAreDecoded(items);
    PastSettingsSpares(REQUEST, [], segments);
    hide Run, RunSegments, Body, Others, SparesSettings;
    assert [] + Concat(segments) == Concat(segments);
    SegmentsDoNotMatter(REQUEST, [], segments);
  }

  //
  // The code.
  //

  /** What a step of the loop tells it to do. */
  datatype PartResult = GoOn | ReturnOuter | Failed(error: H3Error)

  predicate Took(step: Step, r: PartResult, s: Stream, u: Bytes, out: seq<Kind>) {
    match step
    case Continue(s', u', o) => r == GoOn && s == s' && u == u' && out == o
    case Return(s', u', o) => r == ReturnOuter && s == s' && u == u' && out == o
    case Fail(e) => r == Failed(e)
    case Elsewhere => false
  }

  class DecodedStream {
    var ty: StreamType
    var state: State
    var buffer: Bytes
    var offset: nat
    var frameType: Option<nat>
    var payloadLen: Option<nat>
    var streamSet: bool

    ghost predicate Ready()
      reads this
    {
      offset <= |buffer| && Valid(View())
    }

    ghost function View(): Stream
      reads this
    {
      Stream(ty, state, frameType, payloadLen, streamSet)
    }

    ghost function Unread(): Bytes
      requires offset <= |buffer|
      reads this
    {
      buffer[offset..]
    }

    constructor (bidirectional: bool)
      ensures Ready() && Unread() == [] && View() == if bidirectional then REQUEST else UNIDIRECTIONAL
    {
      ty, state := if bidirectional then Request else Init, if bidirectional then AtFrameType else AtStreamType;
      buffer, offset, frameType, payloadLen, streamSet := [], 0, None, None, false;
    }

    method ClearBuffer()
      modifies this`buffer, this`offset
      ensures buffer == [] && offset == 0
    {
      buffer, offset := [], 0;
    }

    /** After a frame of which the last byte is at the offset: the buffer goes if nothing is left in it. */
    method FinishFrame(remaining: nat) returns (r: PartResult)
      requires offset <= |buffer|
      modifies this
      ensures View() == Cleared(old(View())) && offset <= |buffer|
      ensures r == if remaining == 0 then ReturnOuter else GoOn
      ensures Unread() == if remaining == 0 then [] else old(Unread())
    {
      frameType, payloadLen, state := None, None, AtFrameType;
      if remaining == 0 {
        ClearBuffer();
        return ReturnOuter;
      }
      return GoOn;
    }

    method DecodeStreamType() returns (r: PartResult, out: seq<Kind>)
      requires Ready() && state == AtStreamType
      modifies this
      ensures Ready() && Took(StepOf(old(View()), old(Unread())), r, View(), Unread(), out)
    {
      hide GetVarint, FrameTypeStep, PayloadLenStep, DataStep, SettingsStep, VariableStep, UnknownStep;
      out := [];
      var reader := new ReadableBytes(buffer[offset..]);
      assert reader.buf[0..] == Unread();
      var v := reader.ReadVarint();
      if v.None? {
        return ReturnOuter, out;
      }
      assert buffer[offset + reader.idx..] == Unread()[reader.idx..];
      offset := offset + reader.idx;
      if v.value == 0 {
        ty, state := Control, AtFrameType;
      } else {
        ty, state := OtherStream, Outside;
      }
      return GoOn, out;
    }

    /** Which frames may come on which stream; SETTINGS only once. */
    method CheckFrameType(t: nat) returns (expected: bool)
      modifies this`streamSet
      ensures expected == !Unexpected(old(View()), t)
      ensures expected ==> streamSet == (old(streamSet) || t == SETTINGS)
    {
      if t == DATA || t == HEADERS || t == PUSH_PROMISE {
        return ty == Request;
      } else if t == SETTINGS {
        if ty != Control || streamSet {
          return false;
        }
        streamSet := true;
      } else if t == CANCEL_PUSH {
        return ty == Control;
      } else if t == MAX_PUSH_ID {
        return false;
      }
      return true;
    }

    method DecodeFrameType() returns (r: PartResult, out: seq<Kind>)
      requires Ready() && state == AtFrameType
      modifies this
      ensures offset <= |buffer| && Took(StepOf(old(View()), old(Unread())), r, View(), Unread(), out)
    {
      hide GetVarint, Unexpected, StreamTypeStep, PayloadLenStep, DataStep, SettingsStep, VariableStep, UnknownStep;
      out := [];
      var reader := new ReadableBytes(buffer[offset..]);
      assert reader.buf[0..] == Unread();
      var v := reader.ReadVarint();
      if v.None? {
        return ReturnOuter, [Partial];
      }
      assert buffer[offset + reader.idx..] == Unread()[reader.idx..];
      var t := v.value;
      var expected := CheckFrameType(t);
      if !expected {
        return Failed(UnexpectedFrame(t)), out;
      }
      frameType := Some(t);
      offset := offset + reader.idx;
      state := AtPayloadLen;
      return GoOn, out;
    }

    method DecodePayloadLen() returns (r: PartResult, out: seq<Kind>)
      requires Ready() && state == AtPayloadLen
      modifies this
      ensures Ready() && Took(StepOf(old(View()), old(Unread())), r, View(), Unread(), out)
    {
      hide GetVarint, FrameTypeStep, StreamTypeStep, DataStep, SettingsStep, VariableStep, UnknownStep;
      var reader := new ReadableBytes(buffer[offset..]);
      assert reader.buf[0..] == Unread();
      var v := reader.ReadVarint();
      if v.None? {
        return ReturnOuter, [Partial];
      }
      assert buffer[offset + reader.idx..] == Unread()[reader.idx..];
      payloadLen := v;
      offset := offset + reader.idx;
      state := PayloadState(frameType.value);
      return GoOn, [];
    }

    method DecodeDataPayload() returns (r: PartResult, out: seq<Kind>)
      requires Ready() && state == AtData
      modifies this
      ensures Ready() && Took(StepOf(old(View()), old(Unread())), r, View(), Unread(), out)
    {
      var len := payloadLen.value;
      var cap := |buffer| - offset;
      if cap < len {
        out := [Piece(buffer[offset..]), Partial];
        payloadLen := Some(len - cap);
        ClearBuffer();
        return ReturnOuter, out;
      }
      out := [Piece(buffer[offset..offset + len])];
      assert buffer[offset..offset + len] == Unread()[..len] && buffer[offset + len..] == Unread()[len..];
      offset := offset + len;
      r := FinishFrame(cap - len);
    }

    method DecodeUnknownPayload() returns (r: PartResult, out: seq<Kind>)
      requires Ready() && state == AtUnknown
      modifies this
      ensures Ready() && Took(StepOf(old(View()), old(Unread())), r, View(), Unread(), out)
    {
      var len := payloadLen.value;
      var cap := |buffer| - offset;
      if cap < len {
        ClearBuffer();
        payloadLen := Some(len - cap);
        return ReturnOuter, [Partial];
      }
      assert buffer[offset + len..] == Unread()[len..];
      offset := offset + len;
      out := [];
      r := FinishFrame(cap - len);
    }

    method DecodeVariablePayload() returns (r: PartResult, out: seq<Kind>)
      requires Ready() && state == AtVariable
      modifies this
      ensures Ready() && Took(StepOf(old(View()), old(Unread())), r, View(), Unread(), out)
    {
      hide GetVarint, FrameTypeStep, StreamTypeStep, DataStep, SettingsStep, PayloadLenStep, UnknownStep;
      var reader := new ReadableBytes(buffer[offset..]);
      assert reader.buf[0..] == Unread();
      var v := reader.ReadVarint();
      if v.None? {
        return ReturnOuter, [Partial];
      }
      out := [IdFrame(frameType.value, v.value)];
      assert buffer[offset + reader.idx..] == Unread()[reader.idx..];
      offset := offset + reader.idx;
      r := FinishFrame(|buffer| - offset);
    }

    /** The entries of the payload, read one by one. */
    method ReadSettings(len: nat) returns (reading: Reading, index: nat)
      requires Ready()
      ensures SettingsRead(reading, index) == ReadEntries(Unread(), 0, len, START)
    {
      hide GetVarint, Enter;
      ghost var u := Unread();
      var reader := new ReadableBytes(buffer[offset..]);
      var r := START;
      while reader.idx < len
        invariant reader.Valid() && reader.buf == u && r.Reading?
        invariant ReadEntries(u, 0, len, START) == ReadEntries(u, reader.idx, len, r)
        decreases |u| - reader.idx
      {
        var at := reader.idx;
        var key := reader.ReadVarint();
        if key.None? {
          return Refused(FrameSizeError(len)), at;
        }
        var value := reader.ReadVarint();
        if value.None? {
          return Refused(FrameSizeError(len)), at;
        }
        var r' := Enter(r, (key.value, value.value));
        if r'.Refused? {
          return r', at;
        }
        r := r';
      }
      return r, reader.idx;
    }

    /** The offset stays where it is, also when bytes are left. */
    method DecodeSettingsPayload() returns (r: PartResult, out: seq<Kind>)
      requires Ready() && state == AtSettings
      modifies this
      ensures offset <= |buffer| && Took(StepOf(old(View()), old(Unread())), r, View(), Unread(), out)
    {
      hide ReadEntries;
      var len := payloadLen.value;
      var cap := |buffer| - offset;
      if cap < len {
        return ReturnOuter, [Partial];
      }
      var reading, index := ReadSettings(len);
      if reading.Refused? {
        return Failed(reading.error), [];
      }
      out := [SettingsFrame(Outcome(reading))];
      r := FinishFrame(cap - index);
    }

    method DecodePart() returns (r: PartResult, out: seq<Kind>)
      requires Ready() && state != Outside
      modifies this
      ensures offset <= |buffer| && Took(StepOf(old(View()), old(Unread())), r, View(), Unread(), out)
      ensures !r.Failed? ==> Ready()
    {
      StepMakesProgress(View(), Unread());
      hide StepOf, Valid;
      match state
      case AtStreamType => r, out := DecodeStreamType();
      case AtFrameType => r, out := DecodeFrameType();
      case AtPayloadLen => r, out := DecodePayloadLen();
      case AtData => r, out := DecodeDataPayload();
      case AtSettings => r, out := DecodeSettingsPayload();
      case AtVariable => r, out := DecodeVariablePayload();
      case AtUnknown => r, out := DecodeUnknownPayload();
    }

    /** One call with more bytes of the stream. */
    method Decode(src: Bytes) returns (r: Result)
      requires Ready()
      modifies this
      ensures
        match Run(old(View()), old(Unread()) + src)
        case Done(s, u, out) => r == Done(s, u, out) && Ready() && View() == s && Unread() == u
        case other => r == other
    {
      hide StepOf, Valid, Measure;
      ghost var s0, u0 := View(), Unread() + src;
      buffer := buffer + src;
      assert Unread() == u0;
      var frames := [];
      PrefixedNone(Run(s0, u0));
      while state != Outside
        invariant Ready()
        invariant Run(s0, u0) == Prefixed(frames, Run(View(), Unread()))
        decreases Measure(View(), Unread())
      {
        ghost var s, u := View(), Unread();
        StepMakesProgress(s, u);
        var part, out := DecodePart();
        if part.Failed? {
          return Error(part.error);
        }
        if part == ReturnOuter {
          return Done(Stream(ty, state, frameType, payloadLen, streamSet), buffer[offset..], frames + out);
        }
        PrefixedTwice(frames, out, Run(View(), Unread()));
        frames := frames + out;
      }
      OutsideIsBeyond(View(), Unread());
      return Beyond;
    }
  }

  lemma PrefixedTwice(a: seq<Kind>, b: seq<Kind>, r: Result)
    ensures Prefixed(a, Prefixed(b, r)) == Prefixed(a + b, r)
  {
    if r.Done? {
      assert a + (b + r.out) == a + b + r.out;
    }
  }

  lemma OutsideIsBeyond(s: Stream, u: Bytes)
    requires Valid(s) && s.state == Outside
    ensures Run(s, u) == Beyond
  {
  }
}
