/**
 What the HTTP/2 encoder sends and what the decoder makes of it: fragments of
 DATA, header blocks in CONTINUATION frames, and lists of frames.
 */
module H2Transport {
  import opened MachineWords
  import opened H2Frames
  import opened H2Decoder
  import opened H2Encoder

  //
  // DATA.
  //

  function TotalLength(ws: seq<Wire>): nat {
    if ws == [] then 0 else ws[0].header.payloadLength + TotalLength(ws[1..])
  }

  /** The payloads, one after the other. */
  function Joined(ws: seq<Wire>): Bytes {
    if ws == [] then [] else ws[0].payload + Joined(ws[1..])
  }

  /** Fragments of `n` bytes under the limit `max`; an empty frame is one fragment. */
  function FragmentCount(n: nat, max: nat): nat
    requires max > 0
  {
    if n == 0 then 1 else (n + max - 1) / max
  }

  lemma CountStep(n: nat, max: nat)
    requires n > max > 0
    ensures FragmentCount(n, max) == 1 + FragmentCount(n - max, max)
  {
    AddOne(n - max + max - 1, max);
  }

  lemma CountOne(n: nat, max: nat)
    requires n <= max && max > 0
    ensures FragmentCount(n, max) == 1
  {
    if n > 0 {
      UniqueQuotient(n + max - 1, max, 1, n - 1);
    }
  }

  /** A fragment among `total` of them, with the flags of the frame only on the last. */
  predicate IsFragment(w: Wire, id: u32, flags: u8, max: nat, last: bool) {
    && w.header.frameType == DATA && w.header.streamId == id
    && w.header.payloadLength == |w.payload| <= max
    && w.header.flags == (if last then flags else NoEndStream(flags))
    && (!last ==> |w.payload| == max && !EndStream(w.header.flags))
  }

  /**
   Fragmentation conserves length: the number of frames, the declared lengths,
   their sum, and END_STREAM on the last frame only.
   */
  lemma {:induction false} FragmentsConserve(id: u32, flags: u8, data: Bytes, max: nat, n: nat)
    requires max > 0 && n <= |data|
    ensures
      var ws := DataWires(id, flags, data, max, n);
      && |ws| == FragmentCount(n, max) && TotalLength(ws) == n
      && forall i | 0 <= i < |ws| :: IsFragment(ws[i], id, flags, max, i == |ws| - 1)
    decreases n
  {
    var ws := DataWires(id, flags, data, max, n);
    hide FragmentCount, EndStream, NoEndStream;
    if n <= max {
      CountOne(n, max);
      assert ws[1..] == [];
    } else {
      CountStep(n, max);
      FragmentsConserve(id, flags, data, max, n - max);
      Cleared(flags);
      assert ws[1..] == DataWires(id, flags, data, max, n - max);
      assert IsFragment(ws[0], id, flags, max, false);
    }
  }

  lemma Cleared(flags: u8)
    ensures !EndStream(NoEndStream(flags)) && IsPadded(NoEndStream(flags)) == IsPadded(flags)
  {
    var q, r, s := flags / 8, flags % 8, flags % 2;
    assert flags == 8 * q + r && s <= r;
    assert (flags - s) / 8 == q;
  }

  lemma Below(i: nat, m: nat)
    requires m > 0
    ensures i % m < m && i % m <= i && (i < m ==> i % m == i)
  {
    if i < m {
      UniqueQuotient(i, m, 0, i);
    }
  }

  // The byte at position `i` of what is sent.
  lemma {:induction false} FragmentBytes(id: u32, flags: u8, data: Bytes, max: nat, n: nat, i: nat)
    requires max > 0 && n <= |data| && i < n
    ensures
      var all := Joined(DataWires(id, flags, data, max, n));
      |all| == n && all[i] == data[i % max]
    decreases n
  {
    var ws := DataWires(id, flags, data, max, n);
    Below(i, max);
    if n <= max {
      assert ws[1..] == [];
      assert Joined(ws) == data[..n] + [];
    } else {
      assert ws[1..] == DataWires(id, flags, data, max, n - max);
      FragmentBytes(id, flags, data, max, n - max, if i < max then 0 else i - max);
      if i >= max {
        AddOne(i - max, max);
      }
    }
  }

  /** Every fragment starts again at the first byte: the data repeats with period `max`. */
  predicate Periodic(data: Bytes, max: nat)
    requires max > 0
  {
    forall i | 0 <= i < |data| :: data[i] == data[i % max]
  }

  /** What is sent is the data exactly if the data repeats with the frame limit as period. */
  lemma FragmentsCarryData(id: u32, flags: u8, data: Bytes, max: nat)
    requires max > 0
    ensures Joined(DataWires(id, flags, data, max, |data|)) == data <==> Periodic(data, max)
    ensures |data| <= max ==> Periodic(data, max)
  {
    hide DataWires, Joined;
    var all := Joined(DataWires(id, flags, data, max, |data|));
    if data == [] {
      NoData(id, flags, data, max);
    } else {
      FragmentBytes(id, flags, data, max, |data|, 0);
      forall i | 0 <= i < |data|
        ensures data[i] == data[i % max] <==> all[i] == data[i]
        ensures |data| <= max ==> data[i] == data[i % max]
      {
        FragmentBytes(id, flags, data, max, |data|, i);
        Below(i, max);
      }
    }
  }

  lemma NoData(id: u32, flags: u8, data: Bytes, max: nat)
    requires max > 0 && data == []
    ensures Joined(DataWires(id, flags, data, max, |data|)) == data
  {
    var ws := DataWires(id, flags, data, max, 0);
    assert ws[1..] == [];
    assert Joined(ws) == data[..0] + [];
  }

  /** Three bytes under a limit of two: the third byte sent is the first one again. */
  lemma SecondFragmentRestarts()
    ensures Joined(DataWires(1, 0, [7, 8, 9], 2, 3)) == [7, 8, 7]
  {
    var ws := DataWires(1, 0, [7, 8, 9], 2, 3);
    var last := DataWires(1, 0, [7, 8, 9], 2, 1);
    assert [7, 8, 9][..1] == [7] && [7, 8, 9][..2] == [7, 8];
    assert last == [Wire(FrameHeader(1, 0, DATA, 1), [7])] && last[1..] == [];
    assert Joined(last) == [7] + [];
    assert ws[1..] == last && ws[0].payload == [7, 8];
  }

  /** The frames that the decoder delivers for fragments. */
  function DataFrames<P>(ws: seq<Wire>): seq<FrameKind<P>> {
    if ws == [] then []
    else [Complete(Frame(ws[0].header.streamId, ws[0].header.flags, Data(ws[0].payload)))] + DataFrames(ws[1..])
  }

  lemma {:induction false} FragmentsAreDelivered<H, P>(
    hp: Hpack<H, P>, c: Continuations, x: H, id: u32, flags: u8, data: Bytes, max: nat, n: nat)
    requires max > 0 && n <= |data| && id != 0 && !IsPadded(flags) && c.isEndHeaders
    ensures
      var ws := DataWires(id, flags, data, max, n);
      Sized(ws) && Process(hp, c, x, ws) == Processed(DataFrames(ws), c, x)
    decreases n
  {
    var ws := DataWires(id, flags, data, max, n);
    Cleared(flags);
    hide IsPadded, NoEndStream;
    if n <= max {
      assert ws[1..] == [];
    } else {
      FragmentsAreDelivered(hp, c, x, id, flags, data, max, n - max);
      assert ws[1..] == DataWires(id, flags, data, max, n - max);
    }
  }

  //
  // Header blocks.
  //

  /** HPACK fed with piece after piece. */
  function FeedAll<H, P>(hp: Hpack<H, P>, x: H, pieces: seq<Bytes>): Fed<H> {
    if pieces == [] then FedOk(x)
    else
      match hp.feed(x, pieces[0])
      case FedErr(e) => FedErr(e)
      case FedOk(x') => FeedAll(hp, x', pieces[1..])
  }

  /** A decoder to which it does not matter how a block is cut into pieces. */
  ghost predicate Streaming<H(!new), P>(hp: Hpack<H, P>) {
    && (forall x: H :: hp.feed(x, []) == FedOk(x))
    && (forall x: H, a: Bytes, b: Bytes :: hp.feed(x, a + b) ==
          match hp.feed(x, a)
          case FedErr(e) => FedErr(e)
          case FedOk(x') => hp.feed(x', b))
  }

  lemma {:induction false} PiecesMakeTheBlock<H(!new), P>(hp: Hpack<H, P>, x: H, pieces: seq<Bytes>)
    requires Streaming(hp)
    ensures FeedAll(hp, x, pieces) == hp.feed(x, Concat(pieces))
    decreases pieces
  {
    if pieces != [] {
      match hp.feed(x, pieces[0])
      case FedErr(_) =>
      case FedOk(x') => PiecesMakeTheBlock(hp, x', pieces[1..]);
    }
  }

  /** Partial for every frame of the block but the last. */
  function Partials<P>(n: nat): seq<FrameKind<P>> {
    if n == 0 then [] else [Partial] + Partials(n - 1)
  }

  /** What becomes of a block whose `n` frames were fed: one frame, with the id and flags of its HEADERS frame. */
  function BlockResult<H, P>(hp: Hpack<H, P>, fed: Fed<H>, n: nat, id: u32, flags: u8, c: Continuations): Processed<H, P>
    requires n > 0
  {
    match fed
    case FedErr(e) => Refused(e)
    case FedOk(x) =>
      match hp.finish(x)
      case FinishedErr(e) => Refused(e)
      case FinishedOk(x', parts) =>
        Processed(Partials(n - 1) + [Complete(Frame(id, flags, Headers(parts)))], c, x')
  }

  lemma {:induction false} ContinuationsAreFed<H, P>(
    hp: Hpack<H, P>, c: Continuations, x: H, id: u32, pieces: seq<Bytes>, max: nat)
    requires !c.isEndHeaders && c.streamId == id != 0 && c.promisedStreamId == 0 && pieces != [] && Fits(pieces, max)
    ensures
      var ws := ContinuationWires(id, pieces, max);
      Sized(ws) && Process(hp, c, x, ws) == BlockResult(hp, FeedAll(hp, x, pieces), |pieces|, id, c.flags, NO_BLOCK)
    decreases pieces
  {
    var ws := ContinuationWires(id, pieces, max);
    var rest := pieces[1..];
    assert ws[1..] == ContinuationWires(id, rest, max);
    assert EndHeaders(4) && !EndHeaders(0);
    if rest == [] {
      assert Partials<P>(0) == [];
    } else {
      match hp.feed(x, pieces[0])
      case FedErr(e) =>
        SizedContinuations(id, rest, max);
      case FedOk(x') =>
        ContinuationsAreFed(hp, c, x', id, rest, max);
        assert Accept(hp, c, x, ws[0]) == Good(Partial, c, x');
        var f: seq<FrameKind<P>> := Partials(|pieces| - 2);
        assert Partials(|pieces| - 1) == [Partial] + f;
        var r := Process(hp, c, x', ws[1..]);
        if r.Processed? {
          var last := [r.kinds[|r.kinds| - 1]];
          assert [Partial] + (f + last) == [Partial] + f + last;
        }
    }
  }

  lemma {:induction false} SizedContinuations(id: u32, pieces: seq<Bytes>, max: nat)
    ensures Sized(ContinuationWires(id, pieces, max)) <==> Fits(pieces, max)
    decreases pieces
  {
    if pieces != [] {
      var ws := ContinuationWires(id, pieces, max);
      assert ws[1..] == ContinuationWires(id, pieces[1..], max);
      SizedContinuations(id, pieces[1..], max);
      assert Sized(ws) <==> |ws[0].payload| == ws[0].header.payloadLength && Sized(ws[1..]) by {
        assert forall i | 1 <= i < |ws| :: ws[i] == ws[1..][i - 1];
      }
      assert Fits(pieces, max) <==> |pieces[0]| <= max && Fits(pieces[1..], max) by {
        assert forall i | 1 <= i < |pieces| :: pieces[i] == pieces[1..][i - 1];
      }
    }
  }

  /** The frames of a block declare their lengths exactly if the pieces for CONTINUATION frames keep to the limit. */
  lemma DeclaredExactly(id: u32, flags: u8, pieces: seq<Bytes>, max: nat)
    ensures Sized(HeaderWires(id, flags, pieces, max)) <==> Fits(RestPieces(pieces), max)
  {
    var ws := HeaderWires(id, flags, pieces, max);
    SizedContinuations(id, RestPieces(pieces), max);
    assert ws[1..] == ContinuationWires(id, RestPieces(pieces), max);
    assert forall i | 1 <= i < |ws| :: ws[i] == ws[1..][i - 1];
  }

  /** The pieces that are sent: at least one, be it empty. */
  function Sendable(pieces: seq<Bytes>): seq<Bytes> {
    [FirstPiece(pieces)] + RestPieces(pieces)
  }

  lemma ClearedEndHeaders(flags: u8)
    ensures !EndHeaders(NoEndHeaders(flags)) && IsPadded(NoEndHeaders(flags)) == IsPadded(flags)
    ensures HasPriority(NoEndHeaders(flags)) == HasPriority(flags)
  {
    if EndHeaders(flags) {
      var h := flags / 4;
      var k := h / 2;
      assert (flags - 4) / 4 == h - 1 && (h - 1) / 2 == k;
      assert flags / 8 == k && (flags - 4) / 8 == k;
      assert flags / 32 == k / 4 && (flags - 4) / 32 == (h - 1) / 8 == k / 4;
    }
  }

  lemma {:induction false} ContinuationShape(id: u32, pieces: seq<Bytes>, max: nat)
    requires Fits(pieces, max)
    ensures
      var ws := ContinuationWires(id, pieces, max);
      && |ws| == |pieces| && Joined(ws) == Concat(pieces)
      && forall i | 0 <= i < |ws| ::
           && ws[i].header.frameType == CONTINUATION && ws[i].header.streamId == id
           && ws[i].header.payloadLength == |ws[i].payload| && ws[i].payload == pieces[i]
           && ws[i].header.flags == (if i == |ws| - 1 then 4 else 0)
           && (EndHeaders(ws[i].header.flags) <==> i == |ws| - 1)
    decreases pieces
  {
    if pieces != [] {
      assert EndHeaders(4) && !EndHeaders(0);
      hide EndHeaders;
      ContinuationShape(id, pieces[1..], max);
      var ws := ContinuationWires(id, pieces, max);
      var more := ContinuationWires(id, pieces[1..], max);
      assert ws[1..] == more;
      assert forall i | 1 <= i < |ws| :: ws[i] == more[i - 1];
    }
  }

  /**
   A header block on the wire: a HEADERS frame, then CONTINUATION frames on its
   stream, together the block, with END_HEADERS on the last of them only.
   */
  lemma HeaderBlockShape(id: u32, flags: u8, pieces: seq<Bytes>, max: nat)
    requires EndHeaders(flags) && Fits(RestPieces(pieces), max)
    ensures
      var ws := HeaderWires(id, flags, pieces, max);
      && |ws| == |Sendable(pieces)| && Joined(ws) == Concat(pieces)
      && forall i | 0 <= i < |ws| ::
           && ws[i].header.frameType == (if i == 0 then HEADERS else CONTINUATION) && ws[i].header.streamId == id
           && ws[i].header.payloadLength == |ws[i].payload| && ws[i].payload == Sendable(pieces)[i]
           && ws[i].header.flags == (if i == 0 then SentFlags(flags, pieces) else if i == |ws| - 1 then 4 else 0)
           && (EndHeaders(ws[i].header.flags) <==> i == |ws| - 1)
  {
    var ws := HeaderWires(id, flags, pieces, max);
    var rest := RestPieces(pieces);
    ContinuationShape(id, rest, max);
    ClearedEndHeaders(flags);
    hide EndHeaders, NoEndHeaders;
    assert ws[1..] == ContinuationWires(id, rest, max);
    assert forall i | 1 <= i < |ws| :: ws[i] == ws[1..][i - 1];
    if pieces == [] {
      assert Joined(ws) == [] + Joined(ws[1..]);
    }
  }

  /** The flags of the HEADERS frame: without END_HEADERS if more frames follow. */
  function SentFlags(flags: u8, pieces: seq<Bytes>): u8 {
    if RestPieces(pieces) != [] then NoEndHeaders(flags) else flags
  }

  /**
   The part of the first piece that the decoder takes for the header block. The
   encoder writes no padding and no priority fields, but the flags say so.
   */
  function FirstFragment(flags: u8, pieces: seq<Bytes>): Fragment {
    var first := FirstPiece(pieces);
    FragmentOf(FrameHeader(0, flags, HEADERS, |first|), if HasPriority(flags) then 5 else 0, first)
  }

  function FedPieces(flags: u8, pieces: seq<Bytes>): seq<Bytes>
    requires FirstFragment(flags, pieces).Fragment?
  {
    var f := FirstFragment(flags, pieces);
    [FirstPiece(pieces)[f.start..f.end]] + RestPieces(pieces)
  }

  /** The decoder's HPACK gets the block exactly if neither PADDED nor PRIORITY is set. */
  lemma BlockIntactExactly(flags: u8, pieces: seq<Bytes>)
    ensures
      FirstFragment(flags, pieces).Fragment? && Concat(FedPieces(flags, pieces)) == Concat(pieces)
      <==> !IsPadded(flags) && !HasPriority(flags)
  {
    hide IsPadded, HasPriority;
    SendableBlock(pieces);
    var f := FirstFragment(flags, pieces);
    var first, rest := FirstPiece(pieces), RestPieces(pieces);
    assert Sendable(pieces)[1..] == rest;
    assert Concat(Sendable(pieces)) == first + Concat(rest);
    if f.Fragment? {
      var fed := FedPieces(flags, pieces);
      assert fed[1..] == rest && Concat(fed) == first[f.start..f.end] + Concat(rest);
      if !IsPadded(flags) && !HasPriority(flags) {
        assert first[0..|first|] == first;
      } else {
        assert |Concat(fed)| < |Concat(pieces)|;
      }
    }
  }

  /** What processing the frames of a block comes to. */
  function BlockOutcome<H, P>(hp: Hpack<H, P>, c: Continuations, x: H, id: u32, flags: u8, pieces: seq<Bytes>): Processed<H, P> {
    match FirstFragment(flags, pieces)
    case NoFragment(e) => Refused(e)
    case Fragment(_, _) =>
      BlockResult(hp, FeedAll(hp, x, FedPieces(flags, pieces)), |Sendable(pieces)|, id, SentFlags(flags, pieces),
                  if RestPieces(pieces) == [] then c else NO_BLOCK)
  }

  lemma BlockIsFed<H, P>(hp: Hpack<H, P>, c: Continuations, x: H, id: u32, flags: u8, pieces: seq<Bytes>, max: nat)
    requires c.isEndHeaders && c.promisedStreamId == 0 && id != 0 && EndHeaders(flags)
    requires Fits(RestPieces(pieces), max)
    ensures
      var ws := HeaderWires(id, flags, pieces, max);
      Sized(ws) && Process(hp, c, x, ws) == BlockOutcome(hp, c, x, id, flags, pieces)
  {
    HeaderBlockShape(id, flags, pieces, max);
    ClearedEndHeaders(flags);
    var ws := HeaderWires(id, flags, pieces, max);
    var rest := RestPieces(pieces);
    assert Sendable(pieces)[1..] == rest && ws[1..] == ContinuationWires(id, rest, max);
    var h := ws[0].header;
    assert FragmentOf(h, if HasPriority(h.flags) then 5 else 0, ws[0].payload) == FirstFragment(flags, pieces);
    hide Accept, EndHeaders, NoEndHeaders, IsPadded, HasPriority, FirstPiece, RestPieces, FragmentOf;
    FirstFrame(hp, c, x, ws[0]);
    if FirstFragment(flags, pieces).Fragment? {
      var fed := FedPieces(flags, pieces);
      assert fed[1..] == rest;
      if rest == [] {
        OnlyPiece(hp, x, fed, id, flags, c);
      } else {
        var c' := Continuations(NoEndHeaders(flags), EndStream(NoEndHeaders(flags)), id, false, 0);
        BlockGoesOn(hp, c, c', x, id, ws, fed, max);
      }
    }
  }

  lemma OnlyPiece<H, P>(hp: Hpack<H, P>, x: H, fed: seq<Bytes>, id: u32, flags: u8, c: Continuations)
    requires |fed| == 1
    ensures FeedAll(hp, x, fed) == hp.feed(x, fed[0])
    ensures Partials<P>(0) == []
  {
  }

  lemma BlockGoesOn<H, P>(
    hp: Hpack<H, P>, c: Continuations, c': Continuations, x: H, id: u32, ws: seq<Wire>, pieces: seq<Bytes>, max: nat)
    requires Sized(ws) && |ws| == |pieces| > 1 && ws[1..] == ContinuationWires(id, pieces[1..], max) && Fits(pieces[1..], max)
    requires !c'.isEndHeaders && c'.streamId == id != 0 && c'.promisedStreamId == 0
    requires Accept(hp, c, x, ws[0]) ==
               match hp.feed(x, pieces[0])
               case FedErr(e) => Bad(e)
               case FedOk(x') => Good(Partial, c', x')
    ensures Process(hp, c, x, ws) == BlockResult(hp, FeedAll(hp, x, pieces), |ws|, id, c'.flags, NO_BLOCK)
  {
    hide Accept;
    var rest := pieces[1..];
    match hp.feed(x, pieces[0])
    case FedErr(_) =>
    case FedOk(x') =>
      ContinuationsAreFed(hp, c', x', id, rest, max);
      var f: seq<FrameKind<P>> := Partials(|rest| - 1);
      assert Partials(|rest|) == [Partial] + f;
      var r := Process(hp, c', x', ws[1..]);
      if r.Processed? {
        var last := [r.kinds[|r.kinds| - 1]];
        assert [Partial] + (f + last) == [Partial] + f + last;
      }
  }

  lemma FirstFrame<H, P>(hp: Hpack<H, P>, c: Continuations, x: H, w: Wire)
    requires c.isEndHeaders && w.header.frameType == HEADERS && w.header.streamId != 0
    requires |w.payload| == w.header.payloadLength
    ensures
      var h := w.header;
      Accept(hp, c, x, w) ==
        match FragmentOf(h, if HasPriority(h.flags) then 5 else 0, w.payload)
        case NoFragment(e) => Bad(e)
        case Fragment(start, end) =>
          match hp.feed(x, w.payload[start..end])
          case FedErr(e) => Bad(e)
          case FedOk(x') =>
            if !EndHeaders(h.flags) then
              Good(Partial, Continuations(h.flags, EndStream(h.flags), h.streamId, false, c.promisedStreamId), x')
            else
              match hp.finish(x')
              case FinishedErr(e) => Bad(e)
              case FinishedOk(x'', parts) => Good(Complete(Frame(h.streamId, h.flags, Headers(parts))), c, x'')
  {
  }

  /** A frame that is cut into several keeps its other flags on every one of them. */
  lemma OtherFlagsAreKept(flags: u8)
    ensures !EndStream(NoEndStream(flags)) && !EndHeaders(NoEndHeaders(flags))
    ensures EndHeaders(NoEndStream(flags)) == EndHeaders(flags) && EndStream(NoEndHeaders(flags)) == EndStream(flags)
    ensures IsPadded(NoEndStream(flags)) == IsPadded(NoEndHeaders(flags)) == IsPadded(flags)
    ensures HasPriority(NoEndStream(flags)) == HasPriority(NoEndHeaders(flags)) == HasPriority(flags)
  {
    ClearedEndHeaders(flags);
    Cleared(flags);
    LowBit(flags);
  }

  lemma LowBit(flags: u8)
    ensures EndStream(NoEndHeaders(flags)) == EndStream(flags)
    ensures EndHeaders(NoEndStream(flags)) == EndHeaders(flags)
    ensures HasPriority(NoEndStream(flags)) == HasPriority(flags)
  {
    var s := flags % 2;
    var h, k := flags / 4, flags / 32;
    assert (flags - s) / 4 == h && (flags - s) / 32 == k;
  }

  /** The completed frame of a block carries END_STREAM exactly if the frame that was sent did. */
  lemma EndStreamArrives<H, P>(hp: Hpack<H, P>, c: Continuations, x: H, id: u32, flags: u8, pieces: seq<Bytes>)
    requires BlockOutcome(hp, c, x, id, flags, pieces).Processed?
    ensures
      var kinds := BlockOutcome(hp, c, x, id, flags, pieces).kinds;
      && |kinds| == |Sendable(pieces)|
      && (forall i | 0 <= i < |kinds| - 1 :: kinds[i] == Partial)
      && var last := kinds[|kinds| - 1];
         && last.Complete? && last.frame.streamId == id && last.frame.payload.Headers?
         && (EndStream(last.frame.flags) <==> EndStream(flags))
         && (EndHeaders(last.frame.flags) <==> EndHeaders(flags) && RestPieces(pieces) == [])
  {
    OtherFlagsAreKept(flags);
    AllPartial<P>(|Sendable(pieces)| - 1);
    hide EndStream, EndHeaders, NoEndHeaders, FirstFragment, FedPieces;
  }

  lemma {:induction false} AllPartial<P>(n: nat)
    ensures |Partials<P>(n)| == n && forall i | 0 <= i < n :: Partials<P>(n)[i] == Partial
  {
    if n > 0 {
      AllPartial<P>(n - 1);
    }
  }

  /** The outcome of `decode` for frames processed one by one. */
  function OutcomeOf<H, P>(r: Processed<H, P>, d: Dec<H>): Outcome<H, P> {
    match r
    case Refused(e) => Error(e)
    case Processed(kinds, c, x) => Frames(kinds, Closed(d, c, x))
  }

  /**
   Transport of a header block: whatever pieces HPACK produced, the decoder hands
   its own HPACK the block, piece by piece, and delivers Partial for every frame
   but the last, which completes the HEADERS frame.
   */
  lemma HeaderBlockTransport<H, P>(hp: Hpack<H, P>, d: Dec<H>, id: u32, flags: u8, pieces: seq<Bytes>, max: nat)
    requires Valid(d) && d.stage == AtHeader && d.offset == 0 && d.cont.isEndHeaders
    requires 0 < id < 0x8000_0000 && EndHeaders(flags)
    requires DEFAULT_MAX_FRAME_SIZE <= d.maxFrameSize && DEFAULT_MAX_FRAME_SIZE <= max && Fits(pieces, DEFAULT_MAX_FRAME_SIZE)
    ensures
      Run(hp, d, WireBytes(HeaderWires(id, flags, pieces, max)))
      == OutcomeOf(BlockOutcome(hp, d.cont, d.hpack, id, flags, pieces), d)
  {
    var ws := HeaderWires(id, flags, pieces, max);
    HeaderBlockShape(id, flags, pieces, max);
    assert forall i | 0 <= i < |ws| :: WellFormed(ws[i], d.maxFrameSize);
    BlockIsFed(hp, d.cont, d.hpack, id, flags, pieces, max);
    hide *;
    WholeFrames(hp, d, ws);
  }

  /** For an HPACK that consumes a stream, and without PADDED and PRIORITY: it is fed exactly the block. */
  lemma BlockArrives<H(!new), P>(hp: Hpack<H, P>, c: Continuations, x: H, id: u32, flags: u8, pieces: seq<Bytes>)
    requires Streaming(hp) && !IsPadded(flags) && !HasPriority(flags)
    ensures
      BlockOutcome(hp, c, x, id, flags, pieces)
      == BlockResult(hp, hp.feed(x, Concat(pieces)), |Sendable(pieces)|, id, SentFlags(flags, pieces),
                     if RestPieces(pieces) == [] then c else NO_BLOCK)
  {
    hide IsPadded, HasPriority;
    BlockIntactExactly(flags, pieces);
    PiecesMakeTheBlock(hp, x, FedPieces(flags, pieces));
  }

  lemma SendableBlock(pieces: seq<Bytes>)
    ensures Concat(Sendable(pieces)) == Concat(pieces)
  {
    assert Sendable(pieces)[1..] == RestPieces(pieces);
    assert pieces == [] ==> Concat(Sendable(pieces)) == [] + Concat([]);
  }

  //
  // Lists of frames.
  //

  /** DATA and the frames that are sent whole. */
  predicate Plain<P>(f: Frame<P>) {
    (f.payload.Data? || IsControl(f.payload)) && ValidControl(f.payload)
  }

  function PlainWire<P>(f: Frame<P>): Wire
    requires Plain(f)
  {
    if f.payload.Data? then Wire(FrameHeader(f.streamId, f.flags, DATA, |f.payload.data|), f.payload.data)
    else ControlWire(f)
  }

  /** Frames that a decoder gives back as they were. */
  predicate Deliverable<P>(f: Frame<P>) {
    match f.payload
    case Data(data) => f.streamId != 0 && (data == [] || !IsPadded(f.flags))
    case Priority(_, dependency, _) => f.streamId != 0 && dependency < 0x8000_0000
    case RstStream(_) => f.streamId != 0
    case Settings(list) =>
      f.streamId == 0 && (Ack(f.flags) ==> list == []) && forall i | 0 <= i < |list| :: ValidSetting(list[i])
    case Ping(_) => f.streamId == 0
    case Goaway(_, last, _) => f.streamId == 0 && last < 0x8000_0000
    case WindowUpdate(increment) => 0 < increment < 0x8000_0000
    case _ => false
  }

  lemma SettingRefused(s: Setting)
    ensures !ValidSetting(s) ==> GetSetting(SettingId(s), SettingValue(s)).Rejected?
  {
  }

  lemma {:induction false} SettingsRefused(list: seq<Setting>, i: nat)
    requires i < |list| && !ValidSetting(list[i])
    ensures ParseSettings(SettingsBytes(list)).SettingsErr?
  {
    hide ValidSetting, GetSetting, U16, U32, Be16, Be32, SettingId, SettingValue;
    var s := list[0];
    var t := SettingsBytes(list);
    assert t[..2] == Be16(SettingId(s)) && t[2..6] == Be32(SettingValue(s)) && t[6..] == SettingsBytes(list[1..]);
    SettingIdSmall(s);
    Be16RoundTrip(SettingId(s));
    Be32RoundTrip(SettingValue(s));
    SettingRefused(s);
    if i > 0 {
      SettingsRefused(list[1..], i - 1);
    }
  }

  lemma SettingsExact(list: seq<Setting>)
    ensures ParseSettings(SettingsBytes(list)) == SettingsOk(list) <==> forall i | 0 <= i < |list| :: ValidSetting(list[i])
  {
    hide ValidSetting, ParseSettings, SettingsBytes;
    if forall i | 0 <= i < |list| :: ValidSetting(list[i]) {
      SettingsRoundTrip(list);
    } else {
      var i :| 0 <= i < |list| && !ValidSetting(list[i]);
      SettingsRefused(list, i);
    }
  }

  lemma DataExact<H, P>(hp: Hpack<H, P>, c: Continuations, x: H, f: Frame<P>)
    requires c.isEndHeaders && f.payload.Data?
    ensures Accept(hp, c, x, PlainWire(f)) == Good(Complete(f), c, x) <==> Deliverable(f)
  {
  }

  lemma PriorityExact<H, P>(hp: Hpack<H, P>, c: Continuations, x: H, f: Frame<P>)
    requires c.isEndHeaders && f.payload.Priority?
    ensures Accept(hp, c, x, PlainWire(f)) == Good(Complete(f), c, x) <==> Deliverable(f)
  {
    var d := f.payload.dependency % 0x8000_0000;
    PriorityFields(f.payload.exclusive, d);
    var t := ControlPayload(f.payload);
    assert t[..4] == Be32(d + if f.payload.exclusive then 0x8000_0000 else 0) && t[0] == t[..4][0];
    hide U31, Be32;
  }

  lemma PriorityFields(exclusive: bool, d: nat)
    requires d < 0x8000_0000
    ensures
      var t := Be32(d + if exclusive then 0x8000_0000 else 0);
      U31(t) == d && (t[0] >= 128 <==> exclusive)
  {
    TopBit(d);
    Be32RoundTrip(d);
    hide Be32;
    assert Be32(d) == [Be32(d)[0]] + Be32(d)[1..];
  }

  lemma GoawayExact<H, P>(hp: Hpack<H, P>, c: Continuations, x: H, f: Frame<P>)
    requires c.isEndHeaders && f.payload.Goaway?
    ensures Accept(hp, c, x, PlainWire(f)) == Good(Complete(f), c, x) <==> Deliverable(f)
  {
    var p := f.payload;
    var t := ControlPayload(p);
    assert t[..4] == Be32(p.lastStreamId) && t[4..8] == Be32(p.code) && t[8..] == p.debugData;
    Be32RoundTrip(p.lastStreamId);
    Be32RoundTrip(p.code);
    hide U31, U32, Be32;
  }

  lemma ShortExact<H, P>(hp: Hpack<H, P>, c: Continuations, x: H, f: Frame<P>)
    requires c.isEndHeaders && ValidControl(f.payload)
    requires f.payload.RstStream? || f.payload.WindowUpdate? || f.payload.Ping?
    ensures Accept(hp, c, x, PlainWire(f)) == Good(Complete(f), c, x) <==> Deliverable(f)
  {
    if f.payload.RstStream? { Be32RoundTrip(f.payload.error); }
    if f.payload.WindowUpdate? { Be32RoundTrip(f.payload.increment); }
    hide U31, U32, Be32;
  }

  lemma SettingsDecoded<P>(f: Frame<P>)
    requires f.payload.Settings?
    ensures
      var w := PlainWire(f);
      var list := f.payload.settings;
      && |w.payload| == w.header.payloadLength && w.header.frameType == SETTINGS && w.header.streamId == 0
      && DecodeControl(w.header, w.payload) ==
           if Ack(f.flags) then if list == [] then Ok(Settings([])) else Err(ConnectionError(FrameSizeError))
           else
             match ParseSettings(SettingsBytes(list))
             case SettingsErr(e) => Err(e)
             case SettingsOk(l) => Ok(Settings(l))
  {
    hide ParseSettings, SettingsBytes;
    assert f.payload.settings == [] <==> |f.payload.settings| == 0;
  }

  lemma SettingsFrameExact<H, P>(hp: Hpack<H, P>, c: Continuations, x: H, f: Frame<P>)
    requires c.isEndHeaders && f.payload.Settings?
    ensures Accept(hp, c, x, PlainWire(f)) == Good(Complete(f), c, x) <==> Deliverable(f)
  {
    SettingsDecoded(f);
    SettingsExact(f.payload.settings);
    hide SettingsBytes, ParseSettings, ValidSetting, DecodeControl, Ack, ControlPayload;
  }

  /** A frame comes back as it was exactly if it is deliverable. */
  lemma FrameRoundTrip<H, P>(hp: Hpack<H, P>, c: Continuations, x: H, f: Frame<P>)
    requires c.isEndHeaders && Plain(f)
    ensures Accept(hp, c, x, PlainWire(f)) == Good(Complete(f), c, x) <==> Deliverable(f)
  {
    hide Accept, Deliverable, PlainWire;
    match f.payload
    case Data(_) => DataExact(hp, c, x, f);
    case Priority(_, _, _) => PriorityExact(hp, c, x, f);
    case Goaway(_, _, _) => GoawayExact(hp, c, x, f);
    case Settings(_) => SettingsFrameExact(hp, c, x, f);
    case _ => ShortExact(hp, c, x, f);
  }

  /** The same frame, as the encoder takes it. */
  function AsOutgoing<P>(f: Frame<P>): Outgoing
    requires Plain(f)
  {
    var p: Payload<seq<Bytes>> :=
      match f.payload
      case Data(d) => Data(d)
      case Priority(e, d, w) => Priority(e, d, w)
      case RstStream(c) => RstStream(c)
      case Settings(l) => Settings(l)
      case Ping(o) => Ping(o)
      case Goaway(c, l, d) => Goaway(c, l, d)
      case WindowUpdate(i) => WindowUpdate(i);
    Frame(f.streamId, f.flags, p)
  }

  lemma PlainIsOneFrame<P>(f: Frame<P>, max: nat)
    requires Plain(f) && max > 0 && (f.payload.Data? ==> |f.payload.data| <= max)
    ensures FrameWires(AsOutgoing(f), max) == [PlainWire(f)]
  {
    if f.payload.Data? {
      assert f.payload.data[..|f.payload.data|] == f.payload.data;
    }
  }

  /** Frames that fit, unfragmented, through an encoder of limit `max` and a decoder of limit `limit`. */
  predicate Fitting<P>(f: Frame<P>, max: nat, limit: nat) {
    && Plain(f) && f.streamId < 0x8000_0000
    && |PlainWire(f).payload| <= limit < 0x100_0000
    && (f.payload.Data? ==> |f.payload.data| <= max)
  }

  predicate AllFit<P>(fs: seq<Frame<P>>, max: nat, limit: nat) {
    AllPlain(fs) && forall i | 0 <= i < |fs| :: Fitting(fs[i], max, limit)
  }

  predicate AllPlain<P>(fs: seq<Frame<P>>) {
    forall i | 0 <= i < |fs| :: Plain(fs[i])
  }

  /** The bytes that the encoder writes for one frame after another. */
  function ListBytes<P>(fs: seq<Frame<P>>, max: nat): Bytes
    requires max > 0 && AllPlain(fs)
  {
    if fs == [] then [] else WireBytes(FrameWires(AsOutgoing(fs[0]), max)) + ListBytes(fs[1..], max)
  }

  function ListWires<P>(fs: seq<Frame<P>>): (ws: seq<Wire>)
    requires AllPlain(fs)
    ensures |ws| == |fs| && forall i | 0 <= i < |ws| :: ws[i] == PlainWire(fs[i])
  {
    if fs == [] then [] else [PlainWire(fs[0])] + ListWires(fs[1..])
  }

  lemma RestFits<P>(fs: seq<Frame<P>>, max: nat, limit: nat)
    requires AllFit(fs, max, limit) && fs != []
    ensures Plain(fs[0]) && (fs[0].payload.Data? ==> |fs[0].payload.data| <= max) && AllFit(fs[1..], max, limit)
  {
    assert Fitting(fs[0], max, limit);
  }

  lemma {:induction false} ListBytesAreWires<P>(fs: seq<Frame<P>>, max: nat, limit: nat)
    requires max > 0 && AllFit(fs, max, limit)
    ensures ListBytes(fs, max) == WireBytes(ListWires(fs))
    decreases |fs|
  {
    if fs != [] {
      var w := PlainWire(fs[0]);
      RestFits(fs, max, limit);
      PlainIsOneFrame(fs[0], max);
      OneWire(w, ListWires(fs[1..]));
      assert ListBytes(fs, max) == WireBytes([w]) + ListBytes(fs[1..], max);
      hide *;
      ListBytesAreWires(fs[1..], max, limit);
    }
  }

  lemma OneWire(w: Wire, ws: seq<Wire>)
    ensures WireBytes([w] + ws) == WireBytes([w]) + WireBytes(ws)
  {
    hide HeaderBytes;
    assert ([w] + ws)[1..] == ws && [w][1..] == [];
    assert WireBytes([w]) == HeaderBytes(w.header) + w.payload + [];
  }

  function Completes<P>(fs: seq<Frame<P>>): (ks: seq<FrameKind<P>>)
    ensures |ks| == |fs| && forall i | 0 <= i < |ks| :: ks[i] == Complete(fs[i])
  {
    if fs == [] then [] else [Complete(fs[0])] + Completes(fs[1..])
  }

  predicate AllDeliverable<P>(fs: seq<Frame<P>>) {
    forall i | 0 <= i < |fs| :: Deliverable(fs[i])
  }

  lemma FirstDeliverable<P>(fs: seq<Frame<P>>)
    requires fs != []
    ensures AllDeliverable(fs) <==> Deliverable(fs[0]) && AllDeliverable(fs[1..])
  {
    hide Deliverable;
    assert forall i | 1 <= i < |fs| :: fs[i] == fs[1..][i - 1];
  }

  lemma PlainKeepsState<H, P>(hp: Hpack<H, P>, c: Continuations, x: H, f: Frame<P>)
    requires Plain(f)
    ensures
      var r := Accept(hp, c, x, PlainWire(f));
      r.Good? ==> r.cont == c && r.hpack == x
  {
    hide ControlPayload, DecodeControl;
  }

  lemma {:induction false} ListExact<H, P>(hp: Hpack<H, P>, c: Continuations, x: H, fs: seq<Frame<P>>)
    requires c.isEndHeaders && AllPlain(fs)
    requires Sized(ListWires(fs))
    ensures
      var r := Process(hp, c, x, ListWires(fs));
      && (r.Processed? ==> r.cont == c && r.hpack == x)
      && (r.Processed? && r.kinds == Completes(fs) <==> AllDeliverable(fs))
    decreases |fs|
  {
    if fs != [] {
      hide Accept, PlainWire, Deliverable, Plain, AllDeliverable;
      var ws := ListWires(fs);
      assert ws[1..] == ListWires(fs[1..]);
      FrameRoundTrip(hp, c, x, fs[0]);
      PlainKeepsState(hp, c, x, fs[0]);
      FirstDeliverable(fs);
      ListExact(hp, c, x, fs[1..]);
      FirstComplete(fs, Process(hp, c, x, ws));
    }
  }

  lemma FirstComplete<H, P>(fs: seq<Frame<P>>, r: Processed<H, P>)
    requires fs != [] && (r.Processed? ==> |r.kinds| == |fs|)
    ensures r.Processed? ==>
              (r.kinds == Completes(fs) <==> r.kinds[0] == Complete(fs[0]) && r.kinds[1..] == Completes(fs[1..]))
  {
    assert r.Processed? ==> r.kinds == [r.kinds[0]] + r.kinds[1..];
  }

  /**
   The round trip of a list of frames: decoding the encodings, one after the
   other, gives the list back exactly if each frame in it is deliverable.
   */
  lemma FrameListRoundTrip<H, P>(hp: Hpack<H, P>, d: Dec<H>, fs: seq<Frame<P>>, max: nat)
    requires Valid(d) && d.stage == AtHeader && d.offset == 0 && d.cont.isEndHeaders && max > 0
    requires AllFit(fs, max, d.maxFrameSize)
    ensures
      var o := Run(hp, d, ListBytes(fs, max));
      o.Frames? && o.list == Completes(fs) <==> AllDeliverable(fs)
    ensures
      var o := Run(hp, d, ListBytes(fs, max));
      o.Frames? && fs != [] ==> o.d == Closed(d, d.cont, d.hpack)
  {
    var ws := ListWires(fs);
    ListBytesAreWires(fs, max, d.maxFrameSize);
    assert forall i | 0 <= i < |ws| :: WellFormed(ws[i], d.maxFrameSize) by {
      forall i | 0 <= i < |ws|
        ensures WellFormed(ws[i], d.maxFrameSize)
      {
        assert Fitting(fs[i], max, d.maxFrameSize);
        PlainHeader(fs[i]);
      }
    }
    assert Sized(ws);
    ListExact(hp, d.cont, d.hpack, fs);
    hide *;
    WholeFrames(hp, d, ws);
  }

  lemma PlainHeader<P>(f: Frame<P>)
    requires Plain(f)
    ensures PlainWire(f).header.payloadLength == |PlainWire(f).payload|
    ensures f.streamId < 0x8000_0000 ==> PlainWire(f).header.streamId < 0x8000_0000
  {
    hide ControlPayload;
  }

  //
  // From encoder to decoder.
  //

  /** Hands the decoder segment after segment, up to the first error. */
  method Receive<H, P>(decoder: FrameDecoder<H, P>, segments: seq<Bytes>) returns (r: Result<seq<FrameKind<P>>>)
    requires Valid(decoder.State())
    modifies decoder
    ensures
      match RunSegments(decoder.hp, old(decoder.State()), segments)
      case Error(e) => r == Err(e)
      case Frames(list, d) => r == Ok(list) && decoder.State() == d
    decreases |segments|
  {
    hide Run;
    if segments == [] {
      return Ok([]);
    }
    r := decoder.Decode(segments[0]);
    if r.Ok? {
      var more := Receive(decoder, segments[1..]);
      if more.Err? {
        return more;
      }
      return Ok(r.value + more.value);
    }
  }

  predicate Enough(capacities: seq<nat>, n: nat) {
    |capacities| > n && forall i | 0 <= i < |capacities| :: capacities[i] >= 9
  }

  lemma {:induction false} NoPriorityIsCut(ws: seq<Wire>, k: nat)
    requires forall i | 0 <= i < |ws| :: ws[i].header.frameType != PRIORITY
    ensures !CutsPriority(ws, k)
    decreases ws
  {
    if ws != [] && k >= FRAME_HEADER_LENGTH + |ws[0].payload| {
      NoPriorityIsCut(ws[1..], k - (FRAME_HEADER_LENGTH + |ws[0].payload|));
    }
  }

  lemma BlockInSegments<H, P>(
    hp: Hpack<H, P>, d: Dec<H>, id: u32, flags: u8, pieces: seq<Bytes>, max: nat, segments: seq<Bytes>)
    requires Valid(d) && d.stage == AtHeader && d.offset == 0 && d.cont.isEndHeaders
    requires 0 < id < 0x8000_0000 && EndHeaders(flags)
    requires DEFAULT_MAX_FRAME_SIZE <= d.maxFrameSize && DEFAULT_MAX_FRAME_SIZE <= max && Fits(pieces, DEFAULT_MAX_FRAME_SIZE)
    requires Concat(segments) == WireBytes(HeaderWires(id, flags, pieces, max))
    ensures RunSegments(hp, d, segments) == OutcomeOf(BlockOutcome(hp, d.cont, d.hpack, id, flags, pieces), d)
  {
    var ws := HeaderWires(id, flags, pieces, max);
    HeaderBlockShape(id, flags, pieces, max);
    assert AllWellFormed(ws, d.maxFrameSize);
    assert forall i | 0 <= i < |ws| :: ws[i].header.frameType != PRIORITY;
    hide HeaderWires, WireBytes, Run, CutsPriority, Fits;
    forall m | 0 <= m <= |segments|
      ensures !CutsPriority(ws, |Concat(segments[..m])|)
    {
      NoPriorityIsCut(ws, |Concat(segments[..m])|);
    }
    WireSegments(hp, d, ws, segments);
    HeaderBlockTransport(hp, d, id, flags, pieces, max);
  }

  /**
   A HEADERS frame from the encoder, through buffers of any sizes from nine bytes
   on, cut again in any way, to the decoder.
   */
  method HeadersEndToEnd<H, P>(
    encoder: FrameEncoder, decoder: FrameDecoder<H, P>, f: Outgoing, capacities: seq<nat>, cut: Bytes -> seq<Bytes>)
    returns (r: Result<seq<FrameKind<P>>>)
    requires f.payload.Headers? && EndHeaders(f.flags) && 0 < f.streamId < 0x8000_0000
    requires Fits(f.payload.parts, DEFAULT_MAX_FRAME_SIZE)
    requires DEFAULT_MAX_FRAME_SIZE <= encoder.maxFrameSize && DEFAULT_MAX_FRAME_SIZE <= decoder.maxFrameSize
    requires
      var d := decoder.State();
      Valid(d) && d.stage == AtHeader && d.offset == 0 && d.cont.isEndHeaders
    requires Enough(capacities, |WireBytes(FrameWires(f, encoder.maxFrameSize))|)
    requires forall b: Bytes :: Concat(cut(b)) == b
    modifies encoder, decoder
    ensures
      match BlockOutcome(decoder.hp, old(decoder.continuations), old(decoder.hpack), f.streamId, f.flags, f.payload.parts)
      case Refused(e) => r == Err(e)
      case Processed(kinds, c, x) => r == Ok(kinds) && decoder.State() == Closed(old(decoder.State()), c, x)
    ensures r.Ok? ==>
              && r.value != []
              && var last := r.value[|r.value| - 1];
                 && last.Complete? && last.frame.streamId == f.streamId && last.frame.payload.Headers?
                 && (EndStream(last.frame.flags) <==> EndStream(f.flags))
  {
    hide WireBytes, HeaderWires, BlockOutcome, EndHeaders, EndStream, Fits, Run, RunSegments;
    if BlockOutcome(decoder.hp, decoder.continuations, decoder.hpack, f.streamId, f.flags, f.payload.parts).Processed? {
      EndStreamArrives(decoder.hp, decoder.continuations, decoder.hpack, f.streamId, f.flags, f.payload.parts);
    }
    ghost var d := decoder.State();
    ghost var max := encoder.maxFrameSize;
    AlwaysCutWell(f.payload, capacities);
    var ok, out := Transmit(encoder, f, capacities);
    BlockInSegments(decoder.hp, d, f.streamId, f.flags, f.payload.parts, max, cut(out));
    r := Receive(decoder, cut(out));
  }

  lemma AlwaysCutWell<P>(p: Payload<P>, capacities: seq<nat>)
    requires p.Data? || p.Headers? || p.Goaway? || p.Priority?
    ensures AllCutWell(p, capacities)
  {
  }

  /** Lists of frames in segments that spare PRIORITY payloads come back exactly if all frames are deliverable. */
  lemma FrameListInSegments<H, P>(hp: Hpack<H, P>, d: Dec<H>, fs: seq<Frame<P>>, max: nat, segments: seq<Bytes>)
    requires Valid(d) && d.stage == AtHeader && d.offset == 0 && d.cont.isEndHeaders && max > 0
    requires AllFit(fs, max, d.maxFrameSize)
    requires Concat(segments) == ListBytes(fs, max) && SparesPriorityPayloads(ListWires(fs), segments)
    ensures
      var o := RunSegments(hp, d, segments);
      o.Frames? && o.list == Completes(fs) <==> AllDeliverable(fs)
  {
    ListIsWellFormed(fs, max, d.maxFrameSize);
    ListBytesAreWires(fs, max, d.maxFrameSize);
    FrameListRoundTrip(hp, d, fs, max);
    hide *;
    WireSegments(hp, d, ListWires(fs), segments);
  }

  lemma ListIsWellFormed<P>(fs: seq<Frame<P>>, max: nat, limit: nat)
    requires AllFit(fs, max, limit)
    ensures AllWellFormed(ListWires(fs), limit)
  {
    var ws := ListWires(fs);
    hide PlainWire;
    forall i | 0 <= i < |ws|
      ensures WellFormed(ws[i], limit)
    {
      assert Fitting(fs[i], max, limit);
      PlainHeader(fs[i]);
    }
  }

  /** The buffers for each frame cut it well and have room for it. */
  predicate RoomForAll<P>(fs: seq<Frame<P>>, max: nat, capacities: seq<seq<nat>>)
    requires AllPlain(fs) && max > 0
  {
    && |capacities| == |fs|
    && forall i | 0 <= i < |fs| ::
         && AllCutWell(AsOutgoing(fs[i]).payload, capacities[i])
         && Enough(capacities[i], |WireBytes(FrameWires(AsOutgoing(fs[i]), max))|)
  }

  /** One frame after another through the encoder. */
  method TransmitAll<P>(encoder: FrameEncoder, fs: seq<Frame<P>>, capacities: seq<seq<nat>>) returns (out: Bytes)
    requires AllPlain(fs) && encoder.maxFrameSize > 0 && RoomForAll(fs, encoder.maxFrameSize, capacities)
    modifies encoder
    ensures encoder.maxFrameSize == old(encoder.maxFrameSize) && out == ListBytes(fs, encoder.maxFrameSize)
  {
    hide WireBytes, FrameWires;
    out := [];
    ghost var max := encoder.maxFrameSize;
    for i := 0 to |fs|
      invariant encoder.maxFrameSize == max && out + ListBytes(fs[i..], max) == ListBytes(fs, max)
    {
      PlainOutgoing(fs[i]);
      var ok, bytes := Transmit(encoder, AsOutgoing(fs[i]), capacities[i]);
      assert fs[i..][0] == fs[i] && fs[i..][1..] == fs[i + 1..];
      assert bytes + ListBytes(fs[i + 1..], max) == ListBytes(fs[i..], max);
      out := out + bytes;
    }
    assert out + [] == out;
  }

  lemma PlainOutgoing<P>(f: Frame<P>)
    requires Plain(f)
    ensures ValidControl(AsOutgoing(f).payload) && !AsOutgoing(f).payload.PushPromise? && !AsOutgoing(f).payload.Headers?
  {
  }

  /** A list of frames from the encoder through buffers and segments to the decoder. */
  method FramesEndToEnd<H, P>(
    encoder: FrameEncoder, decoder: FrameDecoder<H, P>, fs: seq<Frame<P>>, capacities: seq<seq<nat>>,
    cut: Bytes -> seq<Bytes>)
    returns (r: Result<seq<FrameKind<P>>>)
    requires
      var d := decoder.State();
      Valid(d) && d.stage == AtHeader && d.offset == 0 && d.cont.isEndHeaders
    requires encoder.maxFrameSize > 0 && AllFit(fs, encoder.maxFrameSize, decoder.maxFrameSize)
    requires RoomForAll(fs, encoder.maxFrameSize, capacities)
    requires forall b: Bytes :: Concat(cut(b)) == b
    requires SparesPriorityPayloads(ListWires(fs), cut(ListBytes(fs, encoder.maxFrameSize)))
    modifies encoder, decoder
    ensures r == Ok(Completes(fs)) <==> AllDeliverable(fs)
  {
    ghost var d, max := decoder.State(), encoder.maxFrameSize;
    hide ListBytes, RunSegments, Run, AllFit, RoomForAll, SparesPriorityPayloads, AllDeliverable, AllPlain;
    FitIsPlain(fs, max, decoder.maxFrameSize);
    var out := TransmitAll(encoder, fs, capacities);
    FrameListInSegments(decoder.hp, d, fs, max, cut(out));
    r := Receive(decoder, cut(out));
  }

  lemma FitIsPlain<P>(fs: seq<Frame<P>>, max: nat, limit: nat)
    requires AllFit(fs, max, limit)
    ensures AllPlain(fs)
  {
  }
}
