/**
 The chunks that the decoder takes, by their grammar: sizes in digits of either
 case, extensions, line ends, and what is no chunk.
 */
module ChunkGrammar {
  import opened MachineWords
  import opened ChunkDecoder
  import opened ChunkEncoder

  //
  // Sizes.
  //

  /** "0123456789abcdef" */
  const DIGITS: Bytes := [48, 49, 50, 51, 52, 53, 54, 55, 56, 57, 97, 98, 99, 100, 101, 102]

  /** Letters in lower case. */
  function Lower(b: u8): u8 {
    if 65 <= b <= 90 then b + 32 else b
  }

  predicate IsDigit(b: u8) {
    Lower(b) in DIGITS
  }

  /** `n` written in hexadecimal digits of any case, leading zeros included. */
  predicate Denotes(s: Bytes, n: nat) {
    if s == [] then n == 0 else Lower(s[|s| - 1]) == DIGITS[n % 16] && Denotes(s[..|s| - 1], n / 16)
  }

  lemma DigitIs(b: u8, v: nat)
    requires v < 16
    ensures Lower(b) == DIGITS[v] <==> HexValue(b) == v
  {
  }

  lemma DigitExactly(b: u8)
    ensures IsDigit(b) <==> HexValue(b) >= 0
  {
    if IsDigit(b) {
      var v :| 0 <= v < 16 && DIGITS[v] == Lower(b);
      DigitIs(b, v);
    } else if HexValue(b) >= 0 {
      DigitIs(b, HexValue(b));
    }
  }

  /** Every string of digits denotes a number. */
  lemma {:induction false} DigitsDenote(s: Bytes) returns (n: nat)
    requires forall i | 0 <= i < |s| :: IsDigit(s[i])
    ensures Denotes(s, n)
  {
    n := 0;
    if s != [] {
      n := DigitsDenote(s[..|s| - 1]);
      n := NextDigit(s[|s| - 1], n);
    }
  }

  lemma NextDigit(b: u8, n: nat) returns (m: nat)
    requires IsDigit(b)
    ensures m / 16 == n && Lower(b) == DIGITS[m % 16]
  {
    DigitExactly(b);
    var v := HexValue(b);
    DigitIs(b, v);
    hide Lower, HexValue;
    m := n * 16 + v;
  }

  /** And only one. */
  lemma {:induction false} DenotesOne(s: Bytes, m: nat, n: nat)
    requires Denotes(s, m) && Denotes(s, n)
    ensures m == n
    decreases |s|
  {
    if s != [] {
      DenotesOne(s[..|s| - 1], m / 16, n / 16);
      DigitIs(s[|s| - 1], m % 16);
      DigitIs(s[|s| - 1], n % 16);
      hide Denotes, HexValue, Lower;
    }
  }

  /**
   The digits of a size make up the number that they denote; beyond the largest
   positive number of 64 bits they are refused.
   */
  lemma {:induction false} FeedNumber(m: Assembly, d: Dec, s: Bytes, n: nat, rest: Bytes)
    requires d.stage == Size && d.hexCount == 0 && Denotes(s, n)
    ensures Feed(m, d, s + rest) == if n <= 0x7fff_ffff_ffff_ffff then Feed(m, d.(hexCount := n), rest) else Failed
    decreases |s|
  {
    hide DIGITS, Lower, HexValue;
    if s == [] {
      assert s + rest == rest;
    } else {
      var init, b := s[..|s| - 1], s[|s| - 1];
      var tail := [b] + rest;
      assert s + rest == init + tail && tail[0] == b && tail[1..] == rest;
      DigitIs(b, n % 16);
      FeedNumber(m, d, init, n / 16, tail);
      if n / 16 <= MAX_I64 {
        OneDigit(d.(hexCount := n / 16), b, n);
      }
    }
  }

  /** Sizes are written in lower case, without leading zeros. */
  lemma {:induction false} HexIs(n: nat)
    ensures Denotes(Hex(n), n)
    ensures forall i | 0 <= i < |Hex(n)| :: Hex(n)[i] in DIGITS
    ensures n > 0 ==> Hex(n)[0] != 48
  {
    DigitWritten(n % 16);
    if n < 16 {
      assert Hex(n)[..0] == [];
    } else {
      HexIs(n / 16);
      assert Hex(n)[..|Hex(n)| - 1] == Hex(n / 16);
    }
  }

  lemma DigitWritten(v: nat)
    requires v < 16
    ensures HexDigit(v) == Lower(HexDigit(v)) == DIGITS[v]
  {
  }

  lemma OneDigit(d: Dec, b: u8, n: nat)
    requires d.stage == Size && d.hexCount == n / 16 && HexValue(b) == n % 16
    ensures Take(d, b) == if n <= MAX_I64 then Took(d.(hexCount := n), false) else Bad
  {
    assert d.hexCount * 16 + n % 16 == n;
  }

  /** What is neither a digit nor blank, tab, semicolon or CR does not belong to a size. */
  lemma BadSizeByte(m: Assembly, d: Dec, b: u8, rest: Bytes)
    requires d.stage == Size && !d.crMeet && !IsDigit(b) && b !in {9, 13, 32, 59}
    ensures Feed(m, d, [b] + rest) == Failed
  {
    DigitExactly(b);
    assert ([b] + rest)[0] == b;
  }

  //
  // Extensions and line ends.
  //

  predicate OneLine(ext: Bytes) {
    forall i | 0 <= i < |ext| :: ext[i] != 13 && ext[i] != 10
  }

  /** Blank, tab or semicolon, and what follows them on the line. */
  predicate IsExtension(e: Bytes) {
    e != [] && e[0] in {9, 32, 59} && OneLine(e)
  }

  lemma {:induction false} RestOfLine(m: Assembly, d: Dec, ext: Bytes, rest: Bytes)
    requires d.stage == Extension && OneLine(ext)
    ensures Feed(m, d, ext + rest) == Feed(m, d, rest)
  {
    if ext == [] {
      assert ext + rest == rest;
    } else {
      var all := ext + rest;
      assert all[0] == ext[0] && all[1..] == ext[1..] + rest;
      assert Take(d, ext[0]) == Took(d, false);
      RestOfLine(m, d, ext[1..], rest);
    }
  }

  lemma ExtensionStarts(m: Assembly, d: Dec, e: Bytes, rest: Bytes)
    requires d.stage == Size && IsExtension(e)
    ensures Feed(m, d, e + rest) == Feed(m, Sized(d), rest)
  {
    var all := e + rest;
    assert all[0] == e[0] && all[1..] == e[1..] + rest;
    RestOfLine(m, Sized(d), e[1..], rest);
  }

  /** An extension makes no difference to the chunk. */
  lemma ExtensionIsSkipped(m: Assembly, d: Dec, e: Bytes, rest: Bytes)
    requires d.stage == Size && !d.crMeet && IsExtension(e)
    ensures Feed(m, d, e + (CRLF + rest)) == Feed(m, d, CRLF + rest)
  {
    var line := CRLF + rest;
    ExtensionStarts(m, d, e, line);
    assert line[0] == CR && line[1..][0] == LF;
    assert Take(Sized(d), CR) == Take(d, CR);
  }

  /** A line of a size must end in CR LF: a bare LF and a CR before anything else are refused. */
  lemma BadLineEnd(m: Assembly, d: Dec, e: Bytes, b: u8, rest: Bytes)
    requires d.stage == Size && !d.crMeet && (e == [] || IsExtension(e)) && b != LF
    ensures Feed(m, d, e + ([LF] + rest)) == Failed
    ensures Feed(m, d, e + ([CR, b] + rest)) == Failed
  {
    var lf, cr := [LF] + rest, [CR, b] + rest;
    assert lf[0] == LF && cr[0] == CR && cr[1..][0] == b;
    if e == [] {
      assert e + lf == lf && e + cr == cr;
    } else {
      ExtensionStarts(m, d, e, lf);
      ExtensionStarts(m, d, e, cr);
    }
  }

  /** Data must end in CR LF too. */
  lemma BadDataEnd(m: Assembly, d: Dec, a: u8, b: u8, rest: Bytes)
    requires (d.stage == DataEnd && !d.crMeet) || (d.stage == Data && d.restSize == 0)
    ensures a != CR ==> Feed(m, d, [a] + rest) == Failed
    ensures b != LF ==> Feed(m, d, [CR, b] + rest) == Failed
  {
    var one, two := [a] + rest, [CR, b] + rest;
    assert one[0] == a && two[0] == CR && two[1..][0] == b;
  }

  /**
   A chunk by its grammar: any digits for its size, an extension or none, its data.
   The decoder takes it as one chunk with its id, size and data; size 0 is the last.
   */
  lemma FeedChunk(done: seq<Entire>, k: nat, s: Bytes, e: Bytes, c: Bytes, rest: Bytes)
    requires Denotes(s, |c|) && |c| <= 0x7fff_ffff_ffff_ffff && (e == [] || IsExtension(e))
    ensures
      var m := Assembly(done + [Entire(k, |c|, c)], []);
      Feed(Assembly(done, []), AtChunk(k), s + (e + (CRLF + (c + (CRLF + rest)))))
      == if c == [] then Over(m, INITIAL, rest) else Feed(m, AtChunk(k + 1), rest)
  {
    hide Feed, Hex, Denotes;
    var m := Assembly(done, []);
    var line := CRLF + (c + (CRLF + rest));
    var d := AtChunk(k).(hexCount := |c|);
    FeedNumber(m, AtChunk(k), s, |c|, e + line);
    if e == [] {
      assert e + line == line;
    } else {
      ExtensionIsSkipped(m, d, e, c + (CRLF + rest));
    }
    FeedDigits(m, AtChunk(k), |c|, line);
    FeedBlock(done, k, c, rest);
  }

  //
  // Chunks under way.
  //

  lemma {:induction false} DoneGrows(m: Assembly, d: Dec, buf: Bytes)
    ensures Feed(m, d, buf).Running? ==> |Feed(m, d, buf).m.done| >= |m.done|
    decreases buf
  {
    hide Take, NextChunk;
    if buf != [] {
      match Take(d, buf[0])
      case Bad =>
      case Took(d', isData) => DoneGrows(if isData then m.(current := m.current + [buf[0]]) else m, d', buf[1..]);
      case EndOfChunk(d', size) =>
        if !d'.isLast {
          DoneGrows(Assembly(m.done + [Entire(d'.chunkNum, size, m.current)], []), NextChunk(d'), buf[1..]);
        }
    }
  }

  // As long as no chunk is finished, a slice is a part of the one under way.
  lemma {:induction false} NothingFinished(m: Assembly, d: Dec, buf: Bytes, data: Bytes)
    requires Feed(m, d, buf).Running? && |Feed(m, d, buf).m.done| == |m.done|
    ensures
      var r := Feed(m, d, buf);
      var s := Scan(d, buf, data);
      s.Part? && s.d == r.d && |s.data| >= |data| && r.m.current == m.current + s.data[|data|..]
    decreases buf
  {
    hide Take, NextChunk;
    if buf != [] {
      match Take(d, buf[0])
      case Took(d', isData) =>
        if isData {
          NothingFinished(m.(current := m.current + [buf[0]]), d', buf[1..], data + [buf[0]]);
          var t := Scan(d', buf[1..], data + [buf[0]]).data;
          StillThere(d', buf[1..], data + [buf[0]]);
          assert t[|data|..] == [buf[0]] + t[|data| + 1..];
        } else {
          NothingFinished(m, d', buf[1..], data);
        }
      case EndOfChunk(d', size) =>
        DoneGrows(Assembly(m.done + [Entire(d'.chunkNum, size, m.current)], []), NextChunk(d'), buf[1..]);
    }
  }

  lemma {:induction false} StillThere(d: Dec, buf: Bytes, data: Bytes)
    ensures Scan(d, buf, data).Part? ==> data <= Scan(d, buf, data).data
    decreases buf
  {
    hide Take;
    if buf != [] && Take(d, buf[0]).Took? {
      StillThere(Take(d, buf[0]).d, buf[1..], if Take(d, buf[0]).isData then data + [buf[0]] else data);
    }
  }

  /** The part of a chunk that one call hands out, with its state and its size as far as they are known. */
  predicate HandsOut(k: nat, buf: Bytes, state: ChunkState, size: nat, data: Bytes) {
    var r := Decode(AtChunk(k), buf);
    r.Chunks? && r.chunks == [Chunk(k, state, size, data)] && r.rest == []
  }

  lemma PartHandedOut(k: nat, buf: Bytes, d: Dec, data: Bytes)
    requires Feed(Assembly([], []), AtChunk(k), buf) == Running(Assembly([], data), d) && d.chunkNum == k
    ensures HandsOut(k, buf, PartState(d.stage), d.totalSize, data)
  {
    NothingFinished(Assembly([], []), AtChunk(k), buf, []);
    hide Feed, Scan, PartState;
    var s := Scan(AtChunk(k), buf, []);
    assert [] + s.data[0..] == s.data;
  }

  lemma {:induction false} SomeData(m: Assembly, d: Dec, data: Bytes)
    requires d.stage == Data && |data| < d.restSize
    ensures Feed(m, d, data) == Running(m.(current := m.current + data), d.(restSize := d.restSize - |data|))
    decreases |data|
  {
    if data == [] {
      assert m.current + [] == m.current;
    } else {
      SomeData(m.(current := m.current + [data[0]]), d.(restSize := d.restSize - 1), data[1..]);
      assert m.current + [data[0]] + data[1..] == m.current + data;
    }
  }

  /** What a call hands out of a chunk of `n` bytes, by where its bytes end. */
  lemma PartsOfChunk(k: nat, s: Bytes, e: Bytes, n: nat, data: Bytes)
    requires Denotes(s, n) && 0 < n <= 0x7fff_ffff_ffff_ffff && IsExtension(e) && |data| < n
    ensures HandsOut(k, s, MetaSize, 0, [])
    ensures HandsOut(k, s + e, MetaExt, n, [])
    ensures HandsOut(k, s + [CR], MetaCrlf, n, [])
    ensures HandsOut(k, s + (CRLF + data), DataPart, n, data)
  {
    var m, d := Assembly([], []), AtChunk(k).(hexCount := n);
    hide HandsOut, Denotes, Decode;
    FeedNumber(m, AtChunk(k), s, n, []);
    FeedNumber(m, AtChunk(k), s, n, e);
    FeedNumber(m, AtChunk(k), s, n, [CR]);
    FeedNumber(m, AtChunk(k), s, n, CRLF + data);
    assert s + [] == s && e + [] == e && [] + data == data;
    PartHandedOut(k, s, d, []);
    ExtensionStarts(m, d, e, []);
    PartHandedOut(k, s + e, Sized(d), []);
    assert [CR][1..] == [];
    PartHandedOut(k, s + [CR], Sized(d).(crMeet := true, stage := SizeEnd), []);
    FeedSizeLine(m, d, data);
    SomeData(m, Sized(d).(stage := Data), data);
    PartHandedOut(k, s + (CRLF + data), Sized(d).(stage := Data, restSize := n - |data|), data);
  }

  /** With all its data there, a chunk waits for its line end. */
  lemma DataComplete(k: nat, s: Bytes, data: Bytes)
    requires Denotes(s, |data|) && 0 < |data| <= 0x7fff_ffff_ffff_ffff
    ensures HandsOut(k, s + (CRLF + data), DataCrlf, |data|, data)
    ensures HandsOut(k, s + (CRLF + (data + [CR])), DataCrlf, |data|, data)
  {
    var m, d := Assembly([], []), AtChunk(k).(hexCount := |data|);
    hide HandsOut, Denotes, Decode;
    var d1 := Sized(d).(stage := Data);
    FeedNumber(m, AtChunk(k), s, |data|, CRLF + data);
    FeedNumber(m, AtChunk(k), s, |data|, CRLF + (data + [CR]));
    FeedSizeLine(m, d, data);
    FeedSizeLine(m, d, data + [CR]);
    FeedData(m, d1, data, []);
    FeedData(m, d1, data, [CR]);
    assert data + [] == data && [] + data == data && [CR][1..] == [];
    PartHandedOut(k, s + (CRLF + data), AllData(d1), data);
    PartHandedOut(k, s + (CRLF + (data + [CR])), AllData(d1).(crMeet := true), data);
  }

  /** The trailer part: the last chunk, the fields as they are, and an empty line. */
  lemma TrailerPartIs(fields: Bytes)
    ensures
      var t := TrailerPart(fields);
      && |t| == |fields| + 5
      && t[..3] == [48, 13, 10] && t[3..3 + |fields|] == fields && t[3 + |fields|..] == [13, 10]
  {
  }
}
