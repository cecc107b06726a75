/**
 The Huffman codec of header strings: the encoder with its 64-bit accumulator,
 the decoder that walks the nibble automaton, and the decoder object that is
 fed slices. The meaning of both is given by bit strings: an encoding is the
 codes of the symbols one after the other, filled up with ones to a byte.
 */
module Huffman {
  import opened MachineWords
  import opened HuffmanTables
  import opened HuffmanTree

  /** The codes of a string, one after the other. */
  function Codes(s: seq<u8>): seq<bool> {
    if s == [] then [] else CodeBits(s[0]) + Codes(s[1..])
  }

  /** Bits filled up with ones to a whole number of bytes. */
  function Padded(b: seq<bool>): (r: seq<bool>)
    ensures |r| % 8 == 0
  {
    b + Fill(true, (8 - |b| % 8) % 8)
  }

  //
  // The code table, as the proofs below need it.
  //

  lemma CodeFits(x: nat)
    requires x <= EOS
    ensures var c := EncodeEntry(x); 5 <= c.nbits <= 30 && c.code < Pow2(c.nbits) <= Pow2(64)
  {
    CodeInOrder(x);
    hide EncodeEntry, Limit, Shorter, InOrder, Pow2;
    var n := EncodeEntry(x).nbits;
    LimitBelowPow2(n);
    Pow2UpTo64(n);
  }

  lemma Pow2UpTo64(n: nat)
    requires n <= 64
    ensures Pow2(n) <= Pow2(64)
  {
    hide Pow2;
    Pow2Add(n, 64 - n);
    Multiples(1, Pow2(64 - n), Pow2(n));
  }

  lemma EosIsOnes()
    ensures CodeBits(EOS) == Fill(true, 30)
  {
    assert Pow2(5) == 32;
    Pow2Square(5, 32);
    Pow2Square(10, 1024);
    Pow2Add(20, 10);
    OnesBits(30);
    assert EncodeEntry(EOS) == Code(30, 0x3fff_ffff);
  }

  lemma {:induction false} CodesConcat(a: seq<u8>, b: seq<u8>)
    ensures Codes(a + b) == Codes(a) + Codes(b)
  {
    hide CodeBits;
    if a == [] {
      assert a + b == b;
    } else {
      assert (a + b)[1..] == a[1..] + b;
      CodesConcat(a[1..], b);
    }
  }

  lemma CodesSnoc(a: seq<u8>, x: u8)
    ensures Codes(a + [x]) == Codes(a) + CodeBits(x)
  {
    hide CodeBits;
    CodesConcat(a, [x]);
    assert Codes([x]) == CodeBits(x) + Codes([]);
  }

  //
  // Unique decoding.
  //

  /** No code is a prefix of `p`. */
  ghost predicate NoCode(p: seq<bool>) {
    forall x: nat | x <= EOS :: !(CodeBits(x) <= p)
  }

  // Two codes that start the same string are the same.
  lemma SamePrefix(x: nat, y: nat, s: seq<bool>)
    requires x <= EOS && y <= EOS
    requires CodeBits(x) <= s && CodeBits(y) <= s
    ensures x == y
  {
    hide CodeBits;
    if |CodeBits(x)| <= |CodeBits(y)| {
      assert CodeBits(x) <= CodeBits(y);
      PrefixFree(x, y);
    } else {
      assert CodeBits(y) <= CodeBits(x);
      PrefixFree(y, x);
    }
  }

  lemma HeadIsCode(b: seq<u8>, q: seq<bool>)
    ensures b != [] ==> CodeBits(b[0]) <= Codes(b) + q
  {
    hide CodeBits;
    if b != [] {
      assert Codes(b) + q == CodeBits(b[0]) + (Codes(b[1..]) + q);
    }
  }

  /** Bits have at most one reading as codes with a rest that holds no code. */
  lemma {:induction false} UniqueReading(a: seq<u8>, p: seq<bool>, b: seq<u8>, q: seq<bool>)
    requires NoCode(p) && NoCode(q)
    requires Codes(a) + p == Codes(b) + q
    ensures a == b && p == q
  {
    hide CodeBits;
    var s := Codes(a) + p;
    assert a == [] ==> s == p;
    assert b == [] ==> s == q;
    HeadIsCode(a, p);
    HeadIsCode(b, q);
    if a != [] && b != [] {
      assert s == CodeBits(a[0]) + (Codes(a[1..]) + p);
      assert s == CodeBits(b[0]) + (Codes(b[1..]) + q);
      SamePrefix(a[0], b[0], s);
      assert Codes(a[1..]) + p == s[|CodeBits(a[0])|..] == Codes(b[1..]) + q;
      UniqueReading(a[1..], p, b[1..], q);
    }
  }

  /** A string of codes never reaches EOS. */
  lemma {:induction false} NoEosInCodes(a: seq<u8>, b: seq<u8>, q: seq<bool>)
    requires NoCode(q)
    ensures !(Codes(a) + CodeBits(EOS) <= Codes(b) + q)
  {
    hide CodeBits;
    var s := Codes(b) + q;
    if Codes(a) + CodeBits(EOS) <= s {
      var x := if a == [] then EOS else a[0];
      assert CodeBits(x) <= s by {
        if a != [] { assert Codes(a) + CodeBits(EOS) == CodeBits(a[0]) + (Codes(a[1..]) + CodeBits(EOS)); }
      }
      assert b == [] ==> s == q;
      if b != [] {
        assert s == CodeBits(b[0]) + (Codes(b[1..]) + q);
        SamePrefix(x, b[0], s);
        var n := |CodeBits(b[0])|;
        assert Codes(a[1..]) + CodeBits(EOS) == (Codes(a) + CodeBits(EOS))[n..];
        assert Codes(b[1..]) + q == s[n..];
        NoEosInCodes(a[1..], b[1..], q);
      }
    }
  }

  lemma PaddingHasNoCode(n: nat)
    requires n <= 7
    ensures NoCode(Fill(true, n))
  {
    EosIsOnes();
    hide CodeBits;
    forall x: nat | x <= EOS
      ensures !(CodeBits(x) <= Fill(true, n))
    {
      if CodeBits(x) <= Fill(true, n) {
        assert CodeBits(x) <= Fill(true, 30);
        PrefixFree(x, EOS);
      }
    }
  }

  /** The decoding table, given as its rows. */
  type Table = u8 -> Row

  /** The table agrees with the code table, row by row. */
  ghost predicate Agrees(t: Table) {
    forall s: u8 :: RowAgrees(s, t(s))
  }

  lemma ShorterPrefix(p: seq<bool>, q: seq<bool>, s: seq<bool>)
    requires p <= s && q <= s && |p| < |q|
    ensures p < q
  {
  }

  /** Every state is an inner node of the code tree: its path goes on to some code. */
  lemma {:induction false} StateIsInner(t: Table, s: u8)
    requires Agrees(t)
    ensures exists y: nat :: y <= EOS && PathBits(s) < CodeBits(y)
    decreases 30 - NodeOf(s).len
  {
    NodeDepth(s);
    assert RowAgrees(s, t(s));
    hide CodeBits, NodeOf;
    var e := t(s).At(0);
    var read := PathBits(s) + Bits(0, 4);
    assert Reads(PathBits(s), 0, 4, e);
    if Error(e.flags) {
      ShorterPrefix(PathBits(s), CodeBits(EOS), read);
    } else if Decoded(e.flags) {
      ShorterPrefix(PathBits(s), CodeBits(e.byte), read);
    } else {
      StateIsInner(t, e.state);
      var y: nat :| y <= EOS && PathBits(e.state) < CodeBits(y);
      assert PathBits(s) < CodeBits(y);
    }
  }

  lemma NodeDepth(s: u8)
    ensures NodeOf(s).len <= 29
    ensures NodeOf(s).len == 0 <==> s == 0
  {
  }

  lemma PathHasNoCode(t: Table, s: u8)
    requires Agrees(t)
    ensures NoCode(PathBits(s))
  {
    StateIsInner(t, s);
    hide CodeBits, PathBits;
    var y: nat :| y <= EOS && PathBits(s) < CodeBits(y);
    forall x: nat | x <= EOS
      ensures !(CodeBits(x) <= PathBits(s))
    {
      if CodeBits(x) <= PathBits(s) {
        PrefixFree(x, y);
      }
    }
  }

  //
  // Encoding.
  //

  /** The accumulator: `fill` in the leading bits of `state`, zeros in the `unfilled` bits below. */
  ghost predicate Accumulates(state: u64, unfilled: nat, fill: seq<bool>) {
    && 1 <= unfilled <= 64
    && |fill| == 64 - unfilled
    && Bits(state, 64) == fill + Fill(false, unfilled)
  }

  lemma CodeAsWord(x: nat)
    requires x <= EOS
    ensures
      var c := EncodeEntry(x);
      && 5 <= c.nbits <= 30 && c.code <= MAX_U64
      && |CodeBits(x)| == c.nbits
      && Bits(c.code, 64) == Fill(false, 64 - c.nbits) + CodeBits(x)
  {
    hide EncodeEntry;
    CodeFits(x);
    Pow2Word();
    var c := EncodeEntry(x);
    BitsWiden(c.code, 64 - c.nbits, c.nbits);
  }

  // A code that fits is shifted next to the bits already there.
  lemma AddWhole(state: u64, unfilled: nat, fill: seq<bool>, code: u64, c: seq<bool>)
    requires Accumulates(state, unfilled, fill) && |c| <= unfilled
    requires Bits(code, 64) == Fill(false, 64 - |c|) + c
    ensures Bits(Or(state, Shl(code, unfilled - |c|)), 64) == fill + c + Fill(false, unfilled - |c|)
  {
    hide Bits, BitOr, Shl;
    var d := unfilled - |c|;
    ShlBits(code, d);
    OrBits(state, Shl(code, d), 64);
  }

  // A code that does not fit is rotated: its first part ends the word, the rest starts the next.
  lemma AddSplit(state: u64, unfilled: nat, fill: seq<bool>, code: u64, c: seq<bool>)
    requires Accumulates(state, unfilled, fill) && unfilled < |c| <= 64
    requires Bits(code, 64) == Fill(false, 64 - |c|) + c
    ensures
      var rotate := RotateRight(code, |c| - unfilled);
      var mask := Shr(MAX_U64, 64 - unfilled);
      && Bits(Or(state, And(rotate, mask)), 64) == fill + c[..unfilled]
      && Bits(And(rotate, Not(mask)), 64) == c[unfilled..] + Fill(false, 64 - (|c| - unfilled))
  {
    hide Bits, BitOr, BitAnd, Shr, RotateRight, Not;
    var r := |c| - unfilled;
    var rotate := RotateRight(code, r);
    var mask := Shr(MAX_U64, 64 - unfilled);
    RotateBits(code, r);
    assert Bits(rotate, 64) == c[unfilled..] + Fill(false, 64 - |c|) + c[..unfilled];
    MaskBits(unfilled);
    AndBits(rotate, mask, 64);
    NotBits(mask);
    AndBits(rotate, Not(mask), 64);
    OrBits(state, And(rotate, mask), 64);
  }

  lemma MaskBits(n: nat)
    requires n <= 64
    ensures Bits(Shr(MAX_U64, 64 - n), 64) == Fill(false, 64 - n) + Fill(true, n)
  {
    hide Bits, Shr, Pow2;
    ShrBits(MAX_U64, 64 - n);
    OnesBits(64);
    Pow2Word();
  }

  lemma FillUp(state: u64, unfilled: nat, fill: seq<bool>)
    requires Accumulates(state, unfilled, fill)
    ensures Bits(Or(state, Shr(MAX_U64, 64 - unfilled)), 64) == fill + Fill(true, unfilled)
  {
    hide Bits, BitOr, Shr;
    MaskBits(unfilled);
    OrBits(state, Shr(MAX_U64, 64 - unfilled), 64);
  }

  // Whole words of eight bytes are written out.
  lemma Flushed(out: seq<u8>, word: u64)
    ensures BytesBits(out + BeBytes(word, 8)) == BytesBits(out) + Bits(word, 64)
  {
    hide BytesBits, Bits, BeBytes;
    BytesBitsConcat(out, BeBytes(word, 8));
    BeBytesBits(word, 8);
  }

  lemma {:induction false} BytesBitsTake(s: seq<u8>, n: nat)
    requires n <= |s|
    ensures BytesBits(s[..n]) == BytesBits(s)[..8 * n]
  {
    hide BytesBits;
    assert s == s[..n] + s[n..];
    BytesBitsConcat(s[..n], s[n..]);
  }

  // Only the filled bytes of the last word are written out.
  lemma LastBytes(out: seq<u8>, word: u64, unfilled: nat, fill: seq<bool>, codes: seq<bool>)
    requires 1 <= unfilled < 64 && |fill| == 64 - unfilled
    requires Bits(word, 64) == fill + Fill(true, unfilled)
    requires codes == BytesBits(out) + fill
    ensures BytesBits(out + BeBytes(word, 8)[..8 - unfilled / 8]) == Padded(codes)
  {
    hide BytesBits, Bits, BeBytes;
    var len := 8 - unfilled / 8;
    BytesBitsConcat(out, BeBytes(word, 8)[..len]);
    BytesBitsTake(BeBytes(word, 8), len);
    BeBytesBits(word, 8);
    PaddingLength(|codes|, unfilled % 8);
    assert (fill + Fill(true, unfilled))[..8 * len] == fill + Fill(true, unfilled % 8);
  }

  // The number of ones that fill up to a byte is the only one below 8 that does.
  lemma PaddingLength(n: nat, k: nat)
    requires k < 8 && (n + k) % 8 == 0
    ensures k == (8 - n % 8) % 8
  {
  }

  /** `huffman_encode`: appends to `dst` the codes of `src`, filled up with ones to a byte. */
  method Encode(src: seq<u8>, dst: seq<u8>) returns (dst': seq<u8>)
    ensures dst <= dst'
    ensures BytesBits(dst'[|dst|..]) == Padded(Codes(src))
  {
    hide BytesBits, Codes, Bits, BeBytes, Or, And, Shl, Shr, RotateRight, Not, EncodeEntry, CodeBits;
    var out := [];
    var state: u64, unfilled: nat := 0, 64;
    ghost var fill := [];
    ZeroBits(64);
    NothingEncoded();
    var i := 0;
    while i < |src|
      invariant 0 <= i <= |src|
      invariant Accumulates(state, unfilled, fill)
      invariant Codes(src[..i]) == BytesBits(out) + fill
    {
      var byte: u8 := src[i];
      var entry := EncodeEntry(byte);
      ghost var c := CodeBits(byte);
      CodeAsWord(byte);
      var nbits, code: u64 := entry.nbits, entry.code;
      assert src[..i + 1] == src[..i] + [byte];
      CodesSnoc(src[..i], byte);
      if unfilled > nbits {
        AddWhole(state, unfilled, fill, code, c);
        state := Or(state, Shl(code, unfilled - nbits));
        unfilled := unfilled - nbits;
        fill := fill + c;
      } else if unfilled == nbits {
        AddWhole(state, unfilled, fill, code, c);
        ShlByZero(code);
        state := Or(state, code);
        Flushed(out, state);
        out := out + BeBytes(state, 8);
        ZeroBits(64);
        state, unfilled, fill := 0, 64, [];
      } else {
        AddSplit(state, unfilled, fill, code, c);
        var rotate := RotateRight(code, nbits - unfilled);
        var mask := Shr(MAX_U64, 64 - unfilled);
        state := Or(state, And(rotate, mask));
        Flushed(out, state);
        out := out + BeBytes(state, 8);
        state := And(rotate, Not(mask));
        fill := c[unfilled..];
        unfilled := 64 - (nbits - unfilled);
      }
      i := i + 1;
    }
    assert src[..|src|] == src;
    if unfilled != 64 {
      FillUp(state, unfilled, fill);
      state := Or(state, Shr(MAX_U64, 64 - unfilled));
      LastBytes(out, state, unfilled, fill, Codes(src));
      out := out + BeBytes(state, 8)[..8 - unfilled / 8];
    } else {
      PaddingLength(|Codes(src)|, 0);
    }
    dst' := dst + out;
    assert dst'[|dst|..] == out;
  }

  lemma NothingEncoded()
    ensures Codes([]) == [] && BytesBits([]) == []
  {
  }

  lemma ShlByZero(x: u64)
    ensures Shl(x, 0) == x
  {
  }

  //
  // Decoding.
  //

  datatype Result<+T> = Ok(value: T) | InvalidHuffmanCode

  /** What `huffman_decode_inner` has done so far; `failed` once it returned its error. */
  datatype Reader = Reader(state: u8, flags: u8, out: seq<u8>, failed: bool)

  const INITIAL := Reader(0, 0, [], false)

  function ReadNibble(t: Table, r: Reader, n: nat): Reader
    requires n < 16
  {
    if r.failed then r
    else
      var e := t(r.state).At(n);
      if Error(e.flags) then r.(failed := true)
      else Reader(e.state, e.flags, if Decoded(e.flags) then r.out + [e.byte] else r.out, false)
  }

  function ReadByte(t: Table, r: Reader, b: u8): Reader {
    ReadNibble(t, ReadNibble(t, r, b / 16), b % 16)
  }

  function ReadAll(t: Table, r: Reader, src: seq<u8>): Reader
    decreases src
  {
    if src == [] then r else ReadAll(t, ReadByte(t, r, src[0]), src[1..])
  }

  /** The outcome at the end of the input. */
  function Conclude(r: Reader): Result<seq<u8>> {
    if r.failed || (r.state != 0 && !MaybeEos(r.flags)) then InvalidHuffmanCode else Ok(r.out)
  }

  /** What a whole input decodes to. */
  function Decoding(t: Table, src: seq<u8>): Result<seq<u8>> {
    Conclude(ReadAll(t, INITIAL, src))
  }

  /** `r` is where the automaton stands after the bits `read`. */
  ghost predicate StandsAfter(r: Reader, read: seq<bool>) {
    if r.failed then Codes(r.out) + CodeBits(EOS) <= read
    else
      && read == Codes(r.out) + PathBits(r.state)
      && (MaybeEos(r.flags) <==> IsPadding(PathBits(r.state)))
  }

  lemma CellReadsNibble(t: Table, s: u8, n: nat)
    requires Agrees(t) && n < 16
    ensures Reads(PathBits(s), n, 4, t(s).At(n))
  {
    hide Reads;
    assert RowAgrees(s, t(s));
  }

  lemma NibbleStep(t: Table, r: Reader, read: seq<bool>, n: nat)
    requires Agrees(t)
    requires n < 16 && StandsAfter(r, read)
    ensures StandsAfter(ReadNibble(t, r, n), read + Bits(n, 4))
  {
    hide Agrees, RowAgrees, CodeBits, PathBits, IsPadding, Codes, Bits, Row.At;
    if !r.failed {
      CellReadsNibble(t, r.state, n);
      var e := t(r.state).At(n);
      var p, c := PathBits(r.state), Codes(r.out);
      assert read + Bits(n, 4) == c + (p + Bits(n, 4));
      if !Error(e.flags) && Decoded(e.flags) {
        CodesSnoc(r.out, e.byte);
      }
    }
  }

  lemma ByteStep(t: Table, r: Reader, read: seq<bool>, b: u8)
    requires Agrees(t)
    requires StandsAfter(r, read)
    ensures StandsAfter(ReadByte(t, r, b), read + Bits(b, 8))
  {
    hide Agrees, ReadNibble, StandsAfter, Bits;
    NibbleStep(t, r, read, b / 16);
    NibbleStep(t, ReadNibble(t, r, b / 16), read + Bits(b / 16, 4), b % 16);
    assert Pow2(4) == 16;
    BitsConcat(b / 16, 4, b % 16, 4);
    assert read + Bits(b / 16, 4) + Bits(b % 16, 4) == read + Bits(b, 8);
  }

  lemma {:induction false} ReadAllStands(t: Table, r: Reader, read: seq<bool>, src: seq<u8>)
    requires Agrees(t)
    requires StandsAfter(r, read)
    ensures StandsAfter(ReadAll(t, r, src), read + BytesBits(src))
    decreases src
  {
    hide StandsAfter, ReadByte, Bits;
    if src == [] {
      assert read + BytesBits(src) == read;
    } else {
      ByteStep(t, r, read, src[0]);
      ReadAllStands(t, ReadByte(t, r, src[0]), read + Bits(src[0], 8), src[1..]);
      assert read + BytesBits(src) == read + Bits(src[0], 8) + BytesBits(src[1..]);
    }
  }

  /** After any input the automaton has read exactly the codes of its output and the path of its state. */
  lemma AutomatonReadsCodes(t: Table, src: seq<u8>)
    requires Agrees(t)
    ensures StandsAfter(ReadAll(t, INITIAL, src), BytesBits(src))
  {
    RootPath();
    hide PathBits, CodeBits;
    assert StandsAfter(INITIAL, []);
    ReadAllStands(t, INITIAL, [], src);
    assert [] + BytesBits(src) == BytesBits(src);
  }

  /** The decoder fails before the end exactly on inputs that hold EOS after some codes. */
  lemma FailsExactlyAtEos(t: Table, src: seq<u8>)
    requires Agrees(t)
    ensures ReadAll(t, INITIAL, src).failed <==> exists s: seq<u8> :: Codes(s) + CodeBits(EOS) <= BytesBits(src)
  {
    hide Agrees, CodeBits, ReadAll, BytesBits, Codes, PathBits, NoCode;
    AutomatonReadsCodes(t, src);
    var r := ReadAll(t, INITIAL, src);
    if r.failed {
      assert Codes(r.out) + CodeBits(EOS) <= BytesBits(src);
    } else {
      PathHasNoCode(t, r.state);
      forall s: seq<u8>
        ensures !(Codes(s) + CodeBits(EOS) <= BytesBits(src))
      {
        NoEosInCodes(s, r.out, PathBits(r.state));
      }
    }
  }

  /**
   The inputs that decode are exactly the encodings: the codes of the output,
   then at most seven ones up to a whole byte, and nothing else.
   */
  lemma DecodesExactlyEncodings(t: Table, src: seq<u8>, s: seq<u8>)
    requires Agrees(t)
    ensures Decoding(t, src) == Ok(s) <==> BytesBits(src) == Padded(Codes(s))
  {
    hide Agrees, StandsAfter, Conclude, ReadAll, Codes, BytesBits, Padded;
    AutomatonReadsCodes(t, src);
    var r := ReadAll(t, INITIAL, src);
    if Conclude(r) == Ok(s) {
      OutputIsRead(r, src);
    }
    if BytesBits(src) == Padded(Codes(s)) {
      AcceptsEncoding(t, src, s, r);
    }
  }

  lemma OutputIsRead(r: Reader, src: seq<u8>)
    requires StandsAfter(r, BytesBits(src)) && Conclude(r).Ok?
    ensures Conclude(r) == Ok(r.out)
    ensures BytesBits(src) == Padded(Codes(r.out))
  {
    hide CodeBits, PathBits, Codes;
    RootPath();
    var p := PathBits(r.state);
    assert p == Fill(true, |p|) && |p| < 8;
    assert |Codes(r.out)| + |p| == 8 * |src|;
    PaddingLength(|Codes(r.out)|, |p|);
  }

  lemma RootPath()
    ensures PathBits(0) == []
  {
  }

  lemma AcceptsEncoding(t: Table, src: seq<u8>, s: seq<u8>, r: Reader)
    requires Agrees(t)
    requires r == ReadAll(t, INITIAL, src) && StandsAfter(r, BytesBits(src))
    requires BytesBits(src) == Padded(Codes(s))
    ensures Conclude(r) == Ok(s)
  {
    hide Agrees, CodeBits, ReadAll, PathBits, Codes, BytesBits, NoCode;
    var n := (8 - |Codes(s)| % 8) % 8;
    var pad := Fill(true, n);
    PaddingHasNoCode(n);
    NoEosInCodes(r.out, s, pad);
    PathHasNoCode(t, r.state);
    UniqueReading(r.out, PathBits(r.state), s, pad);
    if n == 0 {
      NodeDepth(r.state);
      EmptyPath(r.state);
    }
  }

  lemma EmptyPath(s: u8)
    requires PathBits(s) == []
    ensures s == 0
  {
    NodeDepth(s);
  }

  /** Different strings have different encodings. */
  lemma EncodingIsInjective(a: seq<u8>, b: seq<u8>)
    requires Padded(Codes(a)) == Padded(Codes(b))
    ensures a == b
  {
    hide Codes;
    var m, n := (8 - |Codes(a)| % 8) % 8, (8 - |Codes(b)| % 8) % 8;
    PaddingHasNoCode(m);
    PaddingHasNoCode(n);
    UniqueReading(a, Fill(true, m), b, Fill(true, n));
  }

  //
  // Slices.
  //

  lemma {:induction false} ReadAllConcat(t: Table, r: Reader, a: seq<u8>, b: seq<u8>)
    ensures ReadAll(t, r, a + b) == ReadAll(t, ReadAll(t, r, a), b)
    decreases a
  {
    hide ReadByte;
    if a == [] {
      assert a + b == b;
    } else {
      assert (a + b)[1..] == a[1..] + b;
      ReadAllConcat(t, ReadByte(t, r, a[0]), a[1..], b);
    }
  }

  lemma {:induction false} FailedStays(t: Table, r: Reader, src: seq<u8>)
    requires r.failed
    ensures ReadAll(t, r, src) == r
    decreases src
  {
    if src != [] { FailedStays(t, r, src[1..]); }
  }

  /** A caller that feeds slices in turn, gives up at the first error and finishes after the last. */
  function DecodeSlices(t: Table, r: Reader, slices: seq<seq<u8>>): Result<seq<u8>>
    decreases slices
  {
    if r.failed || slices == [] then Conclude(r)
    else DecodeSlices(t, ReadAll(t, r, slices[0]), slices[1..])
  }

  /** Where the input is cut makes no difference, to success or to failure. */
  lemma {:induction false} SlicesDoNotMatter(t: Table, r: Reader, slices: seq<seq<u8>>)
    ensures DecodeSlices(t, r, slices) == Conclude(ReadAll(t, r, Concat(slices)))
    decreases slices
  {
    hide Conclude;
    if r.failed {
      FailedStays(t, r, Concat(slices));
    } else if slices != [] {
      ReadAllConcat(t, r, slices[0], Concat(slices[1..]));
      SlicesDoNotMatter(t, ReadAll(t, r, slices[0]), slices[1..]);
    }
  }

  /** `huffman_decode_inner`: the loop over bytes, two lookups each; `dst` grows also when it fails. */
  method DecodeInner(t: Table, src: seq<u8>, dst: seq<u8>, state: u8, flags: u8)
    returns (r: Result<(u8, u8)>, dst': seq<u8>)
    ensures
      var fed := ReadAll(t, Reader(state, flags, dst, false), src);
      && dst' == fed.out
      && r == (if fed.failed then InvalidHuffmanCode else Ok((fed.state, fed.flags)))
  {
    var st, fl := state, flags;
    dst' := dst;
    ghost var start := Reader(state, flags, dst, false);
    var i := 0;
    while i < |src|
      invariant 0 <= i <= |src|
      invariant ReadAll(t, start, src) == ReadAll(t, Reader(st, fl, dst', false), src[i..])
    {
      ghost var before := Reader(st, fl, dst', false);
      assert src[i..][1..] == src[i + 1..];
      var left := src[i] / 16;
      var right := src[i] % 16;

      var e := t(st).At(left);
      st, fl := e.state, e.flags;
      if Error(fl) {
        FailedStays(t, before.(failed := true), src[i + 1..]);
        return InvalidHuffmanCode, dst';
      }
      if Decoded(fl) {
        dst' := dst' + [e.byte];
      }
      ghost var between := Reader(st, fl, dst', false);
      assert between == ReadNibble(t, before, left);

      e := t(st).At(right);
      st, fl := e.state, e.flags;
      if Error(fl) {
        FailedStays(t, between.(failed := true), src[i + 1..]);
        return InvalidHuffmanCode, dst';
      }
      if Decoded(fl) {
        dst' := dst' + [e.byte];
      }
      i := i + 1;
    }
    r := Ok((st, fl));
  }

  /** `huffman_decode`: appends to `dst` whatever it decoded. */
  method Decode(t: Table, src: seq<u8>, dst: seq<u8>) returns (ok: bool, dst': seq<u8>)
    requires Agrees(t)
    ensures dst <= dst'
    ensures ok ==> BytesBits(src) == Padded(Codes(dst'[|dst|..]))
    ensures !ok ==> forall s: seq<u8> :: BytesBits(src) != Padded(Codes(s))
  {
    var r;
    r, dst' := DecodeInner(t, src, dst, 0, 0);
    OutputIsAppended(t, INITIAL, dst, src);
    assert Reader(0, 0, dst, false) == Prepend(dst, INITIAL);
    hide Codes, BytesBits, Padded, ReadAll;
    forall s: seq<u8>
      ensures Decoding(t, src) == Ok(s) <==> BytesBits(src) == Padded(Codes(s))
    {
      DecodesExactlyEncodings(t, src, s);
    }
    if r.InvalidHuffmanCode? {
      return false, dst';
    }
    var (state, flags) := r.value;
    if state != 0 && !MaybeEos(flags) {
      return false, dst';
    }
    assert dst'[|dst|..] == ReadAll(t, INITIAL, src).out;
    return true, dst';
  }

  ghost function Prepend(dst: seq<u8>, r: Reader): Reader {
    r.(out := dst + r.out)
  }

  lemma {:induction false} OutputIsAppended(t: Table, r: Reader, dst: seq<u8>, src: seq<u8>)
    ensures ReadAll(t, Prepend(dst, r), src) == Prepend(dst, ReadAll(t, r, src))
    decreases src
  {
    if src != [] {
      assert ReadByte(t, Prepend(dst, r), src[0]) == Prepend(dst, ReadByte(t, r, src[0]));
      OutputIsAppended(t, ReadByte(t, r, src[0]), dst, src[1..]);
    }
  }

  /** The decoder object that is fed slices. */
  class HuffmanDecoder {
    const t: Table
    var state: u8
    var flags: u8
    var vec: seq<u8>

    /** The automaton as the object keeps it between calls. */
    ghost function Kept(): Reader
      reads this
    {
      Reader(state, flags, vec, false)
    }

    constructor (table: Table)
      ensures t == table && Kept() == INITIAL
    {
      t := table;
      state, flags, vec := 0, 0, [];
    }

    /** On an error the output so far stays in `vec`, the state is the one before the call. */
    method Decode(src: seq<u8>) returns (ok: bool)
      modifies this
      ensures
        var fed := ReadAll(t, old(Kept()), src);
        && ok == !fed.failed
        && (ok ==> Kept() == fed)
        && (!ok ==> Kept() == old(Kept()).(out := fed.out))
    {
      var r, v := DecodeInner(t, src, vec, state, flags);
      vec := v;
      if r.InvalidHuffmanCode? {
        return false;
      }
      state, flags := r.value.0, r.value.1;
      return true;
    }

    method Finish() returns (r: Result<seq<u8>>)
      ensures r == Conclude(Kept())
    {
      if state != 0 && !MaybeEos(flags) {
        return InvalidHuffmanCode;
      }
      return Ok(vec);
    }
  }

  /** A whole run of the decoder object gives what one call on the joined slices gives. */
  method DecodeInSlices(t: Table, slices: seq<seq<u8>>) returns (r: Result<seq<u8>>)
    requires Agrees(t)
    ensures r == Decoding(t, Concat(slices))
    ensures forall s: seq<u8> :: r == Ok(s) <==> BytesBits(Concat(slices)) == Padded(Codes(s))
  {
    hide ReadAll, Codes, BytesBits, Padded;
    var d := new HuffmanDecoder(t);
    SlicesDoNotMatter(t, INITIAL, slices);
    forall s: seq<u8>
      ensures Decoding(t, Concat(slices)) == Ok(s) <==> BytesBits(Concat(slices)) == Padded(Codes(s))
    {
      DecodesExactlyEncodings(t, Concat(slices), s);
    }
    var i := 0;
    while i < |slices|
      invariant 0 <= i <= |slices|
      invariant d.t == t
      invariant DecodeSlices(t, INITIAL, slices) == DecodeSlices(t, d.Kept(), slices[i..])
    {
      assert slices[i..][1..] == slices[i + 1..];
      var ok := d.Decode(slices[i]);
      if !ok {
        return InvalidHuffmanCode;
      }
      i := i + 1;
    }
    r := d.Finish();
  }

  //
  // The concrete table.
  //

  /** The table of the source satisfies what the theorems above ask of it. */
  lemma DecodeTableAgrees()
    ensures Agrees(DecodeRow)
  {
    hide RowAgrees, DecodeRow;
    forall s: u8
      ensures RowAgrees(s, DecodeRow(s))
    {
      TableAgrees(s);
    }
  }

  /** Encoding and decoding again, with the tables of the source, in any slices, gives the string back. */
  method RoundTrip(s: seq<u8>, cut: seq<u8> -> seq<seq<u8>>) returns (r: Result<seq<u8>>)
    requires forall b: seq<u8> :: Concat(cut(b)) == b
    ensures r == Ok(s)
  {
    hide DecodeRow, Decoding, Codes, BytesBits, Padded, Agrees;
    DecodeTableAgrees();
    var b := Encode(s, []);
    assert b[0..] == b;
    r := DecodeInSlices(DecodeRow, cut(b));
  }
}
