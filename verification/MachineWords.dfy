/**
 Bytes and 64-bit machine words as bounded integers, and the bit strings
 (most significant bit first) that they stand for.
 */
module MachineWords {

  type u8 = x: int | 0 <= x < 256
  type u64 = x: int | 0 <= x < 0x1_0000_0000_0000_0000

  type Bytes = seq<u8>

  datatype Option<+T> = None | Some(value: T)

  const MAX_U64: u64 := 0xffff_ffff_ffff_ffff

  function Pow2(n: nat): (p: nat)
    ensures p > 0
  {
    if n == 0 then 1 else 2 * Pow2(n - 1)
  }

  /** `n` copies of `b`. */
  function Fill(b: bool, n: nat): (s: seq<bool>)
    ensures |s| == n
  {
    seq(n, i => b)
  }

  /** The low `n` bits of a number. */
  function Bits(v: nat, n: nat): (s: seq<bool>)
    ensures |s| == n
  {
    if n == 0 then [] else Bits(v / 2, n - 1) + [v % 2 == 1]
  }

  /** The bits of a byte string, eight a byte. */
  function BytesBits(s: seq<u8>): (r: seq<bool>)
    ensures |r| == 8 * |s|
  {
    if s == [] then [] else Bits(s[0], 8) + BytesBits(s[1..])
  }

  //
  // The word operators of the source.
  //

  /** `x | y`. */
  function BitOr(x: nat, y: nat): nat {
    if x == 0 && y == 0 then 0
    else 2 * BitOr(x / 2, y / 2) + (if x % 2 == 1 || y % 2 == 1 then 1 else 0)
  }

  /** `x & y`. */
  function BitAnd(x: nat, y: nat): nat {
    if x == 0 || y == 0 then 0
    else 2 * BitAnd(x / 2, y / 2) + (if x % 2 == 1 && y % 2 == 1 then 1 else 0)
  }

  /** `x | y` on words. */
  function Or(x: u64, y: u64): u64 {
    WordOr(x, y);
    BitOr(x, y)
  }

  /** `x & y` on words. */
  function And(x: u64, y: u64): u64 {
    AndBound(x, y);
    BitAnd(x, y)
  }

  lemma WordOr(x: u64, y: u64)
    ensures BitOr(x, y) < 0x1_0000_0000_0000_0000
  {
    Pow2Word();
    OrBound(x, y, 64);
  }

  /** `!x`. */
  function Not(x: u64): u64 {
    MAX_U64 - x
  }

  // Shifts and rotation by k places, as k single-place steps.

  /** `x << k`: bits that leave the word are lost. */
  function Shl(x: u64, k: nat): u64 {
    if k == 0 then x
    else
      var y := Shl(x, k - 1);
      if y < 0x8000_0000_0000_0000 then 2 * y else 2 * y - 0x1_0000_0000_0000_0000
  }

  /** `x >> k`. */
  function Shr(x: u64, k: nat): u64 {
    if k == 0 then x else Shr(x, k - 1) / 2
  }

  /** `x.rotate_right(k)`. */
  function RotateRight(x: u64, k: nat): u64 {
    if k == 0 then x
    else var y := RotateRight(x, k - 1); y / 2 + y % 2 * 0x8000_0000_0000_0000
  }

  /** The `n` low bytes of `x`, most significant first; `x.to_be_bytes()` for `n == 8`. */
  function BeBytes(x: nat, n: nat): (s: seq<u8>)
    ensures |s| == n
  {
    if n == 0 then [] else BeBytes(x / 256, n - 1) + [x % 256]
  }

  //
  // Numbers as bit strings.
  //

  lemma {:induction false} Pow2Add(a: nat, b: nat)
    ensures Pow2(a + b) == Pow2(a) * Pow2(b)
  {
    if a > 0 {
      Pow2Add(a - 1, b);
      assert Pow2(a + b) == 2 * Pow2(a - 1 + b);
      MulAssoc(2, Pow2(a - 1), Pow2(b));
    }
  }

  lemma MulAssoc(a: int, b: int, c: int)
    ensures a * b * c == a * (b * c)
  {
  }

  lemma Pow2Eight()
    ensures Pow2(8) == 256
  {
  }

  lemma Pow2Word()
    ensures Pow2(63) == 0x8000_0000_0000_0000 && Pow2(64) == 0x1_0000_0000_0000_0000
  {
    Pow2Eight();
    Pow2Square(8, 256);
    Pow2Square(16, 0x1_0000);
    Pow2Square(32, 0x1_0000_0000);
  }

  lemma Pow2Square(n: nat, p: nat)
    requires Pow2(n) == p
    ensures Pow2(n + n) == p * p
  {
    Pow2Add(n, n);
  }

  // Halving a number that was scaled up and extended by k low bits.
  lemma HalveScaled(x: nat, y: nat, k: nat)
    requires k > 0 && y < Pow2(k)
    ensures y / 2 < Pow2(k - 1)
    ensures (x * Pow2(k) + y) / 2 == x * Pow2(k - 1) + y / 2
    ensures (x * Pow2(k) + y) % 2 == y % 2
  {
    var p := Pow2(k - 1);
    MulAssoc(2, x, p);
    assert x * Pow2(k) == 2 * (x * p) by {
      assert Pow2(k) == 2 * p;
      assert x * (2 * p) == 2 * (x * p);
    }
  }

  // The bits of x followed by the k bits of y.
  lemma {:induction false} BitsConcat(x: nat, n: nat, y: nat, k: nat)
    requires y < Pow2(k)
    ensures Bits(x * Pow2(k) + y, n + k) == Bits(x, n) + Bits(y, k)
  {
    if k == 0 {
      assert x * Pow2(0) + y == x;
    } else {
      HalveScaled(x, y, k);
      BitsConcat(x, n, y / 2, k - 1);
    }
  }

  // A leading bit may be read with the bits before it or with the bits after it.
  lemma BitsDown(val: nat, len: nat, b: bool, n: nat, k: nat)
    requires n < Pow2(k)
    ensures Bits(val + val + (if b then 1 else 0), len + 1) + Bits(n, k)
         == Bits(val, len) + Bits((if b then Pow2(k) else 0) + n, k + 1)
  {
    var i := if b then 1 else 0;
    var v := val + val + i;
    assert v / 2 == val && v % 2 == i;
    BitsConcat(i, 1, n, k);
    assert i * Pow2(k) == if b then Pow2(k) else 0;
    assert Bits(i, 1) == Bits(i / 2, 0) + [b];
  }

  // Adding a multiple of 2^n leaves the low n bits alone.
  lemma BitsModulo(v: nat, c: nat, n: nat)
    requires v < Pow2(n)
    ensures Bits(c * Pow2(n) + v, n) == Bits(v, n)
  {
    BitsConcat(c, 0, v, n);
  }

  lemma {:induction false} DropTop(v: nat, n: nat)
    requires n > 0
    ensures Bits(v, n)[1..] == Bits(v, n - 1)
  {
    if n > 1 {
      DropTop(v / 2, n - 1);
    }
  }

  lemma {:induction false} BitsInjective(x: nat, y: nat, n: nat)
    requires x < Pow2(n) && y < Pow2(n)
    requires Bits(x, n) == Bits(y, n)
    ensures x == y
  {
    if n > 0 {
      var a, b := Bits(x / 2, n - 1), Bits(y / 2, n - 1);
      assert a == Bits(x, n)[..n - 1] && b == Bits(y, n)[..n - 1];
      assert (x % 2 == 1) == Bits(x, n)[n - 1] && (y % 2 == 1) == Bits(y, n)[n - 1];
      BitsInjective(x / 2, y / 2, n - 1);
    }
  }

  lemma {:induction false} ZeroBits(n: nat)
    ensures Bits(0, n) == Fill(false, n)
  {
    if n > 0 { ZeroBits(n - 1); }
  }

  lemma {:induction false} OnesBits(n: nat)
    ensures Bits(Pow2(n) - 1, n) == Fill(true, n)
  {
    if n > 0 {
      assert (Pow2(n) - 1) / 2 == Pow2(n - 1) - 1;
      OnesBits(n - 1);
    }
  }

  // A number below 2^k, written with n more bits, starts with n zeros.
  lemma BitsWiden(v: nat, n: nat, k: nat)
    requires v < Pow2(k)
    ensures Bits(v, n + k) == Fill(false, n) + Bits(v, k)
  {
    BitsConcat(0, n, v, k);
    ZeroBits(n);
  }

  lemma {:induction false} OrBits(x: nat, y: nat, n: nat)
    ensures forall i | 0 <= i < n :: Bits(BitOr(x, y), n)[i] == (Bits(x, n)[i] || Bits(y, n)[i])
  {
    if n > 0 {
      OrBits(x / 2, y / 2, n - 1);
      assert BitOr(x, y) / 2 == BitOr(x / 2, y / 2);
    }
  }

  lemma {:induction false} AndBits(x: nat, y: nat, n: nat)
    ensures forall i | 0 <= i < n :: Bits(BitAnd(x, y), n)[i] == (Bits(x, n)[i] && Bits(y, n)[i])
  {
    if n > 0 {
      AndBits(x / 2, y / 2, n - 1);
      assert BitAnd(x, y) / 2 == BitAnd(x / 2, y / 2);
    }
  }

  lemma {:induction false} ComplementBits(x: nat, n: nat)
    requires x < Pow2(n)
    ensures forall i | 0 <= i < n :: Bits(Pow2(n) - 1 - x, n)[i] == !Bits(x, n)[i]
  {
    if n > 0 {
      assert (Pow2(n) - 1 - x) / 2 == Pow2(n - 1) - 1 - x / 2;
      ComplementBits(x / 2, n - 1);
    }
  }

  lemma NotBits(x: u64)
    ensures forall i | 0 <= i < 64 :: Bits(Not(x), 64)[i] == !Bits(x, 64)[i]
  {
    Pow2Word();
    ComplementBits(x, 64);
  }

  // Or keeps within n bits.
  lemma {:induction false} OrBound(x: nat, y: nat, n: nat)
    requires x < Pow2(n) && y < Pow2(n)
    ensures BitOr(x, y) < Pow2(n)
  {
    if n > 0 { OrBound(x / 2, y / 2, n - 1); }
  }

  lemma {:induction false} AndBound(x: nat, y: nat)
    ensures BitAnd(x, y) <= x && BitAnd(x, y) <= y
  {
    if x != 0 && y != 0 { AndBound(x / 2, y / 2); }
  }

  lemma ShlOne(y: u64, z: u64)
    requires z == 2 * y || z + 0x1_0000_0000_0000_0000 == 2 * y
    ensures Bits(z, 64) == Bits(y, 64)[1..] + [false]
  {
    DropTop(y, 64);
    Doubled(y, 64);
    if z != 2 * y {
      assert Pow2(64) == 0x1_0000_0000_0000_0000 by { Pow2Word(); }
      BitsModulo(z, 1, 64);
    }
  }

  lemma Doubled(y: nat, n: nat)
    requires n > 0
    ensures Bits(2 * y, n) == Bits(y, n - 1) + [false]
  {
    assert 2 * y / 2 == y && 2 * y % 2 == 0;
  }

  lemma {:induction false} ShlBits(x: u64, k: nat)
    requires k <= 64
    ensures Bits(Shl(x, k), 64) == Bits(x, 64)[k..] + Fill(false, k)
  {
    if k > 0 {
      ShlBits(x, k - 1);
      ShlOne(Shl(x, k - 1), Shl(x, k));
    }
  }

  lemma ShrOne(y: u64)
    ensures Bits(y / 2, 64) == [false] + Bits(y, 64)[..63]
  {
    Pow2Word();
    BitsWiden(y / 2, 1, 63);
    assert Bits(y, 64)[..63] == Bits(y / 2, 63);
  }

  lemma {:induction false} ShrBits(x: u64, k: nat)
    requires k <= 64
    ensures Bits(Shr(x, k), 64) == Fill(false, k) + Bits(x, 64)[..64 - k]
  {
    if k > 0 {
      ShrBits(x, k - 1);
      ShrOne(Shr(x, k - 1));
    }
  }

  lemma RotateOne(y: u64)
    ensures Bits(RotateRight(y, 1), 64) == Bits(y, 64)[63..] + Bits(y, 64)[..63]
  {
    Pow2Word();
    BitsConcat(y % 2, 1, y / 2, 63);
    assert Bits(y % 2, 1) == Bits(y % 2 / 2, 0) + [y % 2 == 1];
    assert RotateRight(y, 1) == y % 2 * Pow2(63) + y / 2 by {
      assert RotateRight(y, 0) == y;
    }
  }

  lemma {:induction false} RotateBits(x: u64, k: nat)
    requires k <= 64
    ensures Bits(RotateRight(x, k), 64) == Bits(x, 64)[64 - k..] + Bits(x, 64)[..64 - k]
  {
    if k > 0 {
      var y := RotateRight(x, k - 1);
      RotateBits(x, k - 1);
      RotateOne(y);
      assert RotateRight(x, k) == RotateRight(y, 1);
    }
  }

  //
  // Bytes.
  //

  lemma {:induction false} BytesBitsConcat(a: seq<u8>, b: seq<u8>)
    ensures BytesBits(a + b) == BytesBits(a) + BytesBits(b)
  {
    if a == [] {
      assert a + b == b;
    } else {
      assert (a + b)[1..] == a[1..] + b;
      BytesBitsConcat(a[1..], b);
    }
  }

  lemma {:induction false} BytesBitsInjective(a: seq<u8>, b: seq<u8>)
    requires BytesBits(a) == BytesBits(b)
    ensures a == b
  {
    assert |a| == |b|;
    if a != [] {
      var s := BytesBits(a);
      assert s[..8] == Bits(a[0], 8) == Bits(b[0], 8);
      assert s[8..] == BytesBits(a[1..]) == BytesBits(b[1..]);
      Pow2Eight();
      BitsInjective(a[0], b[0], 8);
      BytesBitsInjective(a[1..], b[1..]);
    }
  }

  lemma {:induction false} BeBytesBits(x: nat, n: nat)
    ensures BytesBits(BeBytes(x, n)) == Bits(x, 8 * n)
  {
    if n > 0 {
      BeBytesBits(x / 256, n - 1);
      BytesBitsConcat(BeBytes(x / 256, n - 1), [x % 256]);
      assert BytesBits([x % 256]) == Bits(x % 256, 8) + BytesBits([]);
      Pow2Eight();
      BitsConcat(x / 256, 8 * (n - 1), x % 256, 8);
      assert x == x / 256 * 256 + x % 256;
    }
  }

  //
  // Division by a variable.
  //

  lemma AddOne(a: nat, m: nat)
    requires m > 0
    ensures (a + m) / m == a / m + 1 && (a + m) % m == a % m
  {
    var q := a / m;
    assert a == q * m + a % m;
    assert (q + 1) * m == q * m + m;
    UniqueQuotient(a + m, m, q + 1, a % m);
  }

  lemma UniqueQuotient(x: nat, m: nat, q: nat, r: nat)
    requires m > 0 && r < m && x == q * m + r
    ensures x / m == q && x % m == r
  {
    var p := x / m;
    assert (p + 1) * m == p * m + m && (q + 1) * m == q * m + m;
    if p < q {
      Multiples(p + 1, q, m);
    } else if q < p {
      Multiples(q + 1, p, m);
    }
  }

  lemma Multiples(a: int, b: int, m: nat)
    requires a <= b
    ensures a * m <= b * m
  {
  }

  //
  // Segments.
  //

  function Min(a: nat, b: nat): nat {
    if a < b then a else b
  }

  function Sum(ns: seq<nat>): nat {
    if ns == [] then 0 else ns[0] + Sum(ns[1..])
  }

  lemma {:induction false} SumLast(ns: seq<nat>, last: nat)
    ensures Sum(ns + [last]) == Sum(ns) + last
  {
    var all := ns + [last];
    if ns == [] {
      assert all[1..] == [];
    } else {
      assert all[0] == ns[0] && all[1..] == ns[1..] + [last];
      SumLast(ns[1..], last);
    }
  }

  function Concat(segments: seq<Bytes>): Bytes {
    if segments == [] then [] else segments[0] + Concat(segments[1..])
  }

  lemma {:induction false} ConcatLast(segments: seq<Bytes>, last: Bytes)
    ensures Concat(segments + [last]) == Concat(segments) + last
  {
    var all := segments + [last];
    if segments == [] {
      assert all[1..] == [];
      assert Concat(all) == last + [];
    } else {
      assert all[0] == segments[0] && all[1..] == segments[1..] + [last];
      ConcatLast(segments[1..], last);
    }
  }

  //
  // Writing into a buffer.
  //

  /** `was` with `w` written to position `at`. */
  function Spliced(was: seq<u8>, at: nat, w: seq<u8>): (now: seq<u8>)
    requires at + |w| <= |was|
    ensures |now| == |was|
  {
    was[..at] + w + was[at + |w|..]
  }

  /** `copy_from_slice`. */
  method CopySlice(src: Bytes, buf: array<u8>, at: nat)
    requires at + |src| <= buf.Length
    modifies buf
    ensures buf[..] == Spliced(old(buf[..]), at, src)
  {
    forall i | 0 <= i < |src| {
      buf[at + i] := src[i];
    }
  }

  lemma SpliceNone(was: seq<u8>, at: nat, w: seq<u8>)
    requires at <= |was|
    ensures Spliced(was, at, w[..0]) == was
  {
  }

  lemma SpliceOne(was: seq<u8>, at: nat, w: seq<u8>, i: nat)
    requires at + |w| <= |was| && i < |w|
    ensures Spliced(was, at, w[..i])[at + i := w[i]] == Spliced(was, at, w[..i + 1])
  {
  }

  lemma SpliceAll(was: seq<u8>, at: nat, w: seq<u8>)
    requires at + |w| <= |was|
    ensures Spliced(was, at, w[..|w|]) == Spliced(was, at, w)
  {
    assert w[..|w|] == w;
  }

  lemma SpliceMore(was: seq<u8>, at: nat, v: seq<u8>, w: seq<u8>)
    requires at + |v| + |w| <= |was|
    ensures Spliced(Spliced(was, at, v), at + |v|, w) == Spliced(was, at, v + w)
  {
  }
}
