/** Variable-length integers of HTTP/3: two bits of length, then the value. */
module H3Octets {
  import opened MachineWords

  const VARINT_LIMIT: nat := 0x4000_0000_0000_0000

  //
  // Big-endian integers.
  //

  function Pow256(n: nat): (p: nat)
    ensures p > 0
  {
    if n == 0 then 1 else 256 * Pow256(n - 1)
  }

  /** `from_be_bytes`. */
  function FromBe(s: Bytes): nat {
    if s == [] then 0 else FromBe(s[..|s| - 1]) * 256 + s[|s| - 1]
  }

  lemma {:induction false} BeRoundTrip(v: nat, n: nat)
    requires v < Pow256(n)
    ensures FromBe(BeBytes(v, n)) == v
  {
    if n > 0 {
      BeRoundTrip(v / 256, n - 1);
      assert BeBytes(v, n)[..n - 1] == BeBytes(v / 256, n - 1);
    }
  }

  // What is added above the lowest `n - 1` bytes shows in the first byte.
  lemma {:induction false} BeFirst(v: nat, m: nat, n: nat)
    requires n > 0 && v < Pow256(n) && BeBytes(v, n)[0] + m < 256
    ensures BeBytes(v + m * Pow256(n - 1), n) == BeBytes(v, n)[0 := BeBytes(v, n)[0] + m]
  {
    if n == 1 {
      assert BeBytes(v, 1) == [v % 256] && BeBytes(v + m, 1) == [(v + m) % 256];
    } else {
      var x := m * Pow256(n - 2);
      assert m * Pow256(n - 1) == 256 * x;
      assert BeBytes(v, n)[0] == BeBytes(v / 256, n - 1)[0];
      BeFirst(v / 256, m, n - 1);
      assert (v + 256 * x) / 256 == v / 256 + x && (v + 256 * x) % 256 == v % 256;
    }
  }

  lemma {:induction false} FirstIsSmall(v: nat, n: nat)
    requires n > 0 && v < 64 * Pow256(n - 1)
    ensures v < Pow256(n) && BeBytes(v, n)[0] < 64
  {
    if n == 1 {
      assert BeBytes(v, 1) == [v % 256];
    } else {
      FirstIsSmall(v / 256, n - 1);
      assert BeBytes(v, n)[0] == BeBytes(v / 256, n - 1)[0];
    }
  }

  //
  // Encoding.
  //

  /** How many bytes a value takes. */
  function VarintLen(v: nat): (n: nat)
    requires v < VARINT_LIMIT
    ensures n == 1 || n == 2 || n == 4 || n == 8
  {
    if v <= 63 then 1
    else if v <= 16383 then 2
    else if v <= 1_073_741_823 then 4
    else 8
  }

  /** The bits that announce a length of `n` bytes, as the number of 0x40 in the first byte. */
  function LengthBits(n: nat): nat {
    if n == 1 then 0 else if n == 2 then 1 else if n == 4 then 2 else 3
  }

  /** `b | 0x40 * k`. */
  function WithLengthBits(b: u8, k: nat): u8
    requires k < 4
  {
    if k == 0 then b
    else if k == 1 then if b / 64 % 2 == 1 then b else b + 64
    else if k == 2 then if b / 128 == 1 then b else b + 128
    else b % 64 + 192
  }

  /** The value in as many bytes as it takes, with the length in the first two bits. */
  function Varint(v: nat): (s: Bytes)
    requires v < VARINT_LIMIT
    ensures |s| == VarintLen(v)
  {
    var n := VarintLen(v);
    var s := BeBytes(v, n);
    s[0 := WithLengthBits(s[0], LengthBits(n))]
  }

  //
  // Decoding.
  //

  /** The length that a first byte announces. */
  function ParseVarintLen(b: u8): (n: nat)
    ensures n == 1 || n == 2 || n == 4 || n == 8
  {
    if b < 64 then 1 else if b < 128 then 2 else if b < 192 then 4 else 8
  }

  /** What `get_varint` reads at the start of `s`, and the bytes it takes. */
  function GetVarint(s: Bytes): (r: Option<(nat, nat)>)
    ensures r.Some? ==> r.value.0 < VARINT_LIMIT && 1 <= r.value.1 <= |s|
  {
    if s == [] then None
    else
      var n := ParseVarintLen(s[0]);
      if n > |s| then None
      else
        ValueBits(n);
        Some((FromBe(s[..n]) % (64 * Pow256(n - 1)), n))
  }

  lemma ValueBits(n: nat)
    requires n == 1 || n == 2 || n == 4 || n == 8
    ensures 0 < 64 * Pow256(n - 1) <= VARINT_LIMIT
    ensures n == 1 ==> 64 * Pow256(n - 1) == 0x40
    ensures n == 2 ==> 64 * Pow256(n - 1) == 0x4000
    ensures n == 4 ==> 64 * Pow256(n - 1) == 0x4000_0000
    ensures n == 8 ==> 64 * Pow256(n - 1) == VARINT_LIMIT
  {
    assert Pow256(1) == 0x100 && Pow256(2) == 0x1_0000;
    assert Pow256(3) == 0x100_0000;
    assert Pow256(4) == 0x1_0000_0000;
    assert Pow256(5) == 0x100_0000_0000;
    assert Pow256(6) == 0x1_0000_0000_0000;
    assert Pow256(7) == 0x100_0000_0000_0000;
  }

  //
  // The round trip.
  //

  // The bytes of a varint are those of its value with the length above it.
  lemma VarintIsBe(v: nat)
    requires v < VARINT_LIMIT
    ensures
      var n := VarintLen(v);
      var w := v + LengthBits(n) * 64 * Pow256(n - 1);
      v < 64 * Pow256(n - 1) && w < Pow256(n) && Varint(v) == BeBytes(w, n)
  {
    var n := VarintLen(v);
    var k := LengthBits(n);
    ValueBits(n);
    FirstIsSmall(v, n);
    hide BeBytes, Pow256;
    BeFirst(v, k * 64, n);
    PowNext(n);
    assert WithLengthBits(BeBytes(v, n)[0], k) == BeBytes(v, n)[0] + k * 64;
  }

  lemma PowNext(n: nat)
    requires n > 0
    ensures Pow256(n) == 256 * Pow256(n - 1)
  {
  }

  /** The length is the shortest of 1, 2, 4 and 8 bytes that leave room for the value beside two bits. */
  lemma LengthIsShortest(v: nat, n: nat)
    requires v < VARINT_LIMIT && n in {1, 2, 4, 8}
    ensures VarintLen(v) <= n <==> v < 64 * Pow256(n - 1)
  {
    ValueBits(n);
    hide Pow256;
  }

  lemma SingleByte(v: nat)
    requires v < 64
    ensures Varint(v) == [v]
  {
    assert BeBytes(v, 1) == [v];
  }

  /** The shorter samples of section A.1 of RFC 9000, and 10000. */
  lemma SampleOfOne()
    ensures Varint(37) == [0x25]
  {
    SingleByte(37);
  }

  lemma SamplesOfTwo()
    ensures Varint(15293) == [0x7b, 0xbd] && Varint(10000) == [0x67, 0x10]
  {
    assert BeBytes(15293, 2) == [0x3b, 0xbd] by { assert BeBytes(59, 1) == [59]; }
    assert BeBytes(10000, 2) == [0x27, 0x10] by { assert BeBytes(39, 1) == [39]; }
    hide BeBytes;
  }

  lemma SampleOfFour()
    ensures Varint(494878333) == [0x9d, 0x7f, 0x3e, 0x7d]
  {
    assert BeBytes(29, 1) == [29];
    assert BeBytes(7551, 2) == [29, 127];
    assert BeBytes(1933118, 3) == [29, 127, 62];
    assert BeBytes(494878333, 4) == [29, 127, 62, 125];
    hide BeBytes;
  }

  /** A length longer than need be is read as well. */
  lemma LongSample()
    ensures GetVarint([0x40, 0x25]) == Some((37, 2))
  {
    var s := [0x40, 0x25];
    assert s[..2] == s && s[..1] == [0x40];
    OneByte([0x40]);
    assert FromBe(s) == FromBe([0x40]) * 256 + 0x25;
    ValueBits(2);
    hide FromBe, Pow256;
  }

  /** The first byte tells the length. */
  lemma LengthIsRecovered(v: nat)
    requires v < VARINT_LIMIT
    ensures ParseVarintLen(Varint(v)[0]) == VarintLen(v)
  {
    hide BeBytes, Pow256;
    var n := VarintLen(v);
    ValueBits(n);
    FirstIsSmall(v, n);
  }

  /** A varint is read back, and nothing after it. */
  lemma VarintRoundTrip(v: nat, rest: Bytes)
    requires v < VARINT_LIMIT
    ensures GetVarint(Varint(v) + rest) == Some((v, VarintLen(v)))
  {
    var n := VarintLen(v);
    LengthIsRecovered(v);
    VarintIsBe(v);
    ValueBits(n);
    hide BeBytes, Pow256, FromBe, Varint, LengthBits;
    var s := Varint(v) + rest;
    assert s[0] == Varint(v)[0] && s[..n] == Varint(v);
    var w := v + LengthBits(n) * 64 * Pow256(n - 1);
    BeRoundTrip(w, n);
    UniqueQuotient(w, 64 * Pow256(n - 1), LengthBits(n), v);
  }

  /** A strict prefix of a varint is not read. */
  lemma StrictPrefixFails(v: nat, k: nat)
    requires v < VARINT_LIMIT && k < VarintLen(v)
    ensures GetVarint(Varint(v)[..k]) == None
  {
    LengthIsRecovered(v);
    hide Varint;
    if k > 0 {
      assert Varint(v)[..k][0] == Varint(v)[0];
    }
  }

  /** What was read does not change when more bytes follow. */
  lemma MoreBytesFollow(s: Bytes, t: Bytes)
    requires GetVarint(s).Some?
    ensures GetVarint(s + t) == GetVarint(s)
  {
    hide FromBe, Pow256;
    var n := ParseVarintLen(s[0]);
    assert (s + t)[0] == s[0] && (s + t)[..n] == s[..n];
  }

  function Varints(vs: seq<nat>): Bytes
    requires forall i | 0 <= i < |vs| :: vs[i] < VARINT_LIMIT
  {
    if vs == [] then [] else Varint(vs[0]) + Varints(vs[1..])
  }

  /** `count` varints, one after the other, and what is left. */
  function GetVarints(s: Bytes, count: nat): Option<(seq<nat>, Bytes)> {
    if count == 0 then Some(([], s))
    else
      match GetVarint(s)
      case None => None
      case Some((v, n)) =>
        match GetVarints(s[n..], count - 1)
        case None => None
        case Some((vs, rest)) => Some(([v] + vs, rest))
  }

  /** A stream of varints is read back in order. */
  lemma {:induction false} StreamRoundTrip(vs: seq<nat>, rest: Bytes)
    requires forall i | 0 <= i < |vs| :: vs[i] < VARINT_LIMIT
    ensures GetVarints(Varints(vs) + rest, |vs|) == Some((vs, rest))
    decreases |vs|
  {
    hide GetVarint, Varint;
    if vs == [] {
      assert Varints(vs) + rest == rest;
    } else {
      var more := Varints(vs[1..]) + rest;
      assert Varints(vs) + rest == Varint(vs[0]) + more;
      VarintRoundTrip(vs[0], more);
      assert (Varint(vs[0]) + more)[VarintLen(vs[0])..] == more;
      StreamRoundTrip(vs[1..], rest);
      assert vs == [vs[0]] + vs[1..];
    }
  }

  //
  // The code.
  //

  class ReadableBytes {
    const buf: Bytes
    var idx: nat

    ghost predicate Valid()
      reads this
    {
      idx <= |buf|
    }

    constructor (bytes: Bytes)
      ensures Valid() && buf == bytes && idx == 0
    {
      buf, idx := bytes, 0;
    }

    function Cap(): nat
      requires Valid()
      reads this
    {
      |buf| - idx
    }

    /** Reads a varint at the index and moves past it, or fails and stays. */
    method ReadVarint() returns (r: Option<nat>)
      requires Valid()
      modifies this
      ensures Valid()
      ensures match GetVarint(buf[old(idx)..])
              case None => r == None && idx == old(idx)
              case Some((v, n)) => r == Some(v) && idx == old(idx) + n
    {
      if Cap() < 1 {
        return None;
      }
      var len := ParseVarintLen(buf[idx]);
      if len > Cap() {
        return None;
      }
      ValueBits(len);
      assert buf[idx..][..len] == buf[idx..idx + len];
      var out := FromBe(buf[idx..idx + len]);
      idx := idx + len;
      if len == 1 {
        OneByte(buf[idx - 1..idx]);
        return Some(out);
      } else if len == 2 {
        return Some(out % 0x4000);
      } else if len == 4 {
        return Some(out % 0x4000_0000);
      } else {
        return Some(out % 0x4000_0000_0000_0000);
      }
    }
  }

  lemma OneByte(s: Bytes)
    requires |s| == 1
    ensures FromBe(s) == s[0]
  {
    assert s[..0] == [];
  }

  /** A part of an output buffer, from `start` on, that fills up. */
  class WritableBytes {
    const bytes: array<u8>
    const start: nat
    var idx: nat

    ghost predicate Valid()
      reads this
    {
      start + idx <= bytes.Length
    }

    constructor (buf: array<u8>, from: nat)
      requires from <= buf.Length
      ensures Valid() && bytes == buf && start == from && idx == 0
    {
      bytes, start, idx := buf, from, 0;
    }

    /** Writes a varint at the index and moves past it, or fails and leaves everything as it is. */
    method WriteVarint(value: nat) returns (ok: bool)
      requires Valid() && value < VARINT_LIMIT
      modifies this, bytes
      ensures Valid() && ok == (VarintLen(value) <= bytes.Length - start - old(idx))
      ensures idx == old(idx) + if ok then VarintLen(value) else 0
      ensures bytes[..] == Spliced(old(bytes[..]), start + old(idx), if ok then Varint(value) else [])
    {
      var len := VarintLen(value);
      if bytes.Length - start - idx < len {
        SpliceNone(bytes[..], start + idx, []);
        return false;
      }
      var be := BeBytes(value, len);
      be := be[0 := WithLengthBits(be[0], LengthBits(len))];
      ghost var was, at := bytes[..], start + idx;
      forall i | 0 <= i < len {
        bytes[start + idx + i] := be[i];
      }
      idx := idx + len;
      assert bytes[..] == was[..at] + be + was[at + len..];
      return true;
    }
  }
}
