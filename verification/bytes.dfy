/** Byte-level helpers: ASCII literals, zero runs and little-endian integers. */
module Bytes {
  import opened Wrappers

  /** An 8-bit byte. */
  newtype byte = b: int | 0 <= b < 256

  /** True when every character of `s` is 7-bit ASCII. */
  predicate IsAscii(s: string) {
    forall i :: 0 <= i < |s| ==> s[i] as int < 128
  }

  /** The bytes of an ASCII text, as a Python `b'...'` literal spells them. */
  function Ascii(s: string): (r: seq<byte>)
    requires IsAscii(s)
    ensures |r| == |s|
    ensures forall i :: 0 <= i < |s| ==> r[i] as int == s[i] as int
  {
    seq(|s|, i requires 0 <= i < |s| => s[i] as int as byte)
  }

  /** A run of `n` zero bytes. */
  function Zeros(n: nat): (r: seq<byte>)
    ensures |r| == n
    ensures AllZero(r)
  {
    seq(n, _ => 0)
  }

  predicate AllZero(b: seq<byte>) {
    forall i :: 0 <= i < |b| ==> b[i] == 0
  }

  /** 256 raised to `n`: the number of distinct values `n` bytes can hold. */
  function Pow256(n: nat): (r: nat)
    ensures r >= 1
  {
    if n == 0 then 1 else 256 * Pow256(n - 1)
  }

  /** The unsigned value of `b` read least significant byte first. */
  function DecodeLE(b: seq<byte>): (r: nat)
    ensures r < Pow256(|b|)
  {
    if b == [] then 0
    else
      var rest := DecodeLE(b[1..]);
      assert b[0] as nat + 256 * rest <= 255 + 256 * (Pow256(|b| - 1) - 1);
      b[0] as nat + 256 * rest
  }

  /** The `width` bytes that hold `n` least significant byte first. */
  function EncodeLE(n: nat, width: nat): (r: seq<byte>)
    requires n < Pow256(width)
    ensures |r| == width
    ensures DecodeLE(r) == n
  {
    if width == 0 then []
    else
      var p := Pow256(width - 1);
      assert Pow256(width) == 256 * p;
      SplitLowByte(n, p);
      var q := n / 256;
      var m := n % 256;
      var high := EncodeLE(q, width - 1);
      DecodeCons(m as byte, high);
      assert DecodeLE([m as byte] + high) == m + 256 * q;
      [m as byte] + high
  }

  /** Splitting off the low byte of a value below `256 * p`. */
  lemma SplitLowByte(n: nat, p: nat)
    requires n < 256 * p
    ensures n / 256 < p
    ensures 0 <= n % 256 < 256
    ensures n == n % 256 + 256 * (n / 256)
  {
  }

  /** Decoding a byte string one byte longer at the low end. */
  lemma DecodeCons(x: byte, rest: seq<byte>)
    ensures DecodeLE([x] + rest) == x as nat + 256 * DecodeLE(rest)
  {
    assert ([x] + rest)[1..] == rest;
  }

  /** Python's `n.to_bytes(width, byteorder='little')` on a non-negative
      `n`: it raises OverflowError, here `None`, when `n` does not fit. */
  function ToBytesLE(n: nat, width: nat): (r: Option<seq<byte>>)
    ensures r.None? <==> n >= Pow256(width)
    ensures r.Some? ==> |r.value| == width && DecodeLE(r.value) == n
  {
    if n < Pow256(width) then Some(EncodeLE(n, width)) else None
  }

  /** Every byte string is the encoding of its own decoded value, so the
      little-endian field of a given width is a bijection onto its range. */
  lemma {:induction false} EncodeDecodeLE(b: seq<byte>)
    ensures EncodeLE(DecodeLE(b), |b|) == b
  {
    if b != [] {
      var rest := DecodeLE(b[1..]);
      var n := DecodeLE(b);
      LowByteOf(b[0], rest);
      EncodeDecodeLE(b[1..]);
      assert EncodeLE(n, |b|) == [(n % 256) as byte] + EncodeLE(n / 256, |b| - 1);
      assert [b[0]] + b[1..] == b;
    }
  }

  /** The low byte and the high part of `x + 256 * rest`. */
  lemma LowByteOf(x: byte, rest: nat)
    ensures (x as nat + 256 * rest) % 256 == x as nat
    ensures (x as nat + 256 * rest) / 256 == rest
    ensures ((x as nat + 256 * rest) % 256) as byte == x
  {
  }

  /** Two byte strings of one width with equal values are equal. */
  lemma DecodeLEInjective(a: seq<byte>, b: seq<byte>)
    requires |a| == |b|
    requires DecodeLE(a) == DecodeLE(b)
    ensures a == b
  {
    EncodeDecodeLE(a);
    EncodeDecodeLE(b);
  }

  /** The closed form of a four-byte little-endian field. */
  lemma DecodeLE32(b: seq<byte>)
    requires |b| == 4
    ensures DecodeLE(b) == b[0] as nat + 0x100 * b[1] as nat
                           + 0x1_0000 * b[2] as nat + 0x100_0000 * b[3] as nat
  {
    var d3, d2, d1 := DecodeLE(b[3..]), DecodeLE(b[2..]), DecodeLE(b[1..]);
    assert d3 == b[3] as nat by {
      DecodeCons(b[3], []);
      assert b[3..] == [b[3]] + [];
    }
    assert d2 == b[2] as nat + 256 * d3 by {
      DecodeCons(b[2], b[3..]);
      assert b[2..] == [b[2]] + b[3..];
    }
    assert d1 == b[1] as nat + 256 * d2 by {
      DecodeCons(b[1], b[2..]);
      assert b[1..] == [b[1]] + b[2..];
    }
    assert DecodeLE(b) == b[0] as nat + 256 * d1;
  }

  /** A four-byte field holds values below 2^32. */
  lemma Pow256Four()
    ensures Pow256(4) == 0x1_0000_0000
  {
  }

}
