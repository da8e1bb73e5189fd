/** The STRM container that Rush 2049 reads: a fixed header carrying the
    payload length, followed by the raw PCM payload unchanged. */
module Strm {
  import opened Wrappers
  import opened Bytes

  /** The script's `header_size` variable. Its comment calls it the header
      length, but the padding written is `header_size - 12` bytes after a
      13-byte prefix, so the header actually written is one byte longer. */
  const HeaderSizeVariable: nat := 0x1FF

  /** Length of the header the script writes: magic, length field, channel
      byte, three padding bytes, reserved byte, then the zero run. */
  const HeaderLength: nat := 4 + 4 + 1 + 3 + 1 + (HeaderSizeVariable - 12)

  /** The four ASCII bytes `STRM`. */
  const Magic: seq<byte> := [0x53, 0x54, 0x52, 0x4D]

  /** Byte 8: ASCII '6', written as `b'\x36'`. */
  const ChannelByte: byte := 0x36

  /** Byte 12: a constant of unknown meaning. */
  const ReservedByte: byte := 0x52

  /** Width of the little-endian length field. */
  const LengthFieldWidth: nat := 4

  datatype StrmError =
    /** `int.to_bytes(4, ...)` raised OverflowError: the payload is 4 GiB or more. */
    | LengthOverflow(length: nat)

  /** The header bytes after the length field: the channel byte, three zero
      bytes, the reserved byte and the `header_size - 12` zero run. */
  function Trailer(): (r: seq<byte>)
    ensures |r| == HeaderLength - 8
  {
    [ChannelByte] + Zeros(3) + [ReservedByte] + Zeros(HeaderSizeVariable - 12)
  }

  /** The output file written for a payload: header, then the payload. */
  function Encode(payload: seq<byte>): (r: Result<seq<byte>, StrmError>)
    ensures r.Failure? <==> |payload| >= 0x1_0000_0000
    ensures r.Failure? ==> r.error == LengthOverflow(|payload|)
    ensures r.Success? ==> WellFormed(r.value) && PayloadOf(r.value) == payload
  {
    Pow256Four();
    match ToBytesLE(|payload|, LengthFieldWidth)
    case None => Failure(LengthOverflow(|payload|))
    case Some(field) =>
      var f := Magic + field + Trailer() + payload;
      assert f[..4] == Magic;
      assert f[4..8] == field;
      assert f[8..HeaderLength] == Trailer();
      TrailerFieldsExactly(f[8..HeaderLength]);
      assert f[HeaderLength..] == payload;
      Success(f)
  }

  /** The bytes after the header. */
  function PayloadOf(f: seq<byte>): seq<byte>
    requires |f| >= HeaderLength
  {
    f[HeaderLength..]
  }

  /** What a reader checks field by field: the magic, a length field equal
      to the number of bytes after the header, and the fixed trailer. */
  predicate WellFormed(f: seq<byte>) {
    && |f| >= HeaderLength
    && f[..4] == Magic
    && DecodeLE(f[4..8]) == |f| - HeaderLength
    && TrailerFields(f[8..HeaderLength])
  }

  /** The header bytes from offset 8, field by field: the channel byte,
      three zero bytes, the reserved byte, then zeros to the end. */
  predicate TrailerFields(t: seq<byte>) {
    && |t| == HeaderLength - 8
    && t[0] == ChannelByte
    && AllZero(t[1..4])
    && t[4] == ReservedByte
    && AllZero(t[5..])
  }

  /** The trailer is the only byte string with those fields. */
  lemma TrailerFieldsExactly(t: seq<byte>)
    ensures TrailerFields(t) <==> t == Trailer()
  {
    var e := Trailer();
    assert e[1..4] == Zeros(3);
    assert e[5..] == Zeros(HeaderSizeVariable - 12);
    if TrailerFields(t) {
      assert t == [t[0]] + t[1..4] + [t[4]] + t[5..];
      assert t[1..4] == Zeros(3);
      assert t[5..] == Zeros(HeaderSizeVariable - 12);
    }
  }

  /** Reads a STRM file back into its payload. */
  function Decode(f: seq<byte>): (r: Option<seq<byte>>)
  {
    if WellFormed(f) then Some(PayloadOf(f)) else None
  }

  /** The header is 512 bytes, one more than `header_size`; every file is
      512 bytes longer than its payload. */
  lemma HeaderIs512Bytes(payload: seq<byte>)
    requires Encode(payload).Success?
    ensures HeaderLength == 512 == HeaderSizeVariable + 1
    ensures |Encode(payload).value| == 512 + |payload|
  {
  }

  /** The magic is the ASCII spelling of `STRM`. */
  lemma MagicIsAscii()
    ensures Magic == Ascii("STRM")
  {
    var a := Ascii("STRM");
    assert a[0] == 0x53 && a[1] == 0x54 && a[2] == 0x52 && a[3] == 0x4D;
  }

  /** Bytes 0 to 3 of an encoded file are the ASCII magic `STRM`. */
  lemma MagicBytes(payload: seq<byte>)
    requires Encode(payload).Success?
    ensures Encode(payload).value[..4] == Ascii("STRM")
  {
    MagicIsAscii();
  }

  /** Bytes 4 to 7 of an encoded file are the payload length as a
      little-endian uint32. */
  lemma LengthBytes(payload: seq<byte>)
    requires Encode(payload).Success?
    ensures var f := Encode(payload).value;
      && f[4..8] == EncodeLE(|payload|, 4)
      && f[4] as nat + 0x100 * f[5] as nat + 0x1_0000 * f[6] as nat + 0x100_0000 * f[7] as nat == |payload|
  {
    var f := Encode(payload).value;
    var field := f[4..8];
    LengthField(field, |payload|);
    assert field[0] == f[4] && field[1] == f[5] && field[2] == f[6] && field[3] == f[7];
  }

  /** A four-byte field decoding to `n` is the encoding of `n`, and its
      bytes weigh 1, 2^8, 2^16 and 2^24. */
  lemma LengthField(field: seq<byte>, n: nat)
    requires |field| == 4 && DecodeLE(field) == n
    ensures field == EncodeLE(n, 4)
    ensures field[0] as nat + 0x100 * field[1] as nat + 0x1_0000 * field[2] as nat + 0x100_0000 * field[3] as nat == n
  {
    EncodeDecodeLE(field);
    DecodeLE32(field);
  }

  /** Bytes 8 to 12 of an encoded file: ASCII '6', three zero bytes and 0x52. */
  lemma ChannelAndReserved(payload: seq<byte>)
    requires Encode(payload).Success?
    ensures var f := Encode(payload).value;
      f[8] == 0x36 && f[9] == 0 && f[10] == 0 && f[11] == 0 && f[12] == 0x52
  {
    var f := Encode(payload).value;
    var t := f[8..HeaderLength];
    assert t[1..4][0] == f[9] && t[1..4][1] == f[10] && t[1..4][2] == f[11];
    assert t[0] == f[8] && t[4] == f[12];
  }

  /** Bytes 13 to 511 of an encoded file are zero and the payload follows
      from offset 512 unchanged. */
  lemma PaddingAndPayload(payload: seq<byte>)
    requires Encode(payload).Success?
    ensures var f := Encode(payload).value;
      && (forall i :: 13 <= i < 512 ==> f[i] == 0)
      && f[512..] == payload
  {
    var f := Encode(payload).value;
    var t := f[8..HeaderLength];
    forall i | 13 <= i < 512
      ensures f[i] == 0
    {
      assert t[5..][i - 13] == f[i];
    }
  }

  /** Decoding an encoded file gives back the payload. */
  lemma DecodeEncode(payload: seq<byte>)
    requires Encode(payload).Success?
    ensures Decode(Encode(payload).value) == Some(payload)
  {
  }

  /** Every file the reader accepts is exactly the file written for the
      payload it yields: the encoder is onto the well-formed files. */
  lemma EncodeDecode(f: seq<byte>)
    requires Decode(f).Some?
    ensures Encode(Decode(f).value) == Success(f)
  {
    var p := PayloadOf(f);
    EncodeDecodeLE(f[4..8]);
    TrailerFieldsExactly(f[8..HeaderLength]);
    var g := Encode(p).value;
    TrailerFieldsExactly(g[8..HeaderLength]);
    assert g[4..8] == f[4..8];
    assert g == g[..4] + g[4..8] + g[8..HeaderLength] + g[HeaderLength..];
    assert f == f[..4] + f[4..8] + f[8..HeaderLength] + f[HeaderLength..];
  }

  /** The header depends on the payload's length alone. */
  lemma HeaderDependsOnlyOnLength(p: seq<byte>, q: seq<byte>)
    requires |p| == |q|
    requires Encode(p).Success?
    ensures Encode(q).Success?
    ensures Encode(p).value[..HeaderLength] == Encode(q).value[..HeaderLength]
  {
    var f := Encode(p).value;
    var g := Encode(q).value;
    DecodeLEInjective(f[4..8], g[4..8]);
    TrailerFieldsExactly(f[8..HeaderLength]);
    TrailerFieldsExactly(g[8..HeaderLength]);
    assert f[..HeaderLength] == f[..4] + f[4..8] + f[8..HeaderLength];
    assert g[..HeaderLength] == g[..4] + g[4..8] + g[8..HeaderLength];
  }

  /** A payload of 1000 zero bytes gives a 1512-byte file whose length field
      reads 1000. */
  lemma ThousandZeroBytes()
    ensures Encode(Zeros(1000)).Success?
    ensures |Encode(Zeros(1000)).value| == 1512
    ensures DecodeLE(Encode(Zeros(1000)).value[4..8]) == 1000
  {
  }
}
