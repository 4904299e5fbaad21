/** Network byte order: the 32-bit length fields of a media packet are read with
    `ntohl`, most significant byte first. */
module Wire {

  /** One octet of a packet buffer. */
  type Byte = b: int | 0 <= b < 0x100

  const U32_LIMIT: nat := 0x1_0000_0000

  /** The unsigned 32-bit value held in the four bytes of `s` starting at `off`,
      big-endian (what `ntohl` yields for a field stored in network order). */
  function ReadU32BE(s: seq<Byte>, off: nat): (v: nat)
    requires off + 4 <= |s|
    ensures v < U32_LIMIT
  {
    (s[off] as int) * 0x100_0000 + (s[off + 1] as int) * 0x1_0000
      + (s[off + 2] as int) * 0x100 + (s[off + 3] as int)
  }

  /** The four bytes a big-endian writer (`htonl`) produces for `v`. */
  function EncodeU32BE(v: nat): (s: seq<Byte>)
    requires v < U32_LIMIT
    ensures |s| == 4
  {
    var q1 := v / 0x100;
    var q2 := q1 / 0x100;
    var q3 := q2 / 0x100;
    [q3, q2 % 0x100, q1 % 0x100, v % 0x100]
  }

  /** Reading back what a big-endian writer wrote gives the original value. */
  lemma ReadEncode(v: nat)
    requires v < U32_LIMIT
    ensures ReadU32BE(EncodeU32BE(v), 0) == v
  {
    var q1 := v / 0x100;
    var q2 := q1 / 0x100;
    var q3 := q2 / 0x100;
    assert v == q1 * 0x100 + v % 0x100;
    assert q1 == q2 * 0x100 + q1 % 0x100;
    assert q2 == q3 * 0x100 + q2 % 0x100;
  }

  /** Conversely, any four bytes are what the writer produces for the value read
      from them: the big-endian reading is a bijection on 4-byte fields. */
  lemma EncodeRead(s: seq<Byte>, off: nat)
    requires off + 4 <= |s|
    ensures EncodeU32BE(ReadU32BE(s, off)) == s[off..off + 4]
  {
    var v := ReadU32BE(s, off);
    var a, b, c, d := s[off] as int, s[off + 1] as int, s[off + 2] as int, s[off + 3] as int;
    assert v / 0x100 == a * 0x1_0000 + b * 0x100 + c;
    assert v % 0x100 == d;
    assert (v / 0x100) / 0x100 == a * 0x100 + b;
    assert (v / 0x100) % 0x100 == c;
    assert ((v / 0x100) / 0x100) / 0x100 == a;
    assert ((v / 0x100) / 0x100) % 0x100 == b;
  }

  /** The conversion of an unsigned 32-bit value to a 32-bit `int` parameter, as
      two's complement: values of 2^31 and above become negative. */
  function AsInt32(v: nat): (i: int)
    requires v < U32_LIMIT
    ensures -0x8000_0000 <= i < 0x8000_0000
    ensures i % U32_LIMIT == v
  {
    if v < 0x8000_0000 then v else v - U32_LIMIT
  }
}
