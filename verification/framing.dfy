/** The framing check and media-type dispatch of `MediaSession::processPacket`.
    A packet is a `PackHead` whose `pData` holds a `MediaPackData`; both carry a
    32-bit length in network byte order. */
module Framing {
  import opened Wire

  /** Where the fields sit in the packet, and the media-type codes. The struct
      declarations, `PACKHEAD_SIZE`, `STRUCT_MEMBER_POS` and the `MT_*` values come
      from a header that is not part of this model, so they are parameters. */
  datatype Layout = Layout(
    packTypePos: nat,     // STRUCT_MEMBER_POS(PackHead, cPackType)
    packLengthPos: nat,   // position of PackHead.uiLength
    packDataPos: nat,     // position of PackHead.pData
    packHeadSize: nat,    // PACKHEAD_SIZE
    mediaLengthPos: nat,  // position of MediaPackData.uiLength inside pData
    mediaTypePos: nat,    // position of MediaPackData.cMediaType inside pData
    mediaDataPos: nat,    // STRUCT_MEMBER_POS(MediaPackData, pData)
    mtIdr: Byte,          // MT_IDR
    mtPslice: Byte,       // MT_PSLICE
    mtAudio: Byte)        // MT_AUDIO

  function Max(a: nat, b: nat): nat { if a < b then b else a }

  /** The smallest buffer in which every field `processPacket` reads lies. */
  function HeaderEnd(l: Layout): nat
  {
    Max(Max(l.packTypePos + 1, l.packLengthPos + 4),
        Max(l.packDataPos + l.mediaLengthPos + 4, l.packDataPos + l.mediaTypePos + 1))
  }

  predicate Apart(a: nat, la: nat, b: nat, lb: nat) { a + la <= b || b + lb <= a }

  /** The four fields read do not overlap and the three media-type codes are
      distinct (a `switch` cannot repeat a case label). */
  predicate Sound(l: Layout)
  {
    var t, n, m, k := l.packTypePos, l.packLengthPos,
                      l.packDataPos + l.mediaLengthPos, l.packDataPos + l.mediaTypePos;
    && Apart(t, 1, n, 4) && Apart(t, 1, m, 4) && Apart(t, 1, k, 1)
    && Apart(n, 4, m, 4) && Apart(n, 4, k, 1) && Apart(m, 4, k, 1)
    && l.mtIdr != l.mtPslice && l.mtIdr != l.mtAudio && l.mtPslice != l.mtAudio
  }

  /** The header fields that `processPacket` looks at. */
  datatype Envelope = Envelope(packType: Byte, packLength: nat, mediaLength: nat, mediaType: Byte)

  /** Field-by-field reading of the packet buffer; both lengths go through `ntohl`. */
  function ParseEnvelope(l: Layout, p: seq<Byte>): (e: Envelope)
    requires HeaderEnd(l) <= |p|
    ensures e.packType == p[l.packTypePos] && e.mediaType == p[l.packDataPos + l.mediaTypePos]
    ensures e.packLength < U32_LIMIT && e.mediaLength < U32_LIMIT
  {
    Envelope(p[l.packTypePos], ReadU32BE(p, l.packLengthPos),
             ReadU32BE(p, l.packDataPos + l.mediaLengthPos), p[l.packDataPos + l.mediaTypePos])
  }

  /** `packsize`: the declared outer length plus the position of `cPackType`. The
      sum is over unbounded integers; the source adds in `size_t`. */
  function PackSize(l: Layout, e: Envelope): nat { e.packLength + l.packTypePos }

  /** The left-hand side of the framing check: inner length plus both header sizes.
      Computed over unbounded integers; in the source this sum is machine
      arithmetic and may wrap when its operands are 32-bit. */
  function FrameExtent(l: Layout, e: Envelope): nat
  {
    e.mediaLength + l.packHeadSize + l.mediaDataPos
  }

  /** What `processPacket` does with a packet. */
  datatype Action =
    | Reject                              // returns -1, nothing decoded
    | Decode(payloadPos: nat, size: int)  // decodeFrame(pData, uiMediaPackLen)
    | DropAudio                           // MT_AUDIO: dropped silently
    | IgnoreUnknown(mediaType: Byte)      // any other type: logged and ignored

  /** The length check, then the switch on `cMediaType`. */
  function Dispatch(l: Layout, e: Envelope): (a: Action)
    requires e.mediaLength < U32_LIMIT
    ensures a.Reject? <==> FrameExtent(l, e) > PackSize(l, e)
    ensures a.Decode? <==> !a.Reject? && (e.mediaType == l.mtIdr || e.mediaType == l.mtPslice)
    ensures a.Decode? ==>
              a.payloadPos == l.packDataPos + l.mediaDataPos && a.size == AsInt32(e.mediaLength)
    ensures a.DropAudio? <==>
              !a.Reject? && !a.Decode? && e.mediaType == l.mtAudio
    ensures a.IgnoreUnknown? ==> a.mediaType == e.mediaType
  {
    if FrameExtent(l, e) > PackSize(l, e) then Reject
    else if e.mediaType == l.mtIdr || e.mediaType == l.mtPslice then
      Decode(l.packDataPos + l.mediaDataPos, AsInt32(e.mediaLength))
    else if e.mediaType == l.mtAudio then DropAudio
    else IgnoreUnknown(e.mediaType)
  }

  /** The action `processPacket` takes on the packet buffer `p`. */
  function Classify(l: Layout, p: seq<Byte>): Action
    requires HeaderEnd(l) <= |p|
  {
    Dispatch(l, ParseEnvelope(l, p))
  }

  /** `s` with `b` written over it from position `off`. */
  function Put(s: seq<Byte>, off: nat, b: seq<Byte>): (r: seq<Byte>)
    requires off + |b| <= |s|
    ensures |r| == |s|
    ensures forall i :: 0 <= i < |s| ==> r[i] == if off <= i < off + |b| then b[i - off] else s[i]
  {
    s[..off] + b + s[off + |b|..]
  }

  /** A sender's view: `base` with the envelope's fields written at their places,
      the lengths in network byte order. */
  function WriteEnvelope(l: Layout, e: Envelope, base: seq<Byte>): (p: seq<Byte>)
    requires HeaderEnd(l) <= |base|
    requires e.packLength < U32_LIMIT && e.mediaLength < U32_LIMIT
    ensures |p| == |base|
  {
    var p1 := Put(base, l.packTypePos, [e.packType]);
    var p2 := Put(p1, l.packLengthPos, EncodeU32BE(e.packLength));
    var p3 := Put(p2, l.packDataPos + l.mediaLengthPos, EncodeU32BE(e.mediaLength));
    Put(p3, l.packDataPos + l.mediaTypePos, [e.mediaType])
  }

  lemma ReadAgrees(s: seq<Byte>, off: nat, t: seq<Byte>)
    requires off + 4 <= |s| && |t| == 4
    requires forall i :: 0 <= i < 4 ==> s[off + i] == t[i]
    ensures ReadU32BE(s, off) == ReadU32BE(t, 0)
  {
    assert s[off] == t[0] && s[off + 1] == t[1] && s[off + 2] == t[2] && s[off + 3] == t[3];
  }

  /** Parsing a packet written by a sender recovers every field the sender put in,
      whatever bytes the buffer held before. */
  lemma ParseWritten(l: Layout, e: Envelope, base: seq<Byte>)
    requires Sound(l) && HeaderEnd(l) <= |base|
    requires e.packLength < U32_LIMIT && e.mediaLength < U32_LIMIT
    ensures ParseEnvelope(l, WriteEnvelope(l, e, base)) == e
  {
    var p := WriteEnvelope(l, e, base);
    var n, m := l.packLengthPos, l.packDataPos + l.mediaLengthPos;
    ReadAgrees(p, n, EncodeU32BE(e.packLength));
    ReadEncode(e.packLength);
    ReadAgrees(p, m, EncodeU32BE(e.mediaLength));
    ReadEncode(e.mediaLength);
  }

  /** Hence on a written packet `processPacket` rejects exactly when the inner
      length plus the header sizes exceeds the outer length plus the position of
      `cPackType`, and otherwise decodes exactly the IDR and P-slice types. */
  lemma ClassifyWritten(l: Layout, e: Envelope, base: seq<Byte>)
    requires Sound(l) && HeaderEnd(l) <= |base|
    requires e.packLength < U32_LIMIT && e.mediaLength < U32_LIMIT
    ensures var a := Classify(l, WriteEnvelope(l, e, base));
      && (a.Reject? <==> e.mediaLength + l.packHeadSize + l.mediaDataPos > e.packLength + l.packTypePos)
      && (a.Decode? <==> !a.Reject? && (e.mediaType == l.mtIdr || e.mediaType == l.mtPslice))
      && (a.DropAudio? <==> !a.Reject? && e.mediaType == l.mtAudio)
  {
    ParseWritten(l, e, base);
  }

  /** A packed layout with the field sizes of the wire format: a 1-byte packet
      type, a 4-byte length, then the media header (4-byte length, 1-byte channel,
      1-byte media type) and the frame bytes. */
  const ExampleLayout: Layout :=
    Layout(0, 1, 5, 5, 0, 5, 6, 0, 1, 2)

  /** The outer length is never compared with the number of bytes received: a
      16-byte buffer whose outer length field is 0xFFFFFFFF passes the check and
      its frame is handed to the decoder. */
  lemma OuterLengthUnchecked()
    ensures Sound(ExampleLayout)
    ensures Classify(ExampleLayout,
                     [1, 0xFF, 0xFF, 0xFF, 0xFF, 0, 0, 0, 4, 0, 0, 0, 0, 0, 0, 0]) == Decode(11, 4)
  {
    var p: seq<Byte> := [1, 0xFF, 0xFF, 0xFF, 0xFF, 0, 0, 0, 4, 0, 0, 0, 0, 0, 0, 0];
    assert ReadU32BE(p, 1) == 0xFFFF_FFFF;
    assert ReadU32BE(p, 5) == 4;
  }
}
