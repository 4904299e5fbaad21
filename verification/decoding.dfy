/** The drain loop of `MediaSession::decodeFrame`, with the decoder as an oracle:
    one status answers `avcodec_send_packet`, then one status per call of
    `avcodec_receive_frame`. */
module Decoding {
  import opened Conversion

  /** FFmpeg's `AVERROR(EAGAIN)` on Linux: the decoder needs more input. */
  const AVERROR_EAGAIN: int := -11
  /** FFmpeg's `AVERROR_EOF`, the negated tag 'E','O','F',' ': end of stream. */
  const AVERROR_EOF: int := -0x2046_4F45

  /** One answer of `avcodec_receive_frame`: its status and, when a frame is
      produced, that frame as `displayFrame` sees it. */
  datatype Pull = Pull(status: int, frame: Shown)

  /** The decoder's answers to one `decodeFrame` call. */
  datatype DecodeScript = DecodeScript(send: int, pulls: seq<Pull>)

  /** The decoder stops producing frames at some point: a finite packet cannot
      yield frames forever. */
  predicate Ends(pulls: seq<Pull>)
  {
    exists i :: 0 <= i < |pulls| && pulls[i].status != 0
  }

  /** The statuses that end the drain normally. */
  predicate Drained(status: int)
  {
    status == AVERROR_EAGAIN || status == AVERROR_EOF
  }

  /** The number of leading zero statuses: the frames the loop displays. */
  function LeadingFrames(pulls: seq<Pull>): (k: nat)
    ensures k <= |pulls|
    ensures forall j :: 0 <= j < k ==> pulls[j].status == 0
    ensures k < |pulls| ==> pulls[k].status != 0
  {
    if pulls == [] || pulls[0].status != 0 then 0 else 1 + LeadingFrames(pulls[1..])
  }

  /** When the decoder stops, the loop stops on its first non-zero status. */
  lemma LeadingFramesEnds(pulls: seq<Pull>)
    requires Ends(pulls)
    ensures LeadingFrames(pulls) < |pulls|
  {
    var i :| 0 <= i < |pulls| && pulls[i].status != 0;
    assert LeadingFrames(pulls) <= i;
  }

  /** The frames of `pulls` that reach `displayFrame`. */
  function Frames(pulls: seq<Pull>): (fs: seq<Shown>)
    ensures |fs| == |pulls|
    ensures forall j :: 0 <= j < |pulls| ==> fs[j] == pulls[j].frame
  {
    seq(|pulls|, j requires 0 <= j < |pulls| => pulls[j].frame)
  }

  /** The number of `displayFrame` calls one `decodeFrame` call makes: none when
      the packet is refused, else one per leading zero status. */
  function FramesShown(d: DecodeScript): nat
  {
    if d.send != 0 then 0 else LeadingFrames(d.pulls)
  }
}
