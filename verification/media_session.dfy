/** `MediaSession`: owns the decoder and the conversion resources, and runs the
    receive / frame-check / decode loop. The FFmpeg calls, the transport and the
    display are oracles: their answers are parameters. */
module Media {
  import opened Wire
  import opened Framing
  import opened Conversion
  import opened Decoding
  import opened SessionSpec

  /** The record after a successful `init`, which logged the decoder context
      and frame it allocated. */
  function Opened(t: Record, ctxOk: bool, frameOk: bool): Record
  {
    t.(ledger := t.ledger.(acquired := t.ledger.acquired + Opt(ctxOk, CodecCtx) + Opt(frameOk, AvFrame)))
  }

  class MediaSession {
    const layout: Layout
    /** `tmpRecvBuf`, the fixed buffer every packet is received into. */
    const tmpRecvBuf: array<Byte>
    var isRunning: bool
    /** Whether each pointer field is non-null. */
    var codec: bool           // mCodec
    var codecCtx: bool        // mCodecCtx
    var avFrame: bool         // mAvFrame
    var swsCtx: bool          // mSwsCtx
    var rgbFrame: bool        // mRGBFrame
    var rgbFrameBuffer: bool  // mRGBFrameBuffer
    /** `mRGBFrame->width` and `mRGBFrame->height`. */
    var rgbWidth: int
    var rgbHeight: int

    /** Every allocation that returned non-null, and every free of a non-null
        pointer, in the order they happen. */
    ghost var acquired: seq<Resource>
    ghost var released: seq<Resource>
    /** The packets handed to `processPacket`, the calls of `decodeFrame`, and the
        number of calls of `displayFrame`. */
    ghost var processed: seq<seq<Byte>>
    ghost var submitted: seq<Submission>
    ghost var displayCalls: nat

    ghost predicate Valid()
      reads this
    {
      && HeaderEnd(layout) <= tmpRecvBuf.Length
      && swsCtx == rgbFrame && rgbFrame == rgbFrameBuffer
    }

    /** The conversion resources as one value. */
    function Conv(): ConvState
      reads this
    {
      if swsCtx then Allocated(rgbWidth, rgbHeight) else Unallocated
    }

    /** The conversion state with the allocation and free logs. */
    ghost function Books(): Ledger
      reads this
    {
      Ledger(Conv(), acquired, released)
    }

    /** Everything the ghost logs hold but the processed packets. */
    ghost function Recorded(): Record
      reads this
    {
      Record(Books(), submitted, displayCalls)
    }

    /** Every pointer starts null; `initial` is whatever the receive buffer holds. */
    constructor (layout: Layout, initial: seq<Byte>)
      requires HeaderEnd(layout) <= |initial|
      ensures Valid() && fresh(tmpRecvBuf)
      ensures this.layout == layout && tmpRecvBuf[..] == initial
      ensures !isRunning && !codec && !codecCtx && !avFrame && Conv() == Unallocated
      ensures acquired == [] && released == []
      ensures processed == [] && submitted == [] && displayCalls == 0
    {
      this.layout := layout;
      tmpRecvBuf := new Byte[|initial|](i requires 0 <= i < |initial| => initial[i]);
      isRunning := false;
      codec, codecCtx, avFrame := false, false, false;
      swsCtx, rgbFrame, rgbFrameBuffer := false, false, false;
      rgbWidth, rgbHeight := 0, 0;
      acquired, released := [], [];
      processed, submitted, displayCalls := [], [], 0;
    }

    /** `init`: find the H.264 decoder, allocate its context and frame, open it.
        `found`, `ctxOk`, `frameOk` and `openOk` are what `avcodec_find_decoder`,
        `avcodec_alloc_context3`, `av_frame_alloc` and `avcodec_open2` answer. */
    method Init(found: bool, ctxOk: bool, frameOk: bool, openOk: bool) returns (rc: int)
      requires Valid()
      modifies this`codec, this`codecCtx, this`avFrame, this`acquired, this`released
      ensures Valid()
      ensures rc == (if found && openOk then 0 else -1)
      ensures codec == found
      ensures !found ==> acquired == old(acquired) && released == old(released)
      ensures found ==> acquired == old(acquired) + Opt(ctxOk, CodecCtx) + Opt(frameOk, AvFrame)
      ensures found && !openOk ==> released == old(released) + Opt(ctxOk, CodecCtx) + Opt(frameOk, AvFrame)
      ensures found && openOk ==> released == old(released)
      ensures !found ==> codecCtx == old(codecCtx) && avFrame == old(avFrame)
      ensures found && !openOk ==> !codecCtx && !avFrame
      ensures found && openOk ==> codecCtx == ctxOk && avFrame == frameOk
    {
      codec := found;
      if !codec {
        return -1;
      }
      codecCtx, avFrame := ctxOk, frameOk;
      acquired := acquired + Opt(codecCtx, CodecCtx) + Opt(avFrame, AvFrame);
      if !openOk {
        // on_error: close and free the context, free the frame, reset both
        released := released + Opt(codecCtx, CodecCtx) + Opt(avFrame, AvFrame);
        codecCtx, avFrame := false, false;
        return -1;
      }
      return 0;
    }

    /** `allocateConversionCtx`: make the scaling context, the output frame and its
        buffer, once; `o` is what the three allocators answer. */
    method AllocateConversionCtx(width: int, height: int, o: ConvAlloc) returns (rc: int)
      requires Valid()
      modifies this`swsCtx, this`rgbFrame, this`rgbFrameBuffer, this`rgbWidth, this`rgbHeight
      modifies this`acquired, this`released
      ensures Valid()
      ensures AllocResult(Conv(), rc) == Allocate(old(Conv()), width, height, o)
      ensures old(swsCtx) ==> rc == 0 && unchanged(this)
      ensures rc != 0 ==> rc == -1 && !swsCtx && !rgbFrame && !rgbFrameBuffer
      ensures rc == 0 ==> swsCtx && rgbFrame && rgbFrameBuffer
      ensures !old(swsCtx) ==>
                acquired == old(acquired) + ConvAcquired(o) && released == old(released) + ConvReleased(o)
    {
      if swsCtx {
        return 0;
      }
      assert !rgbFrame && !rgbFrameBuffer;
      swsCtx := o.sws;
      if !swsCtx {
        return -1;
      }
      acquired := acquired + [SwsCtx];
      rgbFrame := o.rgbFrame;
      if !rgbFrame {
        released := released + [SwsCtx];
        swsCtx := false;
        return -1;
      }
      acquired := acquired + [RgbFrame];
      rgbWidth, rgbHeight := width, height;
      rgbFrameBuffer := o.rgbBuffer;
      if !rgbFrameBuffer {
        released := released + [SwsCtx, RgbFrame];
        swsCtx, rgbFrame := false, false;
        return -1;
      }
      acquired := acquired + [RgbFrameBuffer];
      return 0;
    }

    /** `displayFrame`: make sure the conversion resources exist, then convert and
        show the frame (the conversion and the window are not modelled). */
    method DisplayFrame(f: Shown) returns (rc: int)
      requires Valid()
      modifies this`swsCtx, this`rgbFrame, this`rgbFrameBuffer, this`rgbWidth, this`rgbHeight
      modifies this`acquired, this`released, this`displayCalls
      ensures Valid()
      ensures displayCalls == old(displayCalls) + 1
      ensures rc == Allocate(old(Conv()), f.width, f.height, f.conv).rc
      ensures Books() == Display(old(Books()), f)
    {
      displayCalls := displayCalls + 1;
      rc := AllocateConversionCtx(f.width, f.height, f.conv);
      if rc < 0 {
        return -1;
      }
      return 0;
    }

    /** `decodeFrame`: submit the packet, then display one frame per zero status
        until the decoder asks for more input or reports the end of the stream. */
    method DecodeFrame(payloadPos: nat, size: int, d: DecodeScript) returns (rc: int)
      requires Valid() && Ends(d.pulls)
      modifies this`swsCtx, this`rgbFrame, this`rgbFrameBuffer, this`rgbWidth, this`rgbHeight
      modifies this`acquired, this`released, this`displayCalls, this`submitted
      ensures Valid()
      ensures submitted == old(submitted) + [Submission(payloadPos, size)]
      ensures d.send != 0 ==> rc == -1 && displayCalls == old(displayCalls) && Books() == old(Books())
      ensures d.send == 0 ==>
                var k := LeadingFrames(d.pulls);
                && k < |d.pulls|
                && displayCalls == old(displayCalls) + k
                && Books() == AfterFrames(old(Books()), Frames(d.pulls)[..k])
                && (rc == 0 <==> Drained(d.pulls[k].status))
      ensures rc == 0 || rc == -1
    {
      submitted := submitted + [Submission(payloadPos, size)];
      if d.send != 0 {
        return -1;
      }
      LeadingFramesEnds(d.pulls);
      var i := 0;
      while true
        invariant i <= LeadingFrames(d.pulls)
        invariant Valid()
        invariant submitted == old(submitted) + [Submission(payloadPos, size)]
        invariant displayCalls == old(displayCalls) + i
        invariant Books() == AfterFrames(old(Books()), Frames(d.pulls)[..i])
        decreases |d.pulls| - i
      {
        var status := d.pulls[i].status;
        if status == AVERROR_EAGAIN || status == AVERROR_EOF {
          assert i == LeadingFrames(d.pulls);
          break;
        }
        if status != 0 {
          assert i == LeadingFrames(d.pulls);
          return -1;
        }
        AfterFramesStep(old(Books()), Frames(d.pulls), i);
        var _ := DisplayFrame(d.pulls[i].frame);
        i := i + 1;
      }
      return 0;
    }

    /** `processPacket`: the framing check, then the dispatch on the media type.
        The status of `decodeFrame` is dropped. */
    method ProcessPacket(packet: seq<Byte>, d: DecodeScript) returns (rc: int)
      requires Valid() && HeaderEnd(layout) <= |packet| && Ends(d.pulls)
      modifies this`swsCtx, this`rgbFrame, this`rgbFrameBuffer, this`rgbWidth, this`rgbHeight
      modifies this`acquired, this`released, this`displayCalls, this`submitted, this`processed
      ensures Valid()
      ensures processed == old(processed) + [packet]
      ensures rc == (if Classify(layout, packet).Reject? then -1 else 0)
      ensures Recorded() == AfterPacket(layout, old(Recorded()), packet, d)
    {
      processed := processed + [packet];
      match Classify(layout, packet)
      case Reject =>
        rc := -1;
      case Decode(pos, size) =>
        var _ := DecodeFrame(pos, size, d);
        rc := 0;
      case DropAudio =>
        rc := 0;
      case IgnoreUnknown(_) =>
        rc := 0;
    }

    /** The transport writes `r.bytes` at the front of the receive buffer. */
    method Receive(r: Receipt) returns (status: int)
      modifies tmpRecvBuf
      ensures tmpRecvBuf[..] == Fill(old(tmpRecvBuf[..]), r.bytes)
      ensures status == r.status
    {
      forall i | 0 <= i < |r.bytes| && i < tmpRecvBuf.Length {
        tmpRecvBuf[i] := r.bytes[i];
      }
      FillAt(old(tmpRecvBuf[..]), r.bytes);
      status := r.status;
    }

    /** `start`: initialise, receive the first packet, give up if the server is
        full, then process packets until one is refused or a receive fails.
        `receipts[0]` answers the first receive, `receipts[i]` the i-th one of
        the loop, and the decoding script of a receipt is used for its packet. */
    method Start(found: bool, ctxOk: bool, frameOk: bool, openOk: bool, receipts: seq<Receipt>)
      returns (rc: int)
      requires Valid()
      requires forall i :: 0 <= i < |receipts| ==> Ends(receipts[i].decoding.pulls)
      requires 2 <= |receipts| && receipts[|receipts| - 1].status != 0
      modifies this`isRunning, this`codec, this`codecCtx, this`avFrame
      modifies this`swsCtx, this`rgbFrame, this`rgbFrameBuffer, this`rgbWidth, this`rgbHeight
      modifies this`acquired, this`released, this`displayCalls, this`submitted, this`processed
      modifies tmpRecvBuf
      ensures Valid()
      ensures rc == 0 || rc == -1
      ensures rc == 0 <==>
                found && openOk
                && Fill(old(tmpRecvBuf[..]), receipts[0].bytes)[layout.packTypePos] != SERVER_FULL
      ensures isRunning == (rc == 0 || old(isRunning))
      // what `init` leaves
      ensures codec == found
      ensures !found ==> codecCtx == old(codecCtx) && avFrame == old(avFrame)
      ensures found && !openOk ==> !codecCtx && !avFrame
      ensures found && openOk ==> codecCtx == ctxOk && avFrame == frameOk
      // when `init` fails
      ensures !found ==> Recorded() == old(Recorded())
      ensures found && !openOk ==>
                var a := Opt(ctxOk, CodecCtx) + Opt(frameOk, AvFrame);
                Recorded() == old(Recorded()).(ledger := old(Books()).(acquired := old(acquired) + a,
                                                                       released := old(released) + a))
      ensures !(found && openOk) ==> tmpRecvBuf[..] == old(tmpRecvBuf[..]) && processed == old(processed)
      // when the server is full
      ensures found && openOk && rc != 0 ==>
                && Recorded() == Opened(old(Recorded()), ctxOk, frameOk)
                && tmpRecvBuf[..] == Fill(old(tmpRecvBuf[..]), receipts[0].bytes)
                && processed == old(processed)
      // when the loop ran
      ensures rc == 0 ==>
                var first := Fill(old(tmpRecvBuf[..]), receipts[0].bytes);
                && processed == old(processed) + SessionPackets(layout, first, receipts[1..])
                && Recorded() == SessionRecord(layout, Opened(old(Recorded()), ctxOk, frameOk),
                                               first, receipts[0].decoding, receipts[1..])
                && tmpRecvBuf[..] == SessionBuffer(layout, first, receipts[1..])
    {
      rc := Init(found, ctxOk, frameOk, openOk);
      if rc != 0 {
        return -1;
      }
      rc := Run(receipts);
    }

    /** The rest of `start` once `init` succeeded: receive the first packet, give
        up if the server is full, else run the loop. */
    method Run(receipts: seq<Receipt>) returns (rc: int)
      requires Valid()
      requires forall i :: 0 <= i < |receipts| ==> Ends(receipts[i].decoding.pulls)
      requires 2 <= |receipts| && receipts[|receipts| - 1].status != 0
      modifies this`isRunning
      modifies this`swsCtx, this`rgbFrame, this`rgbFrameBuffer, this`rgbWidth, this`rgbHeight
      modifies this`acquired, this`released, this`displayCalls, this`submitted, this`processed
      modifies tmpRecvBuf
      ensures Valid()
      ensures rc == 0 || rc == -1
      ensures rc == 0 <==> Fill(old(tmpRecvBuf[..]), receipts[0].bytes)[layout.packTypePos] != SERVER_FULL
      ensures isRunning == (rc == 0 || old(isRunning))
      ensures rc != 0 ==>
                && Recorded() == old(Recorded())
                && tmpRecvBuf[..] == Fill(old(tmpRecvBuf[..]), receipts[0].bytes)
                && processed == old(processed)
      ensures rc == 0 ==>
                var first := Fill(old(tmpRecvBuf[..]), receipts[0].bytes);
                && processed == old(processed) + SessionPackets(layout, first, receipts[1..])
                && Recorded() == SessionRecord(layout, old(Recorded()), first, receipts[0].decoding, receipts[1..])
                && tmpRecvBuf[..] == SessionBuffer(layout, first, receipts[1..])
    {
      var status := Receive(receipts[0]);
      // a failed first receive is only logged
      if tmpRecvBuf[layout.packTypePos] == SERVER_FULL {
        return -1;
      }
      isRunning := true;
      Serve(receipts);
      return 0;
    }

    /** The `while (isRunning)` loop of `start`: process the packet in the buffer,
        receive the next one, and leave at the first refused packet or failed
        receive. `receipts[i - 1]` holds the decoder's answers for the packet
        processed in turn `i`, and `receipts[i]` answers the receive after it. */
    method Serve(receipts: seq<Receipt>)
      requires Valid() && isRunning
      requires forall i :: 0 <= i < |receipts| ==> Ends(receipts[i].decoding.pulls)
      requires 2 <= |receipts| && receipts[|receipts| - 1].status != 0
      modifies this`swsCtx, this`rgbFrame, this`rgbFrameBuffer, this`rgbWidth, this`rgbHeight
      modifies this`acquired, this`released, this`displayCalls, this`submitted, this`processed
      modifies tmpRecvBuf
      ensures Valid()
      ensures processed == old(processed) + SessionPackets(layout, old(tmpRecvBuf[..]), receipts[1..])
      ensures Recorded()
                == SessionRecord(layout, old(Recorded()), old(tmpRecvBuf[..]), receipts[0].decoding, receipts[1..])
      ensures tmpRecvBuf[..] == SessionBuffer(layout, old(tmpRecvBuf[..]), receipts[1..])
    {
      ghost var packets := old(processed) + SessionPackets(layout, tmpRecvBuf[..], receipts[1..]);
      ghost var record := SessionRecord(layout, Recorded(), tmpRecvBuf[..], receipts[0].decoding, receipts[1..]);
      ghost var final := SessionBuffer(layout, tmpRecvBuf[..], receipts[1..]);
      var i := 1;
      while isRunning
        invariant 1 <= i < |receipts|
        invariant Valid()
        invariant processed + SessionPackets(layout, tmpRecvBuf[..], receipts[i..]) == packets
        invariant SessionRecord(layout, Recorded(), tmpRecvBuf[..], receipts[i - 1].decoding, receipts[i..]) == record
        invariant SessionBuffer(layout, tmpRecvBuf[..], receipts[i..]) == final
        decreases |receipts| - i
      {
        ghost var before, buf := processed, tmpRecvBuf[..];
        ghost var t := Recorded();
        var go := Turn(receipts[i - 1].decoding, receipts[i]);
        SessionTurn(layout, before, t, buf, receipts[i - 1].decoding, receipts[i..], Recorded(), tmpRecvBuf[..]);
        if !go {
          break;
        }
        assert receipts[i..][1..] == receipts[i + 1..];
        i := i + 1;
      }
    }

    /** The body of that loop: `processPacket` on the buffer, then, when the
        packet was accepted, the receive `r`. `go` is false where the loop
        breaks. */
    method Turn(decoding: DecodeScript, r: Receipt) returns (go: bool)
      requires Valid() && Ends(decoding.pulls)
      modifies this`swsCtx, this`rgbFrame, this`rgbFrameBuffer, this`rgbWidth, this`rgbHeight
      modifies this`acquired, this`released, this`displayCalls, this`submitted, this`processed
      modifies tmpRecvBuf
      ensures Valid()
      ensures processed == old(processed) + [old(tmpRecvBuf[..])]
      ensures Recorded() == AfterPacket(layout, old(Recorded()), old(tmpRecvBuf[..]), decoding)
      ensures go <==> !Classify(layout, old(tmpRecvBuf[..])).Reject? && r.status == 0
      ensures tmpRecvBuf[..] == if Classify(layout, old(tmpRecvBuf[..])).Reject? then old(tmpRecvBuf[..])
                                else Fill(old(tmpRecvBuf[..]), r.bytes)
    {
      var status := ProcessPacket(tmpRecvBuf[..], decoding);
      if status != 0 {
        return false;
      }
      status := Receive(r);
      if status != 0 {
        return false;
      }
      return true;
    }

    /** The destructor: free every pointer that is non-null. */
    method Destroy()
      requires Valid()
      modifies this`codecCtx, this`avFrame, this`swsCtx, this`rgbFrame, this`rgbFrameBuffer
      modifies this`released
      ensures Valid()
      ensures !codecCtx && !avFrame && !swsCtx && !rgbFrame && !rgbFrameBuffer
      ensures released == old(released) + Opt(old(codecCtx), CodecCtx) + Opt(old(avFrame), AvFrame)
                + Opt(old(swsCtx), SwsCtx) + Opt(old(rgbFrame), RgbFrame)
                + Opt(old(rgbFrameBuffer), RgbFrameBuffer)
    {
      if codecCtx {
        released := released + [CodecCtx];
        codecCtx := false;
      }
      if avFrame {
        released := released + [AvFrame];
        avFrame := false;
      }
      if swsCtx {
        released := released + [SwsCtx];
        swsCtx := false;
      }
      if rgbFrame {
        released := released + [RgbFrame];
        rgbFrame := false;
      }
      if rgbFrameBuffer {
        released := released + [RgbFrameBuffer];
        rgbFrameBuffer := false;
      }
    }
  }
}
