/** What `MediaSession::start` does with the packets the transport delivers: each
    receive overwrites the front of the fixed receive buffer, and the loop hands
    the whole buffer to `processPacket` until a packet is refused or a receive
    fails. */
module SessionSpec {
  import opened Wire
  import opened Framing
  import opened Conversion
  import opened Decoding

  /** The `cPackType` of a first packet that says the media server is full. */
  const SERVER_FULL: Byte := 0x08

  /** One answer of `receive_packet_to_buffer`: its status, the bytes it wrote
      at the front of the buffer, and the decoder's answers for that packet. */
  datatype Receipt = Receipt(status: int, bytes: seq<Byte>, decoding: DecodeScript)

  /** The buffer after a receive wrote `bytes` at its front; the bytes behind them
      are left from earlier packets. The receive is told the buffer's size and
      writes no more than that. */
  function Fill(buf: seq<Byte>, bytes: seq<Byte>): (r: seq<Byte>)
    ensures |r| == |buf|
  {
    if |bytes| <= |buf| then bytes + buf[|bytes|..] else bytes[..|buf|]
  }

  /** Byte by byte: the received bytes in front, the old ones behind them. */
  lemma FillAt(buf: seq<Byte>, bytes: seq<Byte>)
    ensures forall i :: 0 <= i < |buf| ==>
              Fill(buf, bytes)[i] == if i < |bytes| then bytes[i] else buf[i]
  {
  }

  /** The packets the loop of `start` processes, in order, when the buffer holds
      `buf` and `rest` are the receives still to come. */
  function SessionPackets(l: Layout, buf: seq<Byte>, rest: seq<Receipt>): (ps: seq<seq<Byte>>)
    requires HeaderEnd(l) <= |buf|
    ensures 1 <= |ps| <= |rest| + 1
    ensures forall k :: 0 <= k < |ps| ==> |ps[k]| == |buf|
    decreases |rest|
  {
    if Classify(l, buf).Reject? || rest == [] || rest[0].status != 0 then [buf]
    else [buf] + SessionPackets(l, Fill(buf, rest[0].bytes), rest[1..])
  }

  /** One turn of the loop: an accepted packet followed by a successful receive
      is processed, then the packets of the rest of the session. */
  lemma SessionPacketsUnfold(l: Layout, buf: seq<Byte>, rest: seq<Receipt>)
    requires HeaderEnd(l) <= |buf|
    ensures Classify(l, buf).Reject? || rest == [] || rest[0].status != 0 ==>
              SessionPackets(l, buf, rest) == [buf]
    ensures !Classify(l, buf).Reject? && rest != [] && rest[0].status == 0 ==>
              SessionPackets(l, buf, rest) == [buf] + SessionPackets(l, Fill(buf, rest[0].bytes), rest[1..])
  {
  }

  /** Each packet but the last was accepted and followed by a successful receive,
      which produced the next packet. */
  lemma {:induction false} SessionPacketsStep(l: Layout, buf: seq<Byte>, rest: seq<Receipt>, k: nat)
    requires HeaderEnd(l) <= |buf|
    requires k + 1 < |SessionPackets(l, buf, rest)|
    ensures var ps := SessionPackets(l, buf, rest);
      && !Classify(l, ps[k]).Reject?
      && rest[k].status == 0
      && ps[k + 1] == Fill(ps[k], rest[k].bytes)
    decreases |rest|
  {
    if k > 0 {
      SessionPacketsStep(l, Fill(buf, rest[0].bytes), rest[1..], k - 1);
    }
  }

  /** The loop stops at the first refused packet or failed receive. */
  lemma {:induction false} SessionPacketsLast(l: Layout, buf: seq<Byte>, rest: seq<Receipt>)
    requires HeaderEnd(l) <= |buf|
    ensures var ps := SessionPackets(l, buf, rest);
      Classify(l, ps[|ps| - 1]).Reject? || |ps| - 1 == |rest| || rest[|ps| - 1].status != 0
    decreases |rest|
  {
    if !(Classify(l, buf).Reject? || rest == [] || rest[0].status != 0) {
      SessionPacketsLast(l, Fill(buf, rest[0].bytes), rest[1..]);
    }
  }

  /** The k-th packet is followed by another exactly when it was accepted and the
      receive after it succeeded; the next one is then what that receive wrote. */
  lemma SessionPacketsAt(l: Layout, buf: seq<Byte>, rest: seq<Receipt>, k: nat)
    requires HeaderEnd(l) <= |buf|
    requires k < |SessionPackets(l, buf, rest)| && k < |rest|
    ensures var ps := SessionPackets(l, buf, rest);
      && (k + 1 < |ps| <==> !Classify(l, ps[k]).Reject? && rest[k].status == 0)
      && (k + 1 < |ps| ==> ps[k + 1] == Fill(ps[k], rest[k].bytes))
  {
    var ps := SessionPackets(l, buf, rest);
    if k + 1 < |ps| {
      SessionPacketsStep(l, buf, rest, k);
    } else {
      SessionPacketsLast(l, buf, rest);
    }
  }

  /** Each packet is processed once and in order: the first is the buffer as it
      stands, every one but the last was accepted and followed by a successful
      receive that produced the next, and the loop stops at the first refused
      packet or failed receive. */
  lemma SessionPacketsOrder(l: Layout, buf: seq<Byte>, rest: seq<Receipt>)
    requires HeaderEnd(l) <= |buf|
    ensures var ps := SessionPackets(l, buf, rest);
      && ps[0] == buf
      && (forall k :: 0 <= k < |ps| - 1 ==>
            && !Classify(l, ps[k]).Reject?
            && rest[k].status == 0
            && ps[k + 1] == Fill(ps[k], rest[k].bytes))
      && (Classify(l, ps[|ps| - 1]).Reject? || |ps| - 1 == |rest| || rest[|ps| - 1].status != 0)
  {
    var ps := SessionPackets(l, buf, rest);
    forall k | 0 <= k < |ps| - 1
      ensures !Classify(l, ps[k]).Reject? && rest[k].status == 0
      ensures ps[k + 1] == Fill(ps[k], rest[k].bytes)
    {
      SessionPacketsStep(l, buf, rest, k);
    }
    SessionPacketsLast(l, buf, rest);
  }

  /** When some later receive fails, the loop stops at or before it: it never asks
      the transport for more packets than it delivers. */
  lemma {:induction false} SessionPacketsStopAtFailure(l: Layout, buf: seq<Byte>, rest: seq<Receipt>, j: nat)
    requires HeaderEnd(l) <= |buf|
    requires j < |rest| && rest[j].status != 0
    ensures |SessionPackets(l, buf, rest)| <= j + 1
    decreases |rest|
  {
    if !(Classify(l, buf).Reject? || rest == [] || rest[0].status != 0) {
      SessionPacketsStopAtFailure(l, Fill(buf, rest[0].bytes), rest[1..], j - 1);
    }
  }

  /** The decoder has no say in when the session stops: two runs whose receives
      agree on status and bytes process the same packets, whatever the decoder
      answers (`processPacket` ignores the result of `decodeFrame`). */
  lemma {:induction false} SessionIgnoresDecoder(l: Layout, buf: seq<Byte>, rest: seq<Receipt>, rest': seq<Receipt>)
    requires HeaderEnd(l) <= |buf|
    requires |rest| == |rest'|
    requires forall i :: 0 <= i < |rest| ==>
               rest[i].status == rest'[i].status && rest[i].bytes == rest'[i].bytes
    ensures SessionPackets(l, buf, rest) == SessionPackets(l, buf, rest')
    decreases |rest|
  {
    if !(Classify(l, buf).Reject? || rest == [] || rest[0].status != 0) {
      SessionIgnoresDecoder(l, Fill(buf, rest[0].bytes), rest[1..], rest'[1..]);
    }
  }

  /** One call of `decodeFrame`: where its data starts in the packet, and the
      `int` size it is given. */
  datatype Submission = Submission(payloadPos: nat, size: int)

  /** What a session's ghost logs hold besides the packets: the conversion
      ledger, the calls of `decodeFrame` and the number of `displayFrame` calls. */
  datatype Record = Record(ledger: Ledger, submitted: seq<Submission>, displays: nat)

  /** The `decodeFrame` call `processPacket` makes for packet `p`, if any. */
  function Decoded(l: Layout, p: seq<Byte>): seq<Submission>
    requires HeaderEnd(l) <= |p|
  {
    match Classify(l, p)
    case Decode(pos, size) => [Submission(pos, size)]
    case _ => []
  }

  /** `processPacket` on the record, with `d` the decoder's answers: a video
      packet is submitted and its leading frames are displayed; any other packet
      leaves the record as it is. */
  function AfterPacket(l: Layout, t: Record, p: seq<Byte>, d: DecodeScript): Record
    requires HeaderEnd(l) <= |p|
  {
    var k := if Classify(l, p).Decode? then FramesShown(d) else 0;
    Record(AfterFrames(t.ledger, Frames(d.pulls)[..k]), t.submitted + Decoded(l, p), t.displays + k)
  }

  /** The record after the loop of `start` processed the packets of
      `SessionPackets(l, buf, rest)`, when `d` holds the decoder's answers for
      the packet in `buf` and each receipt of `rest` those for its own packet. */
  function SessionRecord(l: Layout, t: Record, buf: seq<Byte>, d: DecodeScript, rest: seq<Receipt>): Record
    requires HeaderEnd(l) <= |buf|
    decreases |rest|
  {
    var next := AfterPacket(l, t, buf, d);
    if Classify(l, buf).Reject? || rest == [] || rest[0].status != 0 then next
    else SessionRecord(l, next, Fill(buf, rest[0].bytes), rest[0].decoding, rest[1..])
  }

  /** What the receive buffer holds when that loop is left: the refused packet,
      or the last packet overwritten by the failed receive. */
  function SessionBuffer(l: Layout, buf: seq<Byte>, rest: seq<Receipt>): (r: seq<Byte>)
    requires HeaderEnd(l) <= |buf|
    ensures |r| == |buf|
    decreases |rest|
  {
    if Classify(l, buf).Reject? || rest == [] then buf
    else if rest[0].status != 0 then Fill(buf, rest[0].bytes)
    else SessionBuffer(l, Fill(buf, rest[0].bytes), rest[1..])
  }

  /** Regrouping a concatenation. */
  lemma AppendAssoc<T>(a: seq<T>, b: seq<T>, c: seq<T>)
    ensures (a + b) + c == a + (b + c)
  {
  }

  /** One turn of the loop on the whole session: when `t2` and `buf2` are the
      record and buffer after processing `buf` and, if it was accepted,
      receiving `rest[0]`, then either the loop goes on from there with the
      same outcome, or it stops and that is its outcome. `done` are the packets
      processed before `buf`. */
  lemma SessionTurn(l: Layout, done: seq<seq<Byte>>, t: Record, buf: seq<Byte>, d: DecodeScript,
                    rest: seq<Receipt>, t2: Record, buf2: seq<Byte>)
    requires HeaderEnd(l) <= |buf| && rest != []
    requires t2 == AfterPacket(l, t, buf, d)
    requires buf2 == if Classify(l, buf).Reject? then buf else Fill(buf, rest[0].bytes)
    ensures !Classify(l, buf).Reject? && rest[0].status == 0 ==>
              && done + SessionPackets(l, buf, rest) == (done + [buf]) + SessionPackets(l, buf2, rest[1..])
              && SessionRecord(l, t, buf, d, rest) == SessionRecord(l, t2, buf2, rest[0].decoding, rest[1..])
              && SessionBuffer(l, buf, rest) == SessionBuffer(l, buf2, rest[1..])
    ensures Classify(l, buf).Reject? || rest[0].status != 0 ==>
              && done + SessionPackets(l, buf, rest) == done + [buf]
              && SessionRecord(l, t, buf, d, rest) == t2
              && SessionBuffer(l, buf, rest) == buf2
  {
    SessionPacketsUnfold(l, buf, rest);
    if !Classify(l, buf).Reject? && rest[0].status == 0 {
      AppendAssoc(done, [buf], SessionPackets(l, buf2, rest[1..]));
    }
  }

  /** The buffer the loop leaves is its last packet, or that packet with the
      failed receive's bytes in front. */
  lemma {:induction false} SessionBufferLast(l: Layout, buf: seq<Byte>, rest: seq<Receipt>)
    requires HeaderEnd(l) <= |buf|
    ensures var ps := SessionPackets(l, buf, rest);
      var last := ps[|ps| - 1];
      SessionBuffer(l, buf, rest)
        == if Classify(l, last).Reject? || |ps| - 1 == |rest| then last
           else Fill(last, rest[|ps| - 1].bytes)
    decreases |rest|
  {
    SessionPacketsUnfold(l, buf, rest);
    if !(Classify(l, buf).Reject? || rest == [] || rest[0].status != 0) {
      var buf', rest' := Fill(buf, rest[0].bytes), rest[1..];
      var ps, ps' := SessionPackets(l, buf, rest), SessionPackets(l, buf', rest');
      SessionBufferLast(l, buf', rest');
      assert ps == [buf] + ps';
      assert ps[|ps| - 1] == ps'[|ps'| - 1];
      if |ps| - 1 < |rest| {
        assert rest[|ps| - 1] == rest'[|ps'| - 1];
      }
    }
  }

  /** `processPacket` leaks no conversion resource. */
  lemma AfterPacketBalanced(l: Layout, t: Record, p: seq<Byte>, d: DecodeScript)
    requires HeaderEnd(l) <= |p|
    ensures Balanced(t.ledger, AfterPacket(l, t, p, d).ledger)
  {
    var k := if Classify(l, p).Decode? then FramesShown(d) else 0;
    AfterFramesBalanced(t.ledger, Frames(d.pulls)[..k]);
  }

  /** Nor does the whole loop of `start`: every conversion resource allocated
      while it runs is freed again or still held when it is left. */
  lemma {:induction false} SessionRecordBalanced(l: Layout, t: Record, buf: seq<Byte>, d: DecodeScript, rest: seq<Receipt>)
    requires HeaderEnd(l) <= |buf|
    ensures Balanced(t.ledger, SessionRecord(l, t, buf, d, rest).ledger)
    decreases |rest|
  {
    var next := AfterPacket(l, t, buf, d);
    AfterPacketBalanced(l, t, buf, d);
    if !(Classify(l, buf).Reject? || rest == [] || rest[0].status != 0) {
      SessionRecordBalanced(l, next, Fill(buf, rest[0].bytes), rest[0].decoding, rest[1..]);
      BalancedTrans(t.ledger, next.ledger, SessionRecord(l, t, buf, d, rest).ledger);
    }
  }

  /** The `decodeFrame` calls made for the packets `ps`, in order. */
  function Submissions(l: Layout, ps: seq<seq<Byte>>): seq<Submission>
    requires forall p <- ps :: HeaderEnd(l) <= |p|
  {
    if ps == [] then [] else Decoded(l, ps[0]) + Submissions(l, ps[1..])
  }

  /** The loop submits to the decoder exactly the video packets among those it
      processes, once each and in order, whatever the decoder answers. */
  lemma {:induction false} SessionSubmissions(l: Layout, t: Record, buf: seq<Byte>, d: DecodeScript, rest: seq<Receipt>)
    requires HeaderEnd(l) <= |buf|
    ensures SessionRecord(l, t, buf, d, rest).submitted
              == t.submitted + Submissions(l, SessionPackets(l, buf, rest))
    decreases |rest|
  {
    var ps := SessionPackets(l, buf, rest);
    var next := AfterPacket(l, t, buf, d);
    if Classify(l, buf).Reject? || rest == [] || rest[0].status != 0 {
      SessionPacketsUnfold(l, buf, rest);
      assert Submissions(l, ps) == Decoded(l, buf) + Submissions(l, []);
    } else {
      var buf' := Fill(buf, rest[0].bytes);
      var ps' := SessionPackets(l, buf', rest[1..]);
      SessionTurn(l, [], t, buf, d, rest, next, buf');
      assert ps == [buf] + ps';
      assert ps[1..] == ps';
      SessionSubmissions(l, next, buf', rest[0].decoding, rest[1..]);
      calc {
        SessionRecord(l, t, buf, d, rest).submitted;
        next.submitted + Submissions(l, ps');
        (t.submitted + Decoded(l, buf)) + Submissions(l, ps');
        { AppendAssoc(t.submitted, Decoded(l, buf), Submissions(l, ps')); }
        t.submitted + (Decoded(l, buf) + Submissions(l, ps'));
        t.submitted + Submissions(l, ps);
      }
    }
  }
}
