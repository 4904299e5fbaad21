# MediaSession: framing check, decode loop and resource lifecycle

This project models `MediaSession` of the bubble-client video client (`media.cpp`)
in Dafny and proves properties of the model. A session:

- opens an H.264 decoder (`init`);
- receives packets into one fixed buffer (`start`);
- checks each packet's two length fields and dispatches on its media type
  (`processPacket`);
- feeds video payloads to the decoder and drains every frame it produces
  (`decodeFrame`);
- allocates the pixel-conversion resources lazily on the first displayed frame
  (`allocateConversionCtx`, called from `displayFrame`);
- frees whatever is still held when it is destroyed.

The modules follow that structure:

- `Wire` (`wire.dfy`): bytes, `ntohl` as a big-endian 32-bit read, and the
  `uint32_t` to `int` conversion at the `decodeFrame` call.
- `Framing` (`framing.dfy`): the header fields `processPacket` reads, the length
  check and the media-type switch, as the pure function `Classify`.
- `Conversion` (`conversion.dfy`): the conversion resources seen as one state
  (`Unallocated` or `Allocated(width, height)`), and a `Ledger` that pairs that
  state with the logs of allocations and frees. It follows the ledger over the
  frames of a session and proves that no conversion resource leaks.
- `Decoding` (`decoding.dfy`): the decoder's answers to one `decodeFrame` call,
  and how many frames the drain loop displays.
- `SessionSpec` (`session_spec.dfy`): the receive buffer and the loop of `start`
  as pure functions. `SessionPackets` gives the packets processed,
  `SessionRecord` the ledger, decoder submissions and display count afterwards,
  and `SessionBuffer` the buffer left when the loop ends.
- `Media` (`media_session.dfy`): the class `MediaSession`. Its pointer fields
  are booleans (non-null or null). The receive buffer is an `array`. Ghost logs
  record allocations, frees, processed packets, decoder submissions and display
  calls. `start` is split along its own structure: `Start` calls `init`, `Run`
  is the rest once `init` succeeded, `Serve` is the `while (isRunning)` loop,
  and `Turn` is the loop body. `isRunning` is never cleared inside `start`, so
  the loop ends only through its `break`s, as in the source.

FFmpeg, the transport (`receive_packet_to_buffer`) and the allocators are not
modelled; their answers are parameters (oracles). The `init` method gets four
booleans. Each receive is a `Receipt` holding its status, the bytes it wrote and
the decoder's answers for that packet. Each decoder answer carries the frame
dimensions and what the conversion allocators would answer.

Behaviour of `media.cpp` worth noting, which the model keeps as written:

- media.cpp:134 compares the inner length only with the outer length the
  packet declares, never with the number of bytes received. A packet that
  declares more bytes than the buffer holds still goes to the decoder
  (`Framing.OuterLengthUnchecked`).
- media.cpp:148 drops the result of `decodeFrame`, and line 156 returns 0, so
  decoder errors never stop the loop (`SessionSpec.SessionIgnoresDecoder`).
- media.cpp:152-153 only logs an unknown media type. The packet still counts
  as processed and the loop goes on.
- media.cpp:86-89 only logs a failed first receive. Line 91 then reads the
  packet type from whatever the buffer holds.
- media.cpp:196-199 returns 0 whenever `mSwsCtx` is set, so the conversion
  resources are never rebuilt for new frame dimensions
  (`Conversion.AfterFramesKeeps`, `Conversion.AfterFramesFirstSuccess`).
- media.cpp:116 returns 0 however the loop is left, by a refused packet or by
  a failed receive.
- media.cpp:50-51 overwrite `mCodecCtx` and `mAvFrame` without freeing what
  they held, so a second `init` leaks the first decoder context and frame.

## Model

| member | source | states |
|---|---|---|
| Wire.ReadU32BE | media.cpp:129-133 | `ntohl` of a length field is an unsigned 32-bit value |
| Wire.ReadEncode | media.cpp:129-133 | reading back the big-endian encoding of any 32-bit value gives that value |
| Wire.EncodeRead | media.cpp:129-133 | the 4 bytes of any field are the big-endian encoding of the value read from them, so no byte is ignored |
| Wire.AsInt32 | media.cpp:148 | the `uint32_t` length passed as `decodeFrame`'s `int size` is a 32-bit signed value congruent to the length modulo 2^32 (lengths of 2^31 and more become negative) |
| Framing.ParseEnvelope | media.cpp:128-133 | the packet type and media type are the bytes at their positions; both lengths are 32-bit |
| Framing.Dispatch | media.cpp:134-154 | reject exactly when inner length plus both header sizes exceeds outer length plus the `cPackType` offset; else decode exactly IDR and P-slice (payload at `pData`, size as `int`), drop audio, ignore any other type |
| Framing.ParseWritten | media.cpp:128-133 | parsing a packet whose fields a sender wrote recovers every field, whatever bytes were around them |
| Framing.ClassifyWritten | media.cpp:128-154 | on such a packet the reject / decode / drop decision is the one the header values call for |
| Framing.OuterLengthUnchecked | media.cpp:129-138 | a 16-byte buffer declaring outer length 0xFFFFFFFF passes the check and its 4-byte frame goes to the decoder |
| Conversion.ConvRollbackBalanced | media.cpp:201-232 | a failed `allocateConversionCtx` frees exactly what it allocated; a successful one frees nothing and holds all three resources |
| Conversion.AllocateIdempotent | media.cpp:196-199 | after a successful allocation, any later call returns 0 and changes nothing, whatever dimensions it is given |
| Conversion.AfterFramesStep | media.cpp:173-189 | the drain loop's step, used by `DecodeFrame`'s loop: the ledger after one more frame is `Display` of the ledger after the frames before it |
| Conversion.AfterFramesKeeps | media.cpp:196-199 | once allocated, the resources and the logs stay as they are over any later frames |
| Conversion.AfterFramesAllocated | media.cpp:194-236 | the resources are allocated after a run of frames exactly when they already were or some frame found all three allocators succeeding |
| Conversion.AfterFramesFirstSuccess | media.cpp:194-236 | they are then sized for the first frame whose allocation succeeded |
| Conversion.DisplayBalanced | media.cpp:238-246 | one `displayFrame` leaks no conversion resource: what it allocates is freed again or newly held |
| Conversion.AfterFramesBalanced | media.cpp:173-189 | nor does any run of displayed frames: the logs grow by exactly what the resources now hold and did not hold before |
| Decoding.LeadingFrames | media.cpp:173-189 | the drain loop displays exactly the frames before the decoder's first non-zero status |
| Decoding.LeadingFramesEnds | media.cpp:173-189 | when the decoder eventually answers non-zero, the drain loop stops on that answer |
| SessionSpec.FillAt | media.cpp:108 | a receive writes its bytes at the front of the buffer and leaves the rest as the previous packets left it |
| SessionSpec.SessionPackets | media.cpp:99-114 | the loop processes at least one packet and at most one more than there are later receives |
| SessionSpec.SessionPacketsUnfold | media.cpp:99-114 | one turn: a refused packet or failed receive ends the loop, otherwise the next packet is what the receive wrote |
| SessionSpec.SessionPacketsStep | media.cpp:101-113 | every packet but the last was accepted and followed by a successful receive that produced the next |
| SessionSpec.SessionPacketsLast | media.cpp:102-113 | the last packet was refused, or the receive after it failed, or no receive was left |
| SessionSpec.SessionPacketsAt | media.cpp:101-113 | the k-th packet has a successor exactly when it was accepted and the receive after it succeeded |
| SessionSpec.SessionPacketsOrder | media.cpp:97-114 | packets are processed once each, in order, starting from the first received, up to the first refusal or failed receive |
| SessionSpec.SessionPacketsStopAtFailure | media.cpp:108-113 | the loop never goes past a failed receive |
| SessionSpec.SessionIgnoresDecoder | media.cpp:144-156 | the packets processed do not depend on the decoder's answers |
| SessionSpec.SessionBuffer | media.cpp:99-114 | the loop leaves a buffer of the same size |
| SessionSpec.SessionBufferLast | media.cpp:101-113 | that buffer is the refused packet, or the last packet overwritten by the failed receive |
| SessionSpec.SessionTurn | media.cpp:101-113 | one turn on the whole loop: after an accepted packet and a successful receive the loop goes on with the same packets, record and final buffer; otherwise the packet's record and the buffer as it stands are the loop's outcome |
| SessionSpec.AfterPacketBalanced | media.cpp:119-157 | `processPacket` leaks no conversion resource |
| SessionSpec.SessionRecordBalanced | media.cpp:97-114 | the whole loop leaks no conversion resource: what it allocated is freed again or newly held |
| SessionSpec.SessionSubmissions | media.cpp:144-149 | the loop calls `decodeFrame` exactly for the IDR and P-slice packets among those it processes, once each, in order |
| Media.MediaSession.constructor | media.cpp:6-12 | a new session holds no resource and is not running |
| Media.MediaSession.Init | media.cpp:40-70 | returns 0 exactly when the decoder is found and opens; on an open failure it frees the context and frame it allocated and nulls both; when no decoder is found it touches nothing else |
| Media.MediaSession.AllocateConversionCtx | media.cpp:194-236 | new state and return code are `Allocate` of the old state; the three pointers are all null or all set; allocations and frees logged as `ConvAcquired`/`ConvReleased` |
| Media.MediaSession.DisplayFrame | media.cpp:238-246 | one display call; result as `allocateConversionCtx` returns it; state and logs as `Display` of the old ledger |
| Media.MediaSession.DecodeFrame | media.cpp:160-192 | always one submission; a refused packet displays nothing, changes no resource and returns -1; else one display per leading zero status, ledger as `AfterFrames` of those frames, and 0 exactly when the drain ended on EAGAIN or EOF |
| Media.MediaSession.ProcessPacket | media.cpp:119-157 | returns -1 exactly on a framing failure; the packet is logged as processed; submissions, displays and ledger as `AfterPacket`: only IDR and P-slice packets are decoded |
| Media.MediaSession.Receive | media.cpp:108 | the buffer becomes `Fill` of the old buffer with the received bytes |
| Media.MediaSession.Start | media.cpp:72-117 | returns 0 exactly when `init` succeeds and the first packet's type is not 0x08; states `init`'s outcome on every path; when `init` fails nothing else changes; when the server is full only the first receive happened; otherwise packets, record and final buffer are those of the loop (`SessionPackets`, `SessionRecord`, `SessionBuffer`) |
| Media.MediaSession.Run | media.cpp:84-116 | after `init`: returns 0 exactly when the first packet's type is not 0x08, then runs the loop as above; otherwise only the first receive happened |
| Media.MediaSession.Serve | media.cpp:97-114 | the `while (isRunning)` loop processes exactly `SessionPackets` of the buffer and the receives, leaves the record `SessionRecord` and the buffer `SessionBuffer`, and touches no decoder pointer |
| Media.MediaSession.Turn | media.cpp:101-113 | one loop body: the buffer is processed as `AfterPacket`; the loop goes on exactly when the packet was accepted and the receive succeeded; the buffer then holds what was received, and is untouched after a refusal |
| Media.MediaSession.Destroy | media.cpp:14-38 | every non-null pointer is freed once, in declaration order, and none is left set |

## Left out

- FFmpeg, OpenCV and the transport are oracles. The model does not capture
  `avcodec_send_packet`, `avcodec_receive_frame`, `sws_getContext`,
  `av_frame_alloc`, `av_malloc` and `receive_packet_to_buffer`; only their
  answers are parameters.
- `sws_scale` and its error return, the OpenCV window, `av_image_fill_arrays`,
  `av_init_packet`, `avcodec_register_all` and the pixel format are not
  modelled: they touch only pixels and external state.
- Logging and the `DEBUG` print of the channel id are left out (output only).
- `media.h` is not part of this model. The struct offsets, `PACKHEAD_SIZE` and
  the `MT_*` codes are the fields of a `Layout` parameter, and `ExampleLayout`
  is one packed instance of them.
- The framing sums are over unbounded integers. The model does not capture the
  width of `PACKHEAD_SIZE` (declared in `media.h`), so the wrap-around of the
  sum on line 134 is not modelled.
- Bytes are integers 0..255. The cast of `char *` to the packet structs is
  modelled as reads at the layout's offsets.
- Media.MediaSession.Start requires the last receipt to be a failed receive. A
  transport that never fails keeps the source looping forever, which a
  terminating method cannot model.
- Media.MediaSession.DecodeFrame requires the decoder to answer non-zero
  eventually (`Ends`), for the same reason.
- The model proves that `displayFrame`, `processPacket` and the loop of `start`
  leak no conversion resource (`Conversion.AfterFramesBalanced`,
  `SessionSpec.SessionRecordBalanced`). It does not prove a balance over a
  whole session from `init` to the destructor, because a second `init` leaks
  (media.cpp:50-51).
- `mpSession` and the `Session` class are not modelled (they are the transport).

