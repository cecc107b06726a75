# The codecs of ylong_http, verified

This project models four resumable byte-level codecs of the `ylong_http` crate in
Dafny and proves what they promise: that decoding undoes encoding, that nothing
depends on where input or output is cut, that bytes are neither lost nor repeated,
and, where the code does not keep such a promise, exactly when it does.

| files | what they hold |
|---|---|
| `MachineWords.dfy` | bytes, 64-bit words, bit strings, segments, writing into a buffer |
| `HuffmanTables.dfy`, `HuffmanTree.dfy`, `Huffman.dfy` | the two Huffman tables (section 5.2 and Appendix B of RFC 7541), the code tree, encoder and decoder |
| `H2Frames.dfy`, `H2Decoder.dfy`, `H2Encoder.dfy`, `H2Transport.dfy`, `H2Payloads.dfy` | HTTP/2 frames (sections 4 and 6 of RFC 9113): decoder, encoder, what one makes of the output of the other, and payloads by their parts |
| `ChunkDecoder.dfy`, `ChunkEncoder.dfy`, `ChunkGrammar.dfy` | the chunked transfer coding (section 7.1 of RFC 9112): decoder, encoder, and what is read by the grammar of chunks |
| `H3Octets.dfy`, `H3Frames.dfy`, `H3Decoder.dfy`, `H3Control.dfy`, `H3Encoder.dfy` | varints (section 16 of RFC 9000), DATA and SETTINGS of HTTP/3 (section 7.2 of RFC 9114) |

Each codec is modelled twice. A specification says on values what is read or what is
still to be written: bit strings for Huffman, a machine that takes one byte at a time
for chunks, stages over unread bytes for HTTP/2 and HTTP/3, and for every encoder the
*pending* bytes. Classes and methods follow the code, with its fields, loops and array
buffers, and are proved against that specification; the theorems are about the
specification, for all inputs, all runs and all ways to cut them.

Conventions: a `u64` is an integer below 2^64 with its shifts, rotations and masks
written out; the Rust operators `>>` and `& 0xFF` on frame fields are division and
remainder; HPACK is a parameter of the HTTP/2 model, a deterministic consumer of
byte strings on the way in and the list of pieces it hands out on the way back. A
`Vec` that a method only extends is a sequence; output buffers are arrays. Time,
sockets and readers appear as the byte sequences they deliver.

## Main results

- **Huffman.** With the verbatim tables, the decoder accepts exactly the encodings, and
  gives back exactly what was encoded (`DecodesExactlyEncodings`, `DecodeTableAgrees`,
  `RoundTrip`), whatever the slices (`SlicesDoNotMatter`). The proof goes through the
  code tree: each of the 256 rows is one inner node, each cell one walk of four bits.
- **HTTP/2 decoder.** Independent of segmentation (`SegmentsDoNotMatter`, on wire
  positions `WireSegments`) with one exception, which `CutInsidePriority` states exactly;
  header blocks are contiguous over whole runs (`BlocksAreContiguous`,
  `IntruderIsRefused`). Padding and priority fields are taken off, and nothing else is
  (`PaddedData`, `BlockOfHeaders`, `PartsFitExactly`); which control frame is refused with
  which error is a table of its own (`ControlErrors`).
- **HTTP/2 encoder and transport.** The output is the pending bytes in order wherever
  buffers end, for DATA, HEADERS, GOAWAY and PRIORITY frames; for SETTINGS, PING,
  RST_STREAM and WINDOW_UPDATE exactly if the cuts spare certain bytes (`Encode`,
  `Transmit`, `LostExactly`, `HeaderResumesExactly`, `IncrementResumesExactly`). Blocks
  reach HPACK intact exactly if neither PADDED nor PRIORITY is set
  (`HeaderBlockTransport`, `BlockIntactExactly`); a list of frames comes back exactly if
  every frame is deliverable (`FrameListRoundTrip`); fragments conserve lengths
  (`FragmentsConserve`), but carry the data exactly if it repeats with the frame limit as
  period (`FragmentsCarryData`). `HeadersEndToEnd` and `FramesEndToEnd` run encoder and
  decoder through any buffers and segments.
- **Chunks.** Decoding is a byte machine (`CallIsFeed`), hence independent of
  segmentation, conserves bytes, and takes chunks by their grammar, with sizes in digits of
  any case (`FeedNumber`, `FeedChunk`); encoding into buffers is exact if and only if no
  buffer ends amid the digits of the last size (`EncodeAll`), and decodes to the content
  (`SegmentedRoundTrip`).
- **HTTP/3.** Varints are the shortest (`LengthIsShortest`). Varint streams, DATA and
  SETTINGS come back in any segments (`StreamRoundTrip`, `DataEndToEnd`, `DataArrives`,
  `SettingsEndToEnd`); settings exactly if their additional keys are additional ones. What
  follows the settings in the same call is decoded as intended exactly if their payload,
  read as frames, consists of whole frames of unknown type (`SettingsFollowedExactly`);
  with that exception, and that of an entry past the declared length, the segments do not
  matter (`CutInTwo`, `CutAfterSettings`).

Where the code and its surroundings disagree, the model follows the code: a PRIORITY
frame whose payload comes in two segments is refused; a stray CONTINUATION is accepted;
DATA fragments after the first start again at the first byte; the digits of the last
chunk size are written from the start again after a cut, and so are the bytes of a
WINDOW_UPDATE increment; header loops of SETTINGS, PING and RST_STREAM frames address
the output buffer where they mean the header; HTTP/3 settings that are followed by more
bytes are read again as frames.

## Model

| member | source | states |
|---|---|---|
| `HuffmanTree.RowFromTree` | ylong_http/src/huffman/consts.rs:88-1626 | a row that spells out the four-bit walks from its node agrees with the code tree: each cell reads its nibble, emits at most one symbol, and ends at the named node |
| `HuffmanTree.TableAgrees` | ylong_http/src/huffman/consts.rs:88-1626 | every one of the 256 verbatim rows agrees with the node of its state, flags included |
| `HuffmanTree.PaddingStatesAll` | ylong_http/src/huffman/consts.rs:88-1626 | the paths of one to seven ones belong to exactly seven states; with `TableAgrees` these are the next states of the cells that carry MAYBE_EOS |
| `HuffmanTree.PathsAreDistinct` | ylong_http/src/huffman/consts.rs:88-1626 | different states have different paths |
| `HuffmanTree.PrefixIsPath` | ylong_http/src/huffman/consts.rs:88-1626 | every proper prefix of a code is the path of a state: with `StateIsInner` and `PathsAreDistinct`, the 256 rows are the inner nodes of the code tree, each once |
| `HuffmanTree.CodeInOrder` | ylong_http/src/huffman/consts.rs:17-84 | each of the 257 verbatim codes has 5 to 30 bits and its place in the canonical order of codes by length |
| `HuffmanTree.PrefixFree` | ylong_http/src/huffman/consts.rs:17-84 | no code of the table is a prefix of another |
| `Huffman.UniqueReading` | ylong_http/src/huffman/consts.rs:17-84 | a bit string reads in one way as codes followed by bits that hold no code |
| `Huffman.NoEosInCodes` | ylong_http/src/huffman/consts.rs:17-84 | codes of bytes followed by bits that hold no code never contain codes followed by EOS |
| `Huffman.StateIsInner` | ylong_http/src/huffman/consts.rs:88-1626 | the path of every state is a proper prefix of some code: states are inner nodes |
| `Huffman.PathHasNoCode` | ylong_http/src/huffman/consts.rs:88-1626 | no code is a prefix of the path of a state |
| `Huffman.AddWhole` | ylong_http/src/huffman/mod.rs:78-87 | shifting a code that fits into the accumulator appends its bits to those already there |
| `Huffman.AddSplit` | ylong_http/src/huffman/mod.rs:99-106 | rotating and masking a code that does not fit ends the word with its first bits and starts the next word with the others |
| `Huffman.FillUp` | ylong_http/src/huffman/mod.rs:112-113 | the last word is filled up with ones |
| `Huffman.LastBytes` | ylong_http/src/huffman/mod.rs:112-118 | the bytes kept of the last word hold the remaining bits and fewer than eight ones |
| `Huffman.Encode` | ylong_http/src/huffman/mod.rs:44-119 | `dst` grows by exactly the concatenated codes of `src`, padded with ones to a byte; the accumulator keeps 1 to 64 unfilled zero bits |
| `Huffman.AutomatonReadsCodes` | ylong_http/src/huffman/mod.rs:170-199 | after any input the automaton has read the codes of its output followed by the path of its state, and MAYBE_EOS says whether that path is padding |
| `Huffman.FailsExactlyAtEos` | ylong_http/src/huffman/mod.rs:170-199 | the automaton reports an error exactly on inputs that hold EOS after some codes |
| `Huffman.DecodesExactlyEncodings` | ylong_http/src/huffman/mod.rs:127-199 | decoding succeeds with `s` if and only if the input is the padded encoding of `s`: round trip and canonicity |
| `Huffman.EncodingIsInjective` | ylong_http/src/huffman/mod.rs:44-119 | different strings have different encodings |
| `Huffman.SlicesDoNotMatter` | ylong_http/src/huffman/mod.rs:201-238 | feeding slices, empty ones included, concludes as one call on their concatenation, in success and in failure |
| `Huffman.DecodeInner` | ylong_http/src/huffman/mod.rs:170-199 | the loop over bytes does two automaton steps each and keeps in `dst` what was decoded before an error |
| `Huffman.Decode` | ylong_http/src/huffman/mod.rs:127-168 | success means that the input is the encoding of what was appended, failure that it is the encoding of nothing |
| `Huffman.HuffmanDecoder.constructor` | ylong_http/src/huffman/mod.rs:216-222 | a new decoder stands at the root with no output |
| `Huffman.HuffmanDecoder.Decode` | ylong_http/src/huffman/mod.rs:225-230 | a slice moves the kept automaton on; an error keeps the output so far and the state before the call |
| `Huffman.HuffmanDecoder.Finish` | ylong_http/src/huffman/mod.rs:232-237 | finishing concludes as the one-call decoder does |
| `Huffman.DecodeInSlices` | ylong_http/src/huffman/mod.rs:201-238 | a whole run of the decoder object accepts exactly the encodings, whatever the slices |
| `Huffman.DecodeTableAgrees` | ylong_http/src/huffman/consts.rs:88-1626 | the verbatim table satisfies what the theorems ask of a table |
| `Huffman.RoundTrip` | ylong_http/src/huffman/mod.rs:44-238 | encoding with the verbatim table and decoding in any slices returns the string |
| `H2Frames.HeaderRoundTrip` | ylong_http/src/h2/decoder.rs:796-850 | length, type, flags and stream id of a frame header survive the wire |
| `H2Frames.SettingAccepted` | ylong_http/src/h2/decoder.rs:858-885 | a setting is accepted under its own identifier and value exactly if its value is in range |
| `H2Frames.SettingsRoundTrip` | ylong_http/src/h2/encoder.rs:941-978 | the six-byte groups of valid settings are read back as the same list |
| `H2Decoder.StepKeepsValid` | ylong_http/src/h2/decoder.rs:349-419 | every stage keeps `buffer.len() == offset` and the bounds of the offset, and every completed stage uses up bytes or advances |
| `H2Decoder.CutInTwo` | ylong_http/src/h2/decoder.rs:349-419 | two calls give the frames, the final decoder and the error of one call on the joined input, unless the cut falls inside a PRIORITY payload that the second part completes |
| `H2Decoder.SegmentsDoNotMatter` | ylong_http/src/h2/decoder.rs:349-419 | any segments that do not end inside a PRIORITY payload give the outcome of one call, frames, final state and error alike |
| `H2Decoder.CutInsidePriority` | ylong_http/src/h2/decoder.rs:445-463 | the excluded case exactly: in one piece the PRIORITY frame is delivered and decoding goes on, in two pieces it is a stream FRAME_SIZE_ERROR |
| `H2Decoder.InsideMeansCut` | ylong_http/src/h2/decoder.rs:445-463 | the decoder stands inside a PRIORITY payload only where whole frames on the wire were cut strictly inside a five-byte PRIORITY payload |
| `H2Decoder.CutPriorityFrame` | ylong_http/src/h2/decoder.rs:445-463 | every PRIORITY frame shows the difference: delivered in one piece, a stream FRAME_SIZE_ERROR when its payload is cut anywhere |
| `H2Decoder.WholeFrames` | ylong_http/src/h2/decoder.rs:349-419 | on whole frames `decode` does what processing them one by one does |
| `H2Decoder.WireSegments` | ylong_http/src/h2/decoder.rs:349-419 | whole frames in any segments that do not end inside a PRIORITY payload are decoded as in one call |
| `H2Decoder.AcceptOpen` | ylong_http/src/h2/decoder.rs:636-731 | inside an open block only a CONTINUATION on its stream is accepted, Partial until END_HEADERS and then complete with the id and flags of the opening frame |
| `H2Decoder.BlocksAreContiguous` | ylong_http/src/h2/decoder.rs:384-389 | over a whole accepted run, the frames from an opening HEADERS to the first END_HEADERS are CONTINUATIONs on its stream, and the completed frame carries its stream id and flags |
| `H2Decoder.IntruderIsRefused` | ylong_http/src/h2/decoder.rs:384-389 | any other frame inside an open block ends the run with a connection PROTOCOL_ERROR |
| `H2Decoder.StrayContinuation` | ylong_http/src/h2/decoder.rs:636-673 | exactly when a CONTINUATION that continues nothing is accepted, and what is delivered for it |
| `H2Decoder.PanicsExactly` | ylong_http/src/h2/decoder.rs:691-705 | the pad length is read out of bounds exactly for a padded HEADERS or PUSH_PROMISE frame without a payload |
| `H2Decoder.ReadSettings` | ylong_http/src/h2/decoder.rs:554-592 | the loop over a SETTINGS payload yields the known settings in order, skips unknown ones and stops at the first invalid one |
| `H2Decoder.FrameDecoder.constructor` | ylong_http/src/h2/decoder.rs:290-318 | a new decoder waits for a header, with no open block and the default frame limit |
| `H2Decoder.FrameDecoder.SetMaxFrameSize` | ylong_http/src/h2/decoder.rs:321-327 | a limit from 16384 to 16777215 is taken, otherwise the decoder stays as it is |
| `H2Decoder.FrameDecoder.DecodeFrameHeader` | ylong_http/src/h2/decoder.rs:796-831 | buffers a partial header, or completes it from the buffer and refuses lengths over the limit |
| `H2Decoder.FrameDecoder.DecodeFramePayload` | ylong_http/src/h2/decoder.rs:378-419 | refuses frames out of place, buffers a partial payload, or decodes the joined payload by type |
| `H2Decoder.FrameDecoder.Decode` | ylong_http/src/h2/decoder.rs:349-376 | the loop over stages refines the specification: frames, error, and the decoder afterwards |
| `H2Encoder.SettingsByteIs` | ylong_http/src/h2/encoder.rs:941-978 | the byte computed from `index / 6` and `index % 6` is that byte of the concatenated entries |
| `H2Encoder.PayloadByteIs` | ylong_http/src/h2/encoder.rs:735-766 | the byte that the payload loops compute by index is that byte of the payload, for GOAWAY, PRIORITY, SETTINGS, PING, RST_STREAM and WINDOW_UPDATE |
| `H2Encoder.HeaderByteIs` | ylong_http/src/h2/encoder.rs:563-602 | the byte that the header loops compute by index is that byte of the frame header |
| `H2Encoder.DataMoves` | ylong_http/src/h2/encoder.rs:604-626 | after some data the rest of the fragment, or a header and the next fragment, is pending, and the slice bounds hold |
| `H2Encoder.HeaderIsRight` | ylong_http/src/h2/encoder.rs:885-920 | a control header that is resumed at a good place is written as it should be, over any cut that follows |
| `H2Encoder.HeaderResumesExactly` | ylong_http/src/h2/encoder.rs:1094-1132 | the rest of a control header is right, whatever the output held, if and only if it is resumed at its start, or for SETTINGS and PING from the stream id on, or belongs to a GOAWAY, PRIORITY or WINDOW_UPDATE frame |
| `H2Encoder.IncrementResumesExactly` | ylong_http/src/h2/encoder.rs:832-857 | a WINDOW_UPDATE payload that was cut is resumed rightly if and only if nothing of it was written |
| `H2Encoder.LostExactly` | ylong_http/src/h2/encoder.rs:184-331 | the encoder has lost its place exactly when a frame was cut after 1 to 4 bytes (SETTINGS, PING), 1 to 8 bytes (RST_STREAM) or 10 to 12 bytes (WINDOW_UPDATE) |
| `H2Encoder.FrameEncoder.constructor` | ylong_http/src/h2/encoder.rs:115-132 | a new encoder has nothing pending |
| `H2Encoder.FrameEncoder.SetFrame` | ylong_http/src/h2/encoder.rs:136-179 | pending are exactly the bytes of the frames on the wire that the frame becomes; HEADERS without END_HEADERS is refused; PUSH_PROMISE leaves the state as it is |
| `H2Encoder.FrameEncoder.IterateHeader` | ylong_http/src/h2/encoder.rs:426-465 | the header loops of HEADERS, CONTINUATION and DATA write bytes `from .. from + len` of the header and nothing else |
| `H2Encoder.FrameEncoder.IterateControlHeader` | ylong_http/src/h2/encoder.rs:885-920 | the header loops of the control frames, with their buffer-relative addressing, their writes out of the buffer and their underflow, do what `WriteHeader` says byte by byte |
| `H2Encoder.FrameEncoder.IteratePayload` | ylong_http/src/h2/encoder.rs:735-766 | the loop writes bytes `from .. from + len` of the payload and nothing else |
| `H2Encoder.FrameEncoder.WritePayload` | ylong_http/src/h2/encoder.rs:1264-1272 | as much of the HPACK piece, up to the given length, as fits is copied, and the index moves by as much |
| `H2Encoder.FrameEncoder.HeadersHeaderStatus` | ylong_http/src/h2/encoder.rs:411-424 | the next state has pending what is left of the piece and the CONTINUATION frames of the pieces after it |
| `H2Encoder.FrameEncoder.EncodeHeadersFrame` | ylong_http/src/h2/encoder.rs:381-409 | writes pending bytes in order, from a header that may resume anywhere on to the first piece |
| `H2Encoder.FrameEncoder.EncodeHeadersPayload` | ylong_http/src/h2/encoder.rs:467-484 | writes pending bytes of a piece in order |
| `H2Encoder.FrameEncoder.EncodeContinuationFrames` | ylong_http/src/h2/encoder.rs:486-530 | writes a whole CONTINUATION header, which declares at most the frame limit, and pending bytes of its piece, or nothing in less than nine bytes |
| `H2Encoder.FrameEncoder.EncodeDataHeader` | ylong_http/src/h2/encoder.rs:532-561 | writes pending bytes of a fragment header, resuming anywhere |
| `H2Encoder.FrameEncoder.EncodeDataPayload` | ylong_http/src/h2/encoder.rs:604-626 | writes pending data in order and moves to the next fragment or to the end |
| `H2Encoder.FrameEncoder.EncodeControlHeader` | ylong_http/src/h2/encoder.rs:859-883 | writes what the header loop writes, for every cut; these are the pending bytes unless the place is lost |
| `H2Encoder.FrameEncoder.WriteBody` | ylong_http/src/h2/encoder.rs:735-766 | writes as much of a control payload, from an index on, as fits |
| `H2Encoder.FrameEncoder.EncodeControlBody` | ylong_http/src/h2/encoder.rs:832-857 | writes what the payload loop writes and counts as it counts, WINDOW_UPDATE from its start again; these are the pending bytes unless the place is lost |
| `H2Encoder.FrameEncoder.Encode` | ylong_http/src/h2/encoder.rs:184-331 | the loop terminates; unless the place is lost it writes a prefix of the pending bytes, leaves the others pending, and fills the buffer unless the frame ends or its next CONTINUATION follows |
| `H2Encoder.Transmit` | ylong_http/src/h2/encoder.rs:184-331 | buffers of any sizes that cut the frame well, as all do for DATA, HEADERS, GOAWAY and PRIORITY, together hold its bytes, and buffers of nine bytes or more make progress |
| `H2Transport.FragmentsConserve` | ylong_http/src/h2/encoder.rs:532-626 | exactly max(1, ceil(n/m)) fragments, each with its declared length, lengths summing to n, END_STREAM on the last at most |
| `H2Transport.FragmentBytes` | ylong_http/src/h2/encoder.rs:604-626 | byte i of what is sent is byte i mod m of the data |
| `H2Transport.FragmentsCarryData` | ylong_http/src/h2/encoder.rs:604-626 | what is sent is the data if and only if the data repeats with the frame limit as period, as it does up to that limit |
| `H2Transport.SecondFragmentRestarts` | ylong_http/src/h2/encoder.rs:615-617 | three bytes under a limit of two: the third byte sent is the first |
| `H2Transport.FragmentsAreDelivered` | ylong_http/src/h2/decoder.rs:594-634 | the decoder delivers each fragment as a DATA frame with its payload and flags |
| `H2Transport.HeaderBlockShape` | ylong_http/src/h2/encoder.rs:381-530 | a block whose pieces keep to the frame limit becomes one HEADERS frame and CONTINUATIONs on its stream whose payloads concatenate to it, END_HEADERS on the last only |
| `H2Transport.DeclaredExactly` | ylong_http/src/h2/encoder.rs:486-530 | every frame of a block declares its length rightly if and only if the pieces after the first keep to the frame limit |
| `H2Transport.ContinuationsAreFed` | ylong_http/src/h2/decoder.rs:636-673 | CONTINUATIONs of an open block feed HPACK piece by piece, Partial for all but the last |
| `H2Transport.BlockIsFed` | ylong_http/src/h2/decoder.rs:675-731 | for all flags: the frames of a block feed HPACK the pieces, the first without what PADDED and PRIORITY make the decoder cut off, and complete one HEADERS frame, or fail |
| `H2Transport.BlockIntactExactly` | ylong_http/src/h2/decoder.rs:691-716 | HPACK is fed the whole block if and only if neither PADDED nor PRIORITY is set |
| `H2Transport.PiecesMakeTheBlock` | ylong_http/src/h2/decoder.rs:223-229 | for an HPACK decoder that consumes a stream, piecewise feeding is feeding the concatenation |
| `H2Transport.HeaderBlockTransport` | ylong_http/src/h2/decoder.rs:636-731 | from bytes to frames, for all flags: every frame but the last is Partial, the last completes HEADERS with its stream id and flags, and HPACK is fed as `BlockIsFed` says |
| `H2Transport.BlockArrives` | ylong_http/src/h2/decoder.rs:636-731 | without PADDED and PRIORITY a streaming HPACK is fed exactly the block |
| `H2Transport.BlockInSegments` | ylong_http/src/h2/decoder.rs:349-419 | the frames of a block may come in any segments |
| `H2Transport.SettingsExact` | ylong_http/src/h2/decoder.rs:852-885 | encoded settings are read back as the same list if and only if all of them are valid |
| `H2Transport.FrameRoundTrip` | ylong_http/src/h2/decoder.rs:421-634 | a DATA or control frame comes back as it was if and only if it is deliverable |
| `H2Transport.FrameListRoundTrip` | ylong_http/src/h2/decoder.rs:349-419 | decoding the encodings of a list of frames returns the list if and only if all of them are deliverable, and leaves the decoder between frames |
| `H2Transport.FrameListInSegments` | ylong_http/src/h2/decoder.rs:349-419 | a list of frames in segments that spare PRIORITY payloads comes back if and only if all frames are deliverable |
| `H2Transport.Receive` | ylong_http/src/h2/decoder.rs:349-376 | a run of the decoder object over segments, up to the first error, is the run of the specification |
| `H2Transport.HeadersEndToEnd` | ylong_http/src/h2/encoder.rs:381-530 | a HEADERS frame through the encoder, any buffers from nine bytes on, any segments and the decoder gives the outcome of the block; the completed frame has END_STREAM if and only if the one that was sent had it |
| `H2Transport.TransmitAll` | ylong_http/src/h2/encoder.rs:184-331 | one frame after another through buffers that cut them well yields the concatenated encodings |
| `H2Transport.FramesEndToEnd` | ylong_http/src/h2/encoder.rs:184-331 | a list of frames through encoder, buffers, segments and decoder comes back if and only if all frames are deliverable |
| `H2Transport.OtherFlagsAreKept` | ylong_http/src/h2/encoder.rs:445-452 | clearing END_STREAM or END_HEADERS keeps the three other flags |
| `H2Transport.EndStreamArrives` | ylong_http/src/h2/encoder.rs:426-465 | a block that is accepted is Partial until its last frame, which completes HEADERS on its stream, with END_STREAM if and only if the frame that was sent had it |
| `H2Encoder.CutPingHeader` | ylong_http/src/h2/encoder.rs:1195-1203 | a PING header resumed at its third byte gets the length 0 there instead of 8 |
| `H2Payloads.FlagMasks` | ylong_http/src/h2/frame.rs:243-261 | each flag is its bit of the flags byte |
| `H2Payloads.ClearedFlags` | ylong_http/src/h2/encoder.rs:445-452 | what the encoder clears is `& 0xFE` and `& 0xFB`: all other bits stay |
| `H2Payloads.PaddedData` | ylong_http/src/h2/decoder.rs:613-633 | a PADDED DATA frame with any data and padding is delivered with the data alone |
| `H2Payloads.DataRefusedExactly` | ylong_http/src/h2/decoder.rs:594-618 | a DATA frame is refused if and only if it is on stream 0 or its padding does not fit, and always with PROTOCOL_ERROR |
| `H2Payloads.BlockOfHeaders` | ylong_http/src/h2/decoder.rs:675-731 | from a payload of pad length, priority fields, block and padding, HPACK is fed exactly the block, and the frame is Partial or complete by END_HEADERS |
| `H2Payloads.PartsFitExactly` | ylong_http/src/h2/decoder.rs:691-707 | a payload has such parts if and only if their lengths fit into it |
| `H2Payloads.MisfitIsRefused` | ylong_http/src/h2/decoder.rs:691-707 | otherwise the frame is refused with PROTOCOL_ERROR before HPACK sees it, except that an empty padded one is read out of bounds |
| `H2Payloads.BlockOfPush` | ylong_http/src/h2/decoder.rs:733-794 | a PUSH_PROMISE frame names the promised stream behind the pad length, and feeds HPACK its whole payload |
| `H2Payloads.PushRefused` | ylong_http/src/h2/decoder.rs:744-767 | a PUSH_PROMISE frame is refused with PROTOCOL_ERROR if and only if its parts do not fit or it names stream 0, apart from what HPACK refuses and the read out of bounds |
| `H2Payloads.BlockOnConnection` | ylong_http/src/h2/decoder.rs:636-678 | no part of a header block is accepted on stream 0 |
| `H2Payloads.PromisedBlock` | ylong_http/src/h2/decoder.rs:636-673 | the last CONTINUATION completes the opening frame: a promise if one was named, else HEADERS |
| `H2Payloads.UnknownSettingsAreSkipped` | ylong_http/src/h2/decoder.rs:858-885 | entries with identifiers other than 1 to 6 may be inserted anywhere into a list of settings |
| `H2Payloads.FirstBadValue` | ylong_http/src/h2/decoder.rs:858-885 | a list is refused for its first bad value, with FLOW_CONTROL_ERROR for the window size and PROTOCOL_ERROR for the other two |
| `H2Payloads.OversizedFrame` | ylong_http/src/h2/decoder.rs:796-831 | a header that declares more than the limit is refused with FRAME_SIZE_ERROR, whatever follows |
| `H2Payloads.ReservedBit` | ylong_http/src/h2/decoder.rs:838-843 | the reserved bit in front of a stream id is ignored |
| `H2Payloads.ControlErrors` | ylong_http/src/h2/decoder.rs:421-592 | which stream and which length every control frame asks for, and which error it gets otherwise; it is accepted if there is none |
| `H2Payloads.PriorityOnWire` | ylong_http/src/h2/encoder.rs:1003-1092 | a PRIORITY frame in full, byte for byte |
| `H2Payloads.GoawayOnWire` | ylong_http/src/h2/encoder.rs:680-766 | a GOAWAY frame in full, byte for byte |
| `H2Payloads.DataOnWire` | ylong_http/src/h2/encoder.rs:563-626 | a DATA frame in full, byte for byte |
| `H2Payloads.BlockOnWire` | ylong_http/src/h2/encoder.rs:426-530 | a block of two pieces in full: HEADERS without END_HEADERS, then CONTINUATION with it |
| `ChunkDecoder.TakeConserves` | ylong_http/src/body/chunk.rs:1338-1424 | every byte keeps delivered data plus `rest_size` equal to `total_size` |
| `ChunkDecoder.FeedConserves` | ylong_http/src/body/chunk.rs:959-1027 | in every reachable state the data of the current chunk plus `rest_size` is the declared size, and every finished chunk has exactly its size |
| `ChunkDecoder.CallIsFeed` | ylong_http/src/body/chunk.rs:959-1027 | a call on a slice, with its jumps over runs of data, does what the byte machine does |
| `ChunkDecoder.CutInTwo` | ylong_http/src/body/chunk.rs:959-1027 | two calls assemble the chunks, leave over the bytes and fail as one call on the joined input |
| `ChunkDecoder.SegmentsDoNotMatter` | ylong_http/src/body/chunk.rs:959-1027 | chunk data, ids, sizes, leftover and error do not depend on the segments |
| `ChunkDecoder.NoRemainder` | ylong_http/src/body/chunk.rs:991-1027 | a result that does not end with the last chunk leaves no remainder |
| `ChunkDecoder.ScanData` | ylong_http/src/body/chunk.rs:1338-1359 | a run of data is taken in one step as it would be byte by byte |
| `ChunkDecoder.ScanSize` | ylong_http/src/body/chunk.rs:1092-1145 | one byte of a size: a digit with checked i64 arithmetic, the end of the size, or an error |
| `ChunkDecoder.ChunkBodyDecoder.constructor` | ylong_http/src/body/chunk.rs:887-903 | a new decoder expects a size and has delivered nothing |
| `ChunkDecoder.ChunkBodyDecoder.DecodeSize` | ylong_http/src/body/chunk.rs:1092-1145 | the loop over hex digits refines the byte machine, overflow of a positive i64 included |
| `ChunkDecoder.ChunkBodyDecoder.DecodeSpecialChar` | ylong_http/src/body/chunk.rs:1163-1183 | the end of the size sets `total_size` and `rest_size`, or marks the last chunk |
| `ChunkDecoder.ChunkBodyDecoder.SkipExtension` | ylong_http/src/body/chunk.rs:1219-1237 | an extension is skipped up to its CR, a bare LF is an error |
| `ChunkDecoder.ChunkBodyDecoder.SkipCrlf` | ylong_http/src/body/chunk.rs:1239-1257 | the line end of the size, over any cut |
| `ChunkDecoder.ChunkBodyDecoder.DecodeData` | ylong_http/src/body/chunk.rs:1338-1359 | data up to `rest_size`, then the line end |
| `ChunkDecoder.ChunkBodyDecoder.SkipLastCrlf` | ylong_http/src/body/chunk.rs:1398-1424 | the line end of a chunk, over any cut, and the chunk it finishes |
| `ChunkDecoder.ChunkBodyDecoder.DecodeSlice` | ylong_http/src/body/chunk.rs:959-1027 | the loop over stages returns the chunks and the remainder of the specification, or its error |
| `ChunkEncoder.FeedBlock` | ylong_http/src/body/chunk.rs:1092-1424 | the decoder reads an encoded chunk as one chunk with its id, size and data |
| `ChunkEncoder.FeedFull` | ylong_http/src/body/chunk.rs:959-1027 | the decoder reads a whole encoding as its chunks and stops at the first empty one |
| `ChunkEncoder.RoundTrip` | ylong_http/src/body/chunk.rs:238-263 | decoding an encoding gives the content back, with leftover `0 CRLF CRLF` exactly if the length is a multiple of 1024 |
| `ChunkEncoder.TokenDone` | ylong_http/src/body/chunk.rs:448-555 | when a token is written out, what was pending is the rest of the token and what its successor has pending |
| `ChunkEncoder.TokenPart` | ylong_http/src/body/chunk.rs:448-644 | a token written in part stays pending from there on, except the digits of a shorter chunk |
| `ChunkEncoder.StepConserves` | ylong_http/src/body/chunk.rs:241-263 | a step that does not cut those digits writes a prefix of what is pending and leaves the rest |
| `ChunkEncoder.CutStepRepeats` | ylong_http/src/body/chunk.rs:475-486 | a step that cuts those digits leaves everything pending that was pending before it |
| `ChunkEncoder.WriteData` | ylong_http/src/body/chunk.rs:632-644 | copies what fits, and says whether the token is complete |
| `ChunkEncoder.ChunkBody.constructor` | ylong_http/src/body/chunk.rs:153-162 | pending is the full encoding of the reader, with the trailer part |
| `ChunkEncoder.ChunkBody.ReadChunk` | ylong_http/src/body/chunk.rs:246-252 | the next chunk is read only when the last one is written |
| `ChunkEncoder.ChunkBody.EncodeTrailer` | ylong_http/src/body/chunk.rs:383-398 | writes the trailer part from where it was left |
| `ChunkEncoder.ChunkBody.EncodeSize` | ylong_http/src/body/chunk.rs:465-486 | writes the size digits, those of a shorter chunk always from the start |
| `ChunkEncoder.ChunkBody.EncodeData` | ylong_http/src/body/chunk.rs:524-555 | writes the chunk data from where it was left and asks for the next chunk |
| `ChunkEncoder.ChunkBody.Encode` | ylong_http/src/body/chunk.rs:448-463 | writes the token under way and moves to its successor once it is complete |
| `ChunkEncoder.ChunkBody.FillBuffer` | ylong_http/src/body/chunk.rs:241-263 | `data` terminates and fills the buffer with pending bytes; the others stay pending, except that a cut amid the digits of the last size makes all of them pending again |
| `ChunkEncoder.SingleBytesAreNotClean` | ylong_http/src/body/chunk.rs:475-486 | buffers of one byte cut every last size of several digits |
| `ChunkEncoder.Drain` | ylong_http/src/body/chunk.rs:241-263 | buffers of given sizes together hold the encoding if none ends amid those digits, and otherwise more bytes than the encoding has are written |
| `ChunkEncoder.EncodeAll` | ylong_http/src/body/chunk.rs:238-263 | the output is the encoding if and only if no buffer ends amid those digits |
| `ChunkEncoder.SegmentedRoundTrip` | ylong_http/src/body/chunk.rs:959-1027 | any segments of an encoding decode to the content |
| `ChunkGrammar.DigitExactly` | ylong_http/src/body/chunk.rs:1102-1139 | a byte has a value exactly if it is one of 0-9, a-f, A-F |
| `ChunkGrammar.DigitsDenote` | ylong_http/src/body/chunk.rs:1083-1134 | every string of digits in any case, leading zeros included, denotes a number |
| `ChunkGrammar.DenotesOne` | ylong_http/src/body/chunk.rs:1083-1134 | and only one |
| `ChunkGrammar.FeedNumber` | ylong_http/src/body/chunk.rs:1083-1145 | reading the digits of a size makes up the number that they denote, and fails exactly beyond the largest `i64` |
| `ChunkGrammar.HexIs` | ylong_http/src/body/chunk.rs:475-486 | the digits that the encoder writes denote their number, in lower case and without leading zeros |
| `ChunkGrammar.BadSizeByte` | ylong_http/src/body/chunk.rs:1135-1138 | any other byte within a size is refused |
| `ChunkGrammar.ExtensionIsSkipped` | ylong_http/src/body/chunk.rs:1219-1237 | an extension after blank, tab or semicolon makes no difference to the chunk |
| `ChunkGrammar.BadLineEnd` | ylong_http/src/body/chunk.rs:1219-1257 | a bare LF, or a CR before anything else, is refused at the end of the line of a size |
| `ChunkGrammar.BadDataEnd` | ylong_http/src/body/chunk.rs:1398-1424 | data that does not end in CR LF is refused |
| `ChunkGrammar.FeedChunk` | ylong_http/src/body/chunk.rs:1092-1424 | a chunk by its grammar, in any digits and with or without an extension, is read as one chunk with its id, size and data; size 0 is the last |
| `ChunkGrammar.PartsOfChunk` | ylong_http/src/body/chunk.rs:1092-1396 | what one call hands out of a chunk that it was given in part, with its state, by where the bytes end |
| `ChunkGrammar.DataComplete` | ylong_http/src/body/chunk.rs:1398-1424 | with all data there, a chunk is handed out as one that lacks its line end |
| `ChunkGrammar.TrailerPartIs` | ylong_http/src/body/chunk.rs:383-398 | the trailer part is the last chunk, the fields as they are, and an empty line |
| `H3Octets.LengthIsRecovered` | ylong_http/src/h3/octets.rs:217-224 | the first byte of a varint tells its length |
| `H3Octets.VarintRoundTrip` | ylong_http/src/h3/octets.rs:76-95 | a varint is read back with its length, whatever follows |
| `H3Octets.StrictPrefixFails` | ylong_http/src/h3/octets.rs:76-81 | a strict prefix of a varint is not read |
| `H3Octets.StreamRoundTrip` | ylong_http/src/h3/octets.rs:76-215 | a stream of varints is read back in order, and nothing after it |
| `H3Octets.ReadableBytes.ReadVarint` | ylong_http/src/h3/octets.rs:76-95 | reads the varint at the index and moves past it, or fails and stays |
| `H3Octets.WritableBytes.WriteVarint` | ylong_http/src/h3/octets.rs:121-200 | writes the varint at the index and moves past it, or fails and leaves the buffer as it is |
| `H3Octets.LengthIsShortest` | ylong_http/src/h3/octets.rs:204-215 | a varint takes the shortest of 1, 2, 4 and 8 bytes that leaves room for its value |
| `H3Octets.SamplesOfTwo` | ylong_http/src/h3/octets.rs:121-200 | two values in full, byte for byte |
| `H3Octets.SampleOfFour` | ylong_http/src/h3/octets.rs:121-200 | a sample of section A.1 of RFC 9000, byte for byte |
| `H3Octets.LongSample` | ylong_http/src/h3/octets.rs:76-95 | a varint that is longer than need be is read as well |
| `H3Frames.EntriesRoundTrip` | ylong_http/src/h3/decoder.rs:676-703 | entries are read as the settings they came from if and only if the additional keys are neither reserved nor named |
| `H3Frames.EntryBytesBound` | ylong_http/src/h3/encoder.rs:578-587 | an entry takes at most 16 bytes |
| `H3Decoder.StepMakesProgress` | ylong_http/src/h3/decoder.rs:146-257 | every step that goes on lowers (unread bytes, rank of the state), so the loop terminates |
| `H3Decoder.MoreEntries` | ylong_http/src/h3/decoder.rs:675-698 | entries that were read stay as they are when more bytes follow; only an entry that lacks bytes may change |
| `H3Decoder.CutInTwo` | ylong_http/src/h3/decoder.rs:146-257 | two calls give the stream, data and frames of one call, or its error, unless the first part exhausts a SETTINGS payload |
| `H3Decoder.CutAfterSettings` | ylong_http/src/h3/decoder.rs:664-713 | the excluded cases exactly: in two parts the second is decoded as it should be, in one the payload is decoded again as frames; an entry past the declared length is an error at the end of a part and is read on otherwise |
| `H3Decoder.CutMattersExactly` | ylong_http/src/h3/decoder.rs:705-713 | exhausted settings make no difference if and only if their payload, read as frames, makes none before the second part |
| `H3Decoder.PastSettingsIsSpared` | ylong_http/src/h3/decoder.rs:416-459 | request streams, and control streams whose settings are there, never get to a SETTINGS payload |
| `H3Decoder.SegmentsDoNotMatter` | ylong_http/src/h3/decoder.rs:146-257 | data, frames, final state and error do not depend on the segments, if none but the last exhausts a SETTINGS payload |
| `H3Decoder.PastSettingsSpares` | ylong_http/src/h3/decoder.rs:416-459 | on request streams, and on control streams once the settings are there, any segments will do |
| `H3Decoder.ItemsAreDecoded` | ylong_http/src/h3/decoder.rs:416-538 | a request stream of DATA and unknown frames is read to its end and yields the payloads |
| `H3Decoder.DataEndToEnd` | ylong_http/src/h3/decoder.rs:416-538 | in any segments, with unknown frames in between, the Data pieces concatenate to the payloads |
| `H3Control.EntriesAreRead` | ylong_http/src/h3/decoder.rs:664-703 | the loop over a SETTINGS payload reads its entries in order and ends at its length |
| `H3Control.SettingsThen` | ylong_http/src/h3/decoder.rs:664-713 | settings that end the input are delivered; if bytes follow, the payload is read once more, as frames |
| `H3Control.SettingsRoundTrip` | ylong_http/src/h3/decoder.rs:664-713 | a control stream that ends with its SETTINGS frame gives the settings back, `Some([])` as `None`, if and only if the additional keys are additional ones |
| `H3Control.SettingsAreReadAgain` | ylong_http/src/h3/decoder.rs:705-713 | one byte after a certain SETTINGS frame makes the decoder report an unexpected HEADERS frame |
| `H3Control.SettingsInSegments` | ylong_http/src/h3/decoder.rs:146-257 | a control stream that ends with its settings may come in any segments |
| `H3Control.SkipsExactly` | ylong_http/src/h3/decoder.rs:732-756 | after the settings a control stream skips bytes without a trace if and only if they are whole frames of unknown type |
| `H3Control.TransparentExactly` | ylong_http/src/h3/decoder.rs:146-257 | bytes make no difference before others on a control stream, for all that can follow, if and only if they are whole frames of unknown type; half a varint behind them is enough to tell |
| `H3Control.SettingsFollowedExactly` | ylong_http/src/h3/decoder.rs:705-713 | whatever follows the settings in the same call is decoded as intended if and only if their payload, read as frames, consists of whole frames of unknown type |
| `H3Control.FollowedBy` | ylong_http/src/h3/decoder.rs:705-713 | for given bytes after the settings: as intended if and only if the payload, read as frames, makes no difference before them |
| `H3Control.HarmlessSettings` | ylong_http/src/h3/decoder.rs:705-713 | the setting 0x21 = 0 may be followed by any bytes |
| `H3Control.EntryPastTheEnd` | ylong_http/src/h3/decoder.rs:675-683 | an entry that runs past the declared length: an error when the bytes end there, read on when they go on |
| `H3Control.IdArrives` | ylong_http/src/h3/decoder.rs:620-662 | GOAWAY and CANCEL_PUSH frames are delivered with the integer that they carry, and decoding goes on behind them |
| `H3Control.RefusedExactly` | ylong_http/src/h3/decoder.rs:416-459 | the frame types that are refused as soon as the type is there, for a request stream and for a control stream before and after its settings; all others go on to the length |
| `H3Control.LeadsOutside` | ylong_http/src/h3/decoder.rs:461-504 | HEADERS and PUSH_PROMISE on a request stream lead out of the model |
| `H3Control.ReservedIsRefused` | ylong_http/src/h3/decoder.rs:685-697 | settings with a reserved identifier are refused with it, whatever comes behind |
| `H3Control.NamedSettings` | ylong_http/src/h3/encoder.rs:341-394 | the identifiers of the named settings, the order in which they are written, and how they are read |
| `H3Decoder.DecodedStream.constructor` | ylong_http/src/h3/decoder.rs:275-294 | a new stream is a request stream or waits for its type |
| `H3Decoder.DecodedStream.DecodeStreamType` | ylong_http/src/h3/decoder.rs:380-396 | reads the stream type, or waits |
| `H3Decoder.DecodedStream.CheckFrameType` | ylong_http/src/h3/decoder.rs:420-445 | which frames are expected on which stream, SETTINGS only once |
| `H3Decoder.DecodedStream.DecodeFrameType` | ylong_http/src/h3/decoder.rs:416-459 | reads the frame type, refuses it, or waits |
| `H3Decoder.DecodedStream.DecodePayloadLen` | ylong_http/src/h3/decoder.rs:461-504 | reads the length and enters the payload of the frame, or waits |
| `H3Decoder.DecodedStream.DecodeDataPayload` | ylong_http/src/h3/decoder.rs:506-538 | hands out the data at hand and counts down the length |
| `H3Decoder.DecodedStream.DecodeUnknownPayload` | ylong_http/src/h3/decoder.rs:732-756 | skips the payload at hand and counts down the length |
| `H3Decoder.DecodedStream.DecodeVariablePayload` | ylong_http/src/h3/decoder.rs:620-662 | a frame of one integer, without regard to its declared length |
| `H3Decoder.DecodedStream.ReadSettings` | ylong_http/src/h3/decoder.rs:676-700 | the loop reads entries up to the declared length, or fails |
| `H3Decoder.DecodedStream.DecodeSettingsPayload` | ylong_http/src/h3/decoder.rs:664-713 | delivers the settings once the payload is there and leaves the offset before it if bytes follow |
| `H3Decoder.DecodedStream.Decode` | ylong_http/src/h3/decoder.rs:146-257 | the loop over states refines the specification: frames, error, and the stream afterwards |
| `H3Encoder.SettingsFit` | ylong_http/src/h3/encoder.rs:554-596 | with at most 50 additional entries a SETTINGS frame fits into 1024 bytes |
| `H3Encoder.EncodedStream.SetFrame` | ylong_http/src/h3/encoder.rs:116-153 | a frame is taken only between frames, and then all its bytes are pending |
| `H3Encoder.EncodedStream.SettingsLen` | ylong_http/src/h3/encoder.rs:554-596 | the declared length is the number of bytes of the payload |
| `H3Encoder.EncodeSettings` | ylong_http/src/h3/encoder.rs:341-394 | writes the entries of the settings that are present, named ones first, and nothing else |
| `H3Encoder.EncodedStream.EncodeDataFrame` | ylong_http/src/h3/encoder.rs:210-216 | writes type and length of a DATA frame |
| `H3Encoder.EncodedStream.EncodeDataPayload` | ylong_http/src/h3/encoder.rs:615-639 | writes pending data in order until the frame is complete |
| `H3Encoder.EncodedStream.EncodeSettingsFrame` | ylong_http/src/h3/encoder.rs:231-237 | writes type and length of a SETTINGS frame, or refuses more than 50 additional entries |
| `H3Encoder.EncodedStream.EncodeSettingsPayload` | ylong_http/src/h3/encoder.rs:341-394 | writes the whole pending payload in one go |
| `H3Encoder.EncodedStream.Encode` | ylong_http/src/h3/encoder.rs:179-262 | fills a buffer of at least 1024 bytes with pending bytes, in order; refuses smaller ones and too many settings, and fails in no other way |
| `H3Encoder.EncodedStream.EncodePayload` | ylong_http/src/h3/encoder.rs:217-242 | the payload follows the head in the same call, and the call fills the buffer or completes the frame |
| `H3Encoder.Transmit` | ylong_http/src/h3/encoder.rs:179-262 | buffers of at least 1024 bytes together hold the frame |
| `H3Encoder.TransmitAll` | ylong_http/src/h3/encoder.rs:179-262 | DATA frames one after another, each through buffers of any capacities from 1024 on, yield the stream of these frames |
| `H3Encoder.DataArrives` | ylong_http/src/h3/decoder.rs:506-538 | that stream, received in any segments, gives the concatenated payloads |
| `H3Encoder.SettingsEndToEnd` | ylong_http/src/h3/decoder.rs:664-713 | encoded settings at the start of a control stream, in any segments, come back, `Some([])` as `None`, if and only if the additional keys are neither reserved nor named |

## Left out

- HPACK and QPACK: their internals are not part of this model; HTTP/3 HEADERS, PUSH_PROMISE, push streams and QPACK streams go with them and end a modelled run.
- H2Encoder.FrameEncoder.SetFrame: a DATA frame under a frame limit of 0, for which the code writes empty frames without end; a PUSH_PROMISE frame set while another frame is being written, after which `encode` reports an unexpected payload type.
- H2Encoder.FrameEncoder.Encode: what follows once the place is lost is specified step by step (`EncodeControlHeader`, `EncodeControlBody`) and not for the whole call.
- H2Encoder.FrameEncoder.IterateControlHeader: an underflowing shift distance ends the program, as it does under overflow checks; what a build without them writes is not modelled.
- H2Encoder.FrameEncoder.EncodeControlHeader: models the separate header states of the control frames as one state, which the payload of the frame tells apart.
- H2Encoder: a change of the frame limit while a frame is being written, `update_setting`, and `encode_padding`, which no state leads to.
- H2Decoder.FrameDecoder.Decode: the decoder after an error is not specified, because the connection or stream is given up.
- H2Decoder.FrameDecoder.DecodeFrameHeader: the same.
- H2Decoder.FrameDecoder.DecodeFramePayload: the same.
- ChunkDecoder.ChunkBodyDecoder.DecodeSlice: the decoder after an error is not specified, because the body is given up.
- Chunk trailers: `contains_trailer` is false throughout and `get_trailer` is not modelled, because the last chunk is then recognised by lookahead within one slice.
- ChunkEncoder.ChunkBody.ReadChunk: a reader that returns fewer bytes than it could before its end, which makes the code take the chunk for the last one.
- ChunkEncoder.ChunkBody.constructor: only readers that fill the chunk buffer until their end; `ChunkBody<FromBytes>`, which sets its chunk counter to 1, and the asynchronous variants are not modelled, nor is a reader that fails.
- H3Decoder.DecodedStream.DecodeStreamType: push, QPACK and unknown streams are one state that ends the modelled run.
- H3Decoder.DecodedStream.CheckFrameType: push streams, on which DATA and HEADERS are expected too.
- H3Decoder.DecodedStream.Decode: one stream; the map from ids to streams, in which streams do not affect each other, and what becomes of a stream after an error are not modelled.
- H3Encoder.EncodedStream.SetFrame: frames whose type field disagrees with their payload, and HEADERS, GOAWAY, CANCEL_PUSH and MAX_PUSH_ID frames, whose returned size omits the length field.
- Flow control, stream states and everything above the codecs, the `ylong_http_client` crate, and plain data such as header names, methods and versions.
