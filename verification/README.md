# Verified model of the tunnel protocol

Toppa carries traffic between a desktop and a phone: TCP streams are multiplexed (TLMP) over one
encrypted record stream, which is set up by a Noise XX handshake. This project models that stack and a
number of independent cores around it, and proves what they promise: for every input, every run or every
reachable state.

## What is modelled

**The multiplexer** (`Mux*.dfy`). A session is a step system whose atomic steps end where the code takes
or releases a lock or hands over a frame; two sessions exchange frames over two FIFO channels.

- `MuxStream`, `MuxSession`: the stream's fields, each section that runs under a lock as a function, and
  every step of a session: `Open`, `Write`, `Read`, `Close`, `Accept`, `handleFrame` per frame kind, the
  receive loop between two frames, and the shutdown.
- `MuxObjects`: the stream and session objects changed in place, each method proved against those
  functions, with the link back to the step system.
- `MuxUndisturbed`: the calls of those objects are the steps of the step system with nothing between them.
- `MuxOrphan`, `MuxStranded`, `MuxAccept`, `MuxRefusals`: one session against an arbitrary peer. No caller sleeps on a stream that has
  left the table, and which SYN frames break that; streams are accepted in order; refusals tell the truth.
- `MuxChannel`, `MuxNet`, `MuxPair`, `MuxPairRecv`, `MuxMoves`, `MuxRun`: the invariant of two mirrored
  sessions, stated per stream on its two ends and the two channels, and kept by every step.
- `MuxSafety`, `MuxWindows`, `MuxPolite`, `MuxLateWrite`, `MuxClean`, `MuxProgress`: the theorems about
  all runs. Credit is conserved, bytes arrive in order, honest peers never kill the session if their
  windows agree and only then, end of file is exact if callers are polite and only then, a clean run never
  sends RST, and every byte and every end of file is delivered after finitely many steps.

**Codecs and records.** `FrameCodec`, `TargetCodec`, `TlmpTwin` (the Go and Kotlin codecs against each
other), `RecordLayer` (both implementations of the encrypted records), `WireStack` (frames through
records through arbitrary reads), `RingBuffer` (the Kotlin receive queue against a byte sequence),
`KotlinStream` (the Kotlin stream over that queue against the Go stream).

**Handshake and curve.** `NoiseXX`, `NoiseObject` and `NoiseTranscript` (the Noise Protocol Framework, revision 34),
`X25519` (section 5 of RFC 7748).

**Around the tunnel.** `Journal` and `RouteManager` (mutations, rollback, restart, crash), `Checksum`,
`PacketProcessor` and `UdpDnsReply` (RFC 1071 and the packet rewriters), `Dns`, `DnsResponse` and
`DnsAnswers` (RFC 1035), `HeadRewriter` (the plain-HTTP head rewriter).

`Bytes` holds bytes, fixed-width integers and the result types.

## Conditions the theorems use

- *Mirrored* sessions: opposite roles, the same window (positive) and the same payload cap of at least
  260 bytes, which is the longest address block. `WindowsMustAgree` shows that the windows have to be equal.
- At most 2^31 streams opened per side; ids count modulo 2^32.
- One writer and one reader thread per direction; this is part of the state of a stream.
- *Polite* runs (`MuxPolite`): no `Write` after or during `Close`. The code tests the half-close only
  while the window is empty; `WriteAfterCloseExact` says exactly when a late write is refused, and
  `EofExactlyIfPolite` that end of file is exact for polite callers and for no others.
- *Clean* runs (`MuxClean`): polite, well-formed targets, an accept queue that never overflows, no shutdown.
- Ciphers, hash, key derivation, Diffie-Hellman, the curve's addition law, Fermat's theorem for P, the
  lower-casing of header lines and the configured system's undo are parameters with stated laws.

## Where the code departs from its stated intent

- The Kotlin ring buffer takes a push that exactly fills it and then reads as empty, so the stream over
  it loses what it held (`RingRefinesBytes`, `DefaultRingLosesFirst4096`, `KtStream.PushData`).
- The Kotlin frame decoder reads the length as a signed number and takes a negative one as zero
  (`TwinsAgreeExactly`, `TwinsDivergeSomewhere`).
- The handshake admits a record cap of 2^24, but a 24-bit length carries at most 2^24 - 17 bytes of
  plaintext (`RecordRoundTrip`, `AdmittedCapFails`).
- The Kotlin responder computes the third Noise secret as DH(s, re), and completion is noted on writing
  only (`AsWrittenAgreesExactly`, `AsWrittenFailsSomewhere`, `ResponderNeverCompletes`).
- The Kotlin handshake does not mix a prologue into the hash, which section 5.3 of the framework asks for even
  when it is empty; `NoiseTranscript.Chain` says what is hashed.
- The journal is documented as written before the mutation, but the manager mutates first
  (`CrashUncoversFirst`, `UncoveredExactly`). After a first failed undo, entries whose undos fail later are
  still marked rolled back (`SecondFailureIsForgotten`, `FailedStayExactly`).
- `handleSYN` does not look at `closed`: exactly the runs in which a SYN is taken after the sweep leave
  somebody asleep after the shutdown (`StrandedExactly`). Nor does it look at the parity of the id: exactly
  a peer that may use our ids can leave a stream that `Open` returned asleep for ever (`OrphansExactly`).
- The head rewriter adds one line end to every HTTP head (`EndedLines`; without a matching line nothing
  else changes, `UnmatchedHeadGrows`), and a head that ends beyond the hold-back limit is rewritten or not
  depending on how it is cut (`ChunkingIndependence`).

## Model

| member | source | states |
|---|---|---|
| `FrameCodec.DecodeEncode` | desktop/internal/mux/frame.go:62-133 | a frame within the cap is read back as it was written, whatever follows it |
| `FrameCodec.DecodeIsCanonical` | desktop/internal/mux/frame.go:106-133 | the decoder accepts nothing but encodings of accepted frames, and leaves exactly the rest |
| `FrameCodec.FrameLayout` | desktop/internal/mux/frame.go:106-156 | the bytes of a frame and, number by number, exactly which inputs are a frame, incomplete, of a wrong version or too large |
| `FrameCodec.WriteReadExact` | desktop/internal/mux/frame.go:62-156 | what `WriteFrame` emits is read back exactly when the frame obeys the structural rules, which it does not check, and its size fits 32 bits, which it checks only after the cut |
| `FrameCodec.PrefixDecodes` | desktop/internal/mux/frame.go:106-133 | a prefix of a valid stream decodes to exactly the frames wholly inside it, never to another frame or an error |
| `FrameCodec.RoundTripAll` | desktop/internal/mux/frame.go:62-133 | every list of accepted frames comes back |
| `TargetCodec.AppendTarget` | desktop/internal/mux/target.go:49-62 | the address block is appended to what was there |
| `TargetCodec.TargetLayout` | desktop/internal/mux/target.go:65-101 | the bytes of an address block, and exactly which inputs are refused |
| `TargetCodec.RoundTripExact` | desktop/internal/mux/target.go:49-101 | a target is read back exactly when it is well-formed |
| `TargetCodec.ParseIsCanonical` | desktop/internal/mux/target.go:65-101 | what is parsed is well-formed and its encoding begins the input |
| `TargetCodec.EncodedSize` | desktop/internal/mux/target.go:49-62 | an address block has at most 260 bytes |
| `TargetCodec.ParseTargetKt` | android/core/proto/src/main/kotlin/dev/toppa/proto/Tlmp.kt:158-189 | the Kotlin parser gives the same answer as the Go parser on every input |
| `TargetCodec.AppendTargetKt` | android/core/proto/src/main/kotlin/dev/toppa/proto/Tlmp.kt:140-155 | the Kotlin encoder refuses exactly bad address types and name lengths, and otherwise writes the bytes of the target cut to the wire fields |
| `TargetCodec.KotlinTargetExact` | android/core/proto/src/main/kotlin/dev/toppa/proto/Tlmp.kt:140-189 | a Kotlin target is read back as it was exactly if its numbers fit the wire fields and it is well-formed |
| `TlmpTwin.TwinsAgreeExactly` | android/core/proto/src/main/kotlin/dev/toppa/proto/Tlmp.kt:97-137 | both frame decoders give the same answer exactly on inputs without a negative length |
| `TlmpTwin.TwinsDivergeSomewhere` | android/core/proto/src/main/kotlin/dev/toppa/proto/Tlmp.kt:105-109 | ten bytes that Go refuses and Kotlin takes as an empty frame |
| `TlmpTwin.KotlinToGo` | android/core/proto/src/main/kotlin/dev/toppa/proto/Tlmp.kt:79-90 | what Kotlin writes, Go reads back |
| `TlmpTwin.InputStream.ReadFully` | android/core/proto/src/main/kotlin/dev/toppa/proto/Tlmp.kt:191-200 | exactly n bytes however the stream is cut, or the end-of-file error exactly when there are fewer |
| `TlmpTwin.InputStream.ReadFrame` | android/core/proto/src/main/kotlin/dev/toppa/proto/Tlmp.kt:97-112 | decodes what the stream holds regardless of how it is cut |
| `MuxStream.WriteAfterCloseExact` | desktop/internal/mux/stream.go:80-105 | a write after `Close` is refused for that reason exactly when the window is empty and nothing else ended the stream; with window left it still reserves |
| `MuxStream.EofExact` | desktop/internal/mux/stream.go:46-54 | end of file is reported exactly on an empty buffer after FIN without a reset, whatever the buffer size; bytes, the two other refusals and waiting exactly as well |
| `MuxStream.ReserveExact` | desktop/internal/mux/stream.go:80-105 | for which reason a write is refused or waits, exactly, and that it gets all that window, cap and need allow |
| `MuxSession.EmittedFramesAreUnderstood` | desktop/internal/mux/session.go:215-250 | every frame a session builds is structurally valid and dispatched as what was meant |
| `MuxSession.MessageLayout` | desktop/internal/mux/session.go:102-279 | the bytes of every message a session writes: version, flag, id, size, payload |
| `MuxSession.FirstFlagDecides` | desktop/internal/mux/session.go:215-250 | of several flags the first in the order of the dispatch decides |
| `MuxObjects.Wire.WriteFrame` | desktop/internal/mux/session.go:167-174 | a frame goes out exactly if the session is open and the payload within the cap |
| `MuxObjects.Stream.Drain` | desktop/internal/mux/stream.go:45-65 | the locked part of a read: data before flags, then reset, end of file, session end, in that order |
| `MuxObjects.Stream.Read` | desktop/internal/mux/stream.go:41-71 | a read and the WIN frame that returns its credit |
| `MuxObjects.Stream.Reserve` | desktop/internal/mux/stream.go:79-106 | one turn of the write loop under the lock |
| `MuxObjects.Stream.Write` | desktop/internal/mux/stream.go:76-116 | how far a write gets and why it stops; its DATA frames carry exactly the bytes counted, in order, each nonempty and within the cap |
| `MuxObjects.Stream.MarkClosed` | desktop/internal/mux/stream.go:121-129 | only the first close does anything; everyone it concerns is woken |
| `MuxObjects.Stream.PushData` | desktop/internal/mux/stream.go:137-149 | DATA beyond the window is refused and changes nothing; otherwise it is appended and readers are woken |
| `MuxObjects.Stream.RemoteClosed` | desktop/internal/mux/stream.go:151-160 | sets the flag, tells whether the stream can be retired, wakes readers |
| `MuxObjects.Stream.AddSendWindow` | desktop/internal/mux/stream.go:162-167 | adds the credit and wakes writers |
| `MuxObjects.Stream.SessionClosed` | desktop/internal/mux/stream.go:169-174 | marks the session's end and wakes all |
| `MuxObjects.Stream.RemoteReset` | desktop/internal/mux/stream.go:176-181 | marks the reset and wakes all |
| `MuxObjects.Session.Open` | desktop/internal/mux/session.go:102-122 | registers under the next id, sends SYN, and undoes the entry if that fails |
| `MuxObjects.Session.RemoveStream` | desktop/internal/mux/session.go:183-187 | takes one entry out of the table |
| `MuxObjects.Session.ResetStream` | desktop/internal/mux/session.go:190-198 | takes the entry out and marks its stream reset |
| `MuxObjects.Session.CloseStream` | desktop/internal/mux/stream.go:120-134 | flag, retirement exactly if FIN was seen, FIN frame; a second close does nothing |
| `MuxObjects.Session.HandleSyn` | desktop/internal/mux/session.go:252-275 | bad block, duplicate, full queue and success, with table, answer and queue after each |
| `MuxObjects.Session.HandleFrame` | desktop/internal/mux/session.go:215-250 | table, answer, queue and verdict after any frame |
| `MuxObjects.Session.CloseWithError` | desktop/internal/mux/session.go:148-165 | GOAWAY, flag, every stream of the table woken; only once |
| `MuxObjects.HandleIsUndisturbedSteps` | desktop/internal/mux/session.go:215-275 | handling a frame in one go is what the step system does when nothing comes between its steps |
| `MuxObjects.AnswersExactly` | desktop/internal/mux/session.go:215-279 | which frames are answered by RST, with which reason, or by PONG, and which end the receive loop, each exactly |
| `MuxUndisturbed.CloseIsUndisturbedSteps` | desktop/internal/mux/stream.go:120-134 | the first `Close` undisturbed: the flag, the table entry out exactly if FIN was seen, and FIN written, whoever closes first |
| `MuxUndisturbed.OpenIsUndisturbedSteps` | desktop/internal/mux/session.go:102-122 | `Open` undisturbed: the stream under the next id, and its SYN |
| `MuxUndisturbed.OpenUndoneIsUndisturbedSteps` | desktop/internal/mux/session.go:114-120 | `Open` undisturbed when the SYN does not fit: the entry is out again, nothing is written |
| `MuxUndisturbed.ReadIsUndisturbedSteps` | desktop/internal/mux/stream.go:41-71 | a `Read` that has bytes, undisturbed: the bytes, the buffer behind them, and the WIN for them |
| `MuxUndisturbed.TurnIsUndisturbedSteps` | desktop/internal/mux/stream.go:79-115 | a turn of the `Write` loop undisturbed: the granted bytes in one DATA frame, the rest still to come |
| `MuxUndisturbed.CloseWithErrorIsUndisturbedSteps` | desktop/internal/mux/session.go:148-165 | the shutdown undisturbed: GOAWAY, the flag, every stream of the table marked and no other changed |
| `MuxAccept.AcceptedInOrder` | desktop/internal/mux/session.go:131-138 | over every run and with any peer: streams accepted, then those queued, are the streams there was room for, in order; the queue never exceeds its depth |
| `MuxRefusals.RefusalsAreTrue` | desktop/internal/mux/stream.go:41-116 | over every run and with any peer: a call says reset only if an RST for that very stream or a full queue reset it, the session's end only after the sweep, half-closed only after `Close` |
| `MuxOrphan.RunKeepsInv` | desktop/internal/mux/session.go:102-122 | over all interleavings with a peer whose SYN frames that are taken carry ids of its own, a stream not in the table is released, refused, or about to be marked reset |
| `MuxOrphan.NoOrphanedSleeper` | desktop/internal/mux/session.go:148-198 | a stream returned by `Open` and missing from the table lets no call sleep |
| `MuxOrphan.NoOrphanedInbound` | desktop/internal/mux/session.go:252-275 | the same for inbound streams when the peer never reuses an id |
| `MuxOrphan.SweepWakesTable` | desktop/internal/mux/session.go:160-164 | the sweep marks exactly the streams of the table and changes no other |
| `MuxOrphan.LateStreamIsNeverMarked` | desktop/internal/mux/session.go:148-165 | once the shutdown is over, a stream it did not mark is never marked |
| `MuxStranded.TableStaysEmptyExactly` | desktop/internal/mux/session.go:148-165 | whoever the peer is, the table of a session that is down ever holds a stream exactly if a SYN is taken after the sweep |
| `MuxStranded.StrandedExactly` | desktop/internal/mux/session.go:252-275 | with a peer that repeats no id, over every run: a caller can ever be asleep after the shutdown exactly if a SYN is taken after the sweep |
| `MuxStranded.LateStreamStaysUnmarked` | desktop/internal/mux/session.go:252-275 | the stream of such a SYN is never marked, however the run goes on |
| `MuxStranded.SynAfterSweepOrphans` | desktop/internal/mux/session.go:131-138 | under every configuration that queues streams such a stream can reach a caller, who then sleeps for ever |
| `MuxStranded.OrphansExactly` | desktop/internal/mux/session.go:102-122 | under every configuration with a queue and room for a target, a stream `Open` returned can be left asleep for ever exactly if a SYN with an id of our side may be taken |
| `MuxRun.StepIsMove` | desktop/internal/mux/session.go:200-275 | every step of a side is, for every stream, one of the listed moves |
| `MuxMoves.MoveKeepsPair` | desktop/internal/mux/stream.go:41-181 | every move keeps the invariant of a stream: credit, order, life and resets of both ends |
| `MuxRun.RunKeepsInv` | desktop/internal/mux/session.go:78-275 | every state two mirrored sessions can reach satisfies the invariant of every stream |
| `MuxSafety.CreditConservation` | desktop/internal/mux/stream.go:61-167 | window, reserved, in transit, buffered, owed and returned bytes add up to the initial window, never more |
| `MuxSafety.FramesArriveInOrder` | desktop/internal/mux/stream.go:98-149 | bytes read and held are a prefix of bytes framed, whatever other streams do |
| `MuxSafety.HonestPeersNeverKill` | desktop/internal/mux/session.go:215-250 | no protocol violation, every frame accepted, DATA always fits, no SYN names a stream of the table |
| `MuxSafety.IdsNeverCollide` | desktop/internal/mux/session.go:87-111 | one stream per id, opened by the side the id belongs to |
| `MuxWindows.WindowsMustAgree` | desktop/internal/mux/stream.go:137-142 | honest peers can be brought to kill the session exactly if their initial windows differ |
| `MuxPolite.ReadsArePrefix` | desktop/internal/mux/stream.go:41-134 | bytes read are a prefix of bytes given to `Write` |
| `MuxPolite.ExactEof` | desktop/internal/mux/stream.go:51-54 | end of file is reported only after FIN was sent and every byte written has been read |
| `MuxLateWrite.EofExactlyIfPolite` | desktop/internal/mux/stream.go:76-134 | end of file can be reported before everything written was read exactly if callers may write after or during `Close` |
| `MuxClean.CleanRunNeverResets` | desktop/internal/mux/session.go:190-279 | a clean run sends no RST and resets nothing, keeps targets, and retires a stream only after both FINs |
| `MuxProgress.InternalStepFalls` | desktop/internal/mux/stream.go:41-167 | every step that is not a new request lowers the weight of the network |
| `MuxProgress.InternalRunsEnd` | desktop/internal/mux/session.go:200-275 | from any reachable state no schedule of internal steps is longer than the weight |
| `MuxProgress.RestMeansDelivered` | desktop/internal/mux/stream.go:76-160 | a clean network without a possible step has delivered everything and nobody waits for window; where the caller has closed, the other end is at end of file, and a stream closed at both ends is in neither table |
| `MuxProgress.FiniteDelivery` | desktop/internal/mux/stream.go:41-160 | after any clean run, finitely many internal steps in any order deliver every byte written and every end of file, and retire every stream closed at both ends |
| `RingBuffer.ByteBufferQueue.constructor` | android/core/proto/src/main/kotlin/dev/toppa/proto/MuxSession.kt:28-33 | an empty ring of at least 16 bytes |
| `RingBuffer.Grown` | android/core/proto/src/main/kotlin/dev/toppa/proto/MuxSession.kt:60-67 | doubling ends at a capacity that is enough and not twice too large |
| `RingBuffer.ByteBufferQueue.Push` | android/core/proto/src/main/kotlin/dev/toppa/proto/MuxSession.kt:35-45 | appends, except that a push which exactly fills the ring leaves it reading as empty |
| `RingBuffer.ByteBufferQueue.Drain` | android/core/proto/src/main/kotlin/dev/toppa/proto/MuxSession.kt:47-58 | moves a prefix of the content to the caller's array and leaves the rest |
| `RingBuffer.ByteBufferQueue.EnsureCapacity` | android/core/proto/src/main/kotlin/dev/toppa/proto/MuxSession.kt:60-76 | grows by doubling and keeps the content |
| `RingBuffer.RingRefinesBytes` | android/core/proto/src/main/kotlin/dev/toppa/proto/MuxSession.kt:28-77 | over any history the ring agrees with a byte sequence exactly when no push fills it |
| `RingBuffer.DefaultRingLosesFirst4096` | android/core/proto/src/main/kotlin/dev/toppa/proto/MuxSession.kt:28-45 | 4096 bytes pushed into a fresh ring are lost |
| `KotlinStream.KtStream.Read` | android/core/proto/src/main/kotlin/dev/toppa/proto/MuxSession.kt:100-123 | the locked part of the Kotlin read gives the answer, the bytes and the new state of the Go read |
| `KotlinStream.KtStream.Reserve` | android/core/proto/src/main/kotlin/dev/toppa/proto/MuxSession.kt:127-143 | one turn of the Kotlin write loop under the lock is the Go turn |
| `KotlinStream.KtStream.PushData` | android/core/proto/src/main/kotlin/dev/toppa/proto/MuxSession.kt:165-175 | DATA is refused exactly when Go refuses it, and appended unless it fills the ring, which then loses everything, and wakes the callers it concerns |
| `KotlinStream.KtStream.MarkClosed` | android/core/proto/src/main/kotlin/dev/toppa/proto/MuxSession.kt:149-163 | the half-close of the Kotlin stream is that of the Go stream, and wakes the callers it concerns |
| `KotlinStream.KtStream.RemoteClosed` | android/core/proto/src/main/kotlin/dev/toppa/proto/MuxSession.kt:177-187 | an inbound FIN does to the Kotlin stream what it does to the Go stream, and wakes the callers it concerns |
| `RecordLayer.RecordRoundTrip` | desktop/internal/tunnel/secure.go:43-93 | a record is read back exactly when its plaintext is within the cap and 2^24 - 17 |
| `RecordLayer.RecordLayout` | desktop/internal/tunnel/secure.go:43-93 | the bytes of a record, and exactly which inputs open, wait for more or have a bad size |
| `RecordLayer.Chunks` | desktop/internal/tunnel/secure.go:38-42 | the chunks make up the data; below 4 GiB each is nonempty and within the cap |
| `RecordLayer.RecordLockstep` | desktop/internal/tunnel/secure.go:36-94 | over any mixture of writes and reads no read fails, bytes read are a prefix of bytes written, and the k-th record uses counter k at both ends |
| `RecordLayer.ReceiveKeepsStep` | desktop/internal/tunnel/secure.go:64-94 | a read keeps the lockstep and makes progress when there is anything to read |
| `RecordLayer.AdmittedCapFails` | desktop/internal/tunnel/handshake.go:101-103 | with the largest cap admitted, the longest records make the reader fail |
| `RecordLayer.SecureConn.Write` | desktop/internal/tunnel/secure.go:36-61 | sends one record per chunk with consecutive counters |
| `RecordLayer.SecureConn.Read` | desktop/internal/tunnel/secure.go:64-94 | drains what is left or opens the next record; errors leave counter and leftover alone |
| `RecordLayer.SecureChannel.Write` | android/core/proto/src/main/kotlin/dev/toppa/proto/crypto/SecureChannel.kt:32-52 | the same records as the Go side with the same counters |
| `RecordLayer.SecureChannel.Read` | android/core/proto/src/main/kotlin/dev/toppa/proto/crypto/SecureChannel.kt:59-89 | the same reading as the Go side, with the counter advanced only on success |
| `RecordLayer.Nonce12` | android/core/proto/src/main/kotlin/dev/toppa/proto/crypto/Primitives.kt:69-75 | four zero bytes and the counter's 64 bits, low byte first |
| `RecordLayer.NonceHoldsCounter` | android/core/proto/src/main/kotlin/dev/toppa/proto/crypto/Primitives.kt:68-75 | four zero bytes, then the counter with its low byte first |
| `RecordLayer.NonceIsInjective` | android/core/proto/src/main/kotlin/dev/toppa/proto/crypto/Primitives.kt:68-75 | no two counters below 2^64 share a nonce |
| `WireStack.FrameWrites` | desktop/internal/mux/frame.go:74-81 | header and payload writes together are the encoding |
| `WireStack.FramesThroughRecords` | desktop/internal/tunnel/secure.go:36-94 | frames written through records and read with any buffer sizes come back; any moment shows a prefix of the frames |
| `WireStack.ReadFull` | desktop/internal/mux/frame.go:106-110 | exactly n bytes of plaintext however the records are cut; none exactly if fewer have arrived whole |
| `WireStack.ReadFrame` | desktop/internal/mux/frame.go:106-133 | what it returns is what the plaintext decodes to: a frame, with the rest left, a violation, or not yet a whole frame |
| `WireStack.WriteFrame` | desktop/internal/mux/frame.go:62-82 | a frame accepted goes out as the records of its header and payload; one refused sends nothing |
| `NoiseXX.DecryptFollows` | android/core/proto/src/main/kotlin/dev/toppa/proto/crypto/NoiseHandshake.kt:159-185 | the receiver undoes an encryption and ends in the sender's symmetric state |
| `NoiseXX.FirstMessage` | android/core/proto/src/main/kotlin/dev/toppa/proto/crypto/NoiseHandshake.kt:58-64 | after message 1 both ends agree and the responder has the ephemeral key |
| `NoiseXX.SecondMessage` | android/core/proto/src/main/kotlin/dev/toppa/proto/crypto/NoiseHandshake.kt:74-106 | after message 2 both ends hold the same chaining key, hash and cipher key |
| `NoiseXX.ThirdMessage` | android/core/proto/src/main/kotlin/dev/toppa/proto/crypto/NoiseHandshake.kt:65-123 | message 3 works exactly when both ends derive the same keys from their third secret |
| `NoiseXX.RepairedAgrees` | android/core/proto/src/main/kotlin/dev/toppa/proto/crypto/NoiseHandshake.kt:116-138 | with DH(e, rs) and completion on reading, the whole handshake agrees: hash, keys, statics |
| `NoiseXX.AsWrittenAgreesExactly` | android/core/proto/src/main/kotlin/dev/toppa/proto/crypto/NoiseHandshake.kt:116-128 | as written, message 3 works exactly when two unrelated secrets coincide, and the responder has no transport keys even then |
| `NoiseXX.AsWrittenFailsSomewhere` | android/core/proto/src/main/kotlin/dev/toppa/proto/crypto/NoiseHandshake.kt:121-122 | a lawful suite and keys for which it does not work |
| `NoiseXX.ResponderNeverCompletes` | android/core/proto/src/main/kotlin/dev/toppa/proto/crypto/NoiseHandshake.kt:87-138 | whatever is called, a responder never completes and `split` refuses |
| `NoiseTranscript.MessagesAreTheChain` | android/core/proto/src/main/kotlin/dev/toppa/proto/crypto/NoiseHandshake.kt:52-92 | the three messages, the final hash and the two keys as one explicit chain over name, public keys, secrets and ciphertexts |
| `NoiseTranscript.HandshakeIsTheChain` | android/core/proto/src/main/kotlin/dev/toppa/proto/crypto/NoiseHandshake.kt:52-185 | both ends of the repaired handshake finish with the hash and the keys of that chain, in that order |
| `NoiseObject.NoiseHandshake.EncryptAndHash` | android/core/proto/src/main/kotlin/dev/toppa/proto/crypto/NoiseHandshake.kt:159-170 | the in-place symmetric state after an encryption |
| `NoiseObject.NoiseHandshake.DecryptAndHash` | android/core/proto/src/main/kotlin/dev/toppa/proto/crypto/NoiseHandshake.kt:172-185 | the in-place symmetric state after a decryption, and when it fails |
| `NoiseObject.NoiseHandshake.Write` | android/core/proto/src/main/kotlin/dev/toppa/proto/crypto/NoiseHandshake.kt:52-92 | the object writes the messages of the model; a failed call moves neither step nor completion |
| `NoiseObject.NoiseHandshake.ReadMessage` | android/core/proto/src/main/kotlin/dev/toppa/proto/crypto/NoiseHandshake.kt:94-129 | the object reads the messages of the model; reading never completes the handshake |
| `X25519.DoubleAdd` | android/core/proto/src/main/kotlin/dev/toppa/proto/crypto/Primitives.kt:124-138 | one turn gives the double and the differential sum on the curve with constant 486662, modulo P, with all four coordinates in [0, P) |
| `X25519.PrimeIsRight` | android/core/proto/src/main/kotlin/dev/toppa/proto/crypto/Primitives.kt:91 | P is 2^255 - 19 |
| `X25519.AffineIsQuotient` | android/core/proto/src/main/kotlin/dev/toppa/proto/crypto/Primitives.kt:143-145 | the affine coordinate is x/z modulo P whenever Fermat's theorem holds for z |
| `X25519.ClampedKeeps` | android/core/proto/src/main/kotlin/dev/toppa/proto/crypto/Primitives.kt:148-154 | which bits of a scalar are set, cleared and kept |
| `X25519.DecodeUMasks` | android/core/proto/src/main/kotlin/dev/toppa/proto/crypto/Primitives.kt:156-160 | a coordinate is its 32 bytes without the top bit |
| `X25519.DeferredLadder` | android/core/proto/src/main/kotlin/dev/toppa/proto/crypto/Primitives.kt:111-143 | the loop with deferred swaps computes the textbook ladder and keeps coordinates reduced |
| `X25519.LadderMultiplies` | android/core/proto/src/main/kotlin/dev/toppa/proto/crypto/Primitives.kt:117-139 | under the addition law the pair stands for m and m + 1, with m the leading bits |
| `X25519.LadderIsScalarMultiple` | android/core/proto/src/main/kotlin/dev/toppa/proto/crypto/Primitives.kt:106-143 | under the addition law the result stands for the scalar multiple |
| `X25519.ScalarShape` | android/core/proto/src/main/kotlin/dev/toppa/proto/crypto/Primitives.kt:148-154 | every decoded scalar is a multiple of 8 with exactly 255 bits |
| `X25519.To32LE` | android/core/proto/src/main/kotlin/dev/toppa/proto/crypto/Primitives.kt:162-173 | 32 bytes, low byte first, that decode to the value modulo P |
| `X25519.LeRoundTrip` | android/core/proto/src/main/kotlin/dev/toppa/proto/crypto/Primitives.kt:156-173 | encoding and decoding little-endian numbers are inverse |
| `X25519.Dh` | android/core/proto/src/main/kotlin/dev/toppa/proto/crypto/Primitives.kt:106-146 | the output is the 32 bytes of the affine coordinate of the ladder's result on the clamped scalar |
| `X25519.DhIsScalarMultiple` | android/core/proto/src/main/kotlin/dev/toppa/proto/crypto/Primitives.kt:106-146 | under the addition law the output bytes are the coordinate x/z of the scalar multiple of the peer's point, the scalar a multiple of 8 with 255 bits |
| `Journal.RollbackIsExact` | desktop/internal/failsafe/journal.go:114-130 | every outstanding undo runs once in reverse; only the first one to fail stays outstanding |
| `Journal.FailedStayExactly` | desktop/internal/failsafe/journal.go:114-130 | while marks can be persisted, every entry whose undo failed stays outstanding exactly if fewer than two undos failed |
| `Journal.SecondFailureIsForgotten` | desktop/internal/failsafe/journal.go:118-128 | two entries whose undos both fail: one stays outstanding, the other is marked rolled back |
| `Journal.RollbackRestoresStart` | desktop/internal/failsafe/journal.go:98-130 | if undos invert their mutations, a rollback brings the state before the first of them back and leaves nothing outstanding |
| `Journal.MarkTakesOut` | desktop/internal/failsafe/journal.go:86-110 | marking an outstanding entry takes exactly that one out |
| `RouteManager.JournalFile.Add` | desktop/internal/failsafe/journal.go:66-82 | the entry is in memory in any case, on disk if persisting worked |
| `RouteManager.JournalFile.MarkState` | desktop/internal/failsafe/journal.go:86-96 | the first entry with the id gets the state; an unknown id is an error |
| `RouteManager.JournalFile.OutstandingEntries` | desktop/internal/failsafe/journal.go:100-110 | the entries still mutating the system, in order |
| `RouteManager.JournalFile.RollbackAll` | desktop/internal/failsafe/journal.go:114-130 | the reverse loop does what the specification says, undo by undo |
| `RouteManager.CrashLeavesAtMostOne` | desktop/internal/sysroute/manager.go:157-217 | a crash leaves at most one mutation without a persisted undo, and none unless it falls between a mutation and its entry; then reconciling restores the start state |
| `RouteManager.UncoveredExactly` | desktop/internal/sysroute/manager.go:157-217 | while the journal can be persisted, a mutation lacks its entry exactly between the two |
| `RouteManager.CrashUncoversFirst` | desktop/internal/sysroute/manager.go:157-165 | a crash right after the first mutation leaves it in place: no entry is on disk, and reconciling changes nothing |
| `RouteManager.RequestsAreRight` | desktop/internal/sysroute/manager.go:157-217 | the requests of a desired state are that list, interface by interface |
| `RouteManager.OutstandingSnoc` | desktop/internal/failsafe/journal.go:100-110 | what is outstanding is what is not rolled back, in the order of the journal |
| `RouteManager.Manager.Apply` | desktop/internal/sysroute/manager.go:157-217 | the mutations of a desired state and their entries, one by one, until one fails; on success the history is exactly: address, IPv4 route, IPv6 route, tunnel DNS if there is any, and with the physical rewrite DNS once on each other interface, in order |
| `RouteManager.Manager.Rollback` | desktop/internal/sysroute/manager.go:220-233 | runs the rollback on the manager's own journal |
| `Checksum.FoldedSumIsOnesSum` | android/core/vpn/src/main/kotlin/dev/toppa/vpn/Checksums.kt:9-24 | summing wide and folding at the end is the ones-complement sum |
| `Checksum.InternetChecksum` | android/core/vpn/src/main/kotlin/dev/toppa/vpn/Checksums.kt:9-24 | the loops end with the complement of the ones-complement sum |
| `Checksum.SumsToOnes` | android/core/vpn/src/main/kotlin/dev/toppa/vpn/Checksums.kt:26-40 | when a range sums to all ones, in terms of the stored field and the checksum |
| `Checksum.StoredChecksumSums` | android/core/vpn/src/main/kotlin/dev/toppa/vpn/Checksums.kt:9-24 | storing the checksum makes the range sum to all ones |
| `Checksum.Verify` | android/core/vpn/src/main/kotlin/dev/toppa/vpn/Checksums.kt:31-40 | true exactly when the field holds the checksum of the range with the field zeroed |
| `PacketProcessor.ProcessInPlace` | android/core/vpn/src/main/kotlin/dev/toppa/vpn/PacketProcessor.kt:27-73 | the in-place rewrite is the specified one |
| `PacketProcessor.OnlyTtlAndChecksumChange` | android/core/vpn/src/main/kotlin/dev/toppa/vpn/PacketProcessor.kt:11-15 | only TTL and checksum bytes, or the hop limit, change; otherwise the packet is untouched |
| `PacketProcessor.OutcomeExact` | android/core/vpn/src/main/kotlin/dev/toppa/vpn/PacketProcessor.kt:27-73 | exactly which packets are dropped, which are unchanged, and what TTL or hop limit the others leave with |
| `PacketProcessor.RewrittenHeaderSums` | android/core/vpn/src/main/kotlin/dev/toppa/vpn/PacketProcessor.kt:47-56 | a rewritten header sums to all ones over what the checksum covers |
| `PacketProcessor.WholeHeaderSums` | android/core/vpn/src/main/kotlin/dev/toppa/vpn/PacketProcessor.kt:38-62 | for five or more header words wholly present, that is the whole header |
| `PacketProcessor.SecondRun` | android/core/vpn/src/main/kotlin/dev/toppa/vpn/PacketProcessor.kt:14-15 | a second run changes no byte, and reports so exactly when the policy value is a byte |
| `UdpDnsReply.Build` | android/core/vpn/src/main/kotlin/dev/toppa/vpn/UdpDnsReply.kt:13-54 | which requests are answered, and the reply field by field, with a header that sums to all ones |
| `UdpDnsReply.ReplyToReply` | android/core/vpn/src/main/kotlin/dev/toppa/vpn/UdpDnsReply.kt:13-54 | a reply can be answered, and that answer has the endpoints of the request |
| `Dns.BuildQueryLoop` | android/core/relay/src/main/kotlin/dev/toppa/relay/DnsWire.kt:18-39 | the query message, or a refusal exactly for an empty or too long label |
| `Dns.JoinSplit` | android/core/relay/src/main/kotlin/dev/toppa/relay/DnsWire.kt:18-39 | the labels of a name are without dots and joined by dots are the name |
| `Dns.QueryRefused` | android/core/relay/src/main/kotlin/dev/toppa/relay/DnsWire.kt:18-39 | a name is refused exactly if a label is empty or longer than 63 characters |
| `Dns.QueryLayout` | android/core/relay/src/main/kotlin/dev/toppa/relay/DnsWire.kt:18-39 | the fixed bytes of a query around its name |
| `Dns.QueryNameLoop` | android/core/relay/src/main/kotlin/dev/toppa/relay/DnsShield.kt:23-50 | the labels of the first question joined by dots, or nothing |
| `DnsAnswers.QueryNameExact` | android/core/relay/src/main/kotlin/dev/toppa/relay/DnsShield.kt:23-50 | a query has a name exactly when a plain name with labels up to 63 bytes stands behind its header, and then it is that name |
| `Dns.QueryNameRoundTrip` | android/core/relay/src/main/kotlin/dev/toppa/relay/DnsShield.kt:23-50 | the name of a built query is read back exactly when it is ASCII |
| `DnsResponse.QuestionEndLoop` | android/core/relay/src/main/kotlin/dev/toppa/relay/DnsShield.kt:99-109 | the end of the question section, or -1 |
| `DnsResponse.BuildResponseLoop` | android/core/relay/src/main/kotlin/dev/toppa/relay/DnsShield.kt:57-96 | header, echoed question and one record per IPv4 address |
| `DnsAnswers.ShieldResponse` | android/core/relay/src/main/kotlin/dev/toppa/relay/DnsShield.kt:57-96 | the response byte by byte: id, flags, counts, the question as it came, one address record for each IPv4 address; none exactly if type and class are cut off |
| `DnsAnswers.ShieldResponseToHeader` | android/core/relay/src/main/kotlin/dev/toppa/relay/DnsShield.kt:57-96 | a message that ends with its header is answered with a question for the root |
| `DnsResponse.SkipNameLoop` | android/core/relay/src/main/kotlin/dev/toppa/relay/DnsWire.kt:81-103 | the position after a name, ended by a root or a pointer |
| `DnsResponse.ParseResponseLoop` | android/core/relay/src/main/kotlin/dev/toppa/relay/DnsWire.kt:42-78 | the addresses of the answers up to the first cut, or the error |
| `DnsAnswers.ResponseRead` | android/core/relay/src/main/kotlin/dev/toppa/relay/DnsWire.kt:42-78 | of a response with one question and any records, exactly the data of type 1 with 4 bytes and type 28 with 16 bytes is taken, in order |
| `DnsAnswers.CutResponseRead` | android/core/relay/src/main/kotlin/dev/toppa/relay/DnsWire.kt:42-103 | a response cut off inside a record gives the addresses before it, unless the cut is inside the record's name, which makes parsing fail |
| `DnsResponse.ResponseRoundTrip` | android/core/relay/src/main/kotlin/dev/toppa/relay/DnsWire.kt:42-78 | the response to a built query gives its IPv4 addresses back in order, all of them exactly if at most 65535 |
| `HeadRewriter.SanitizeRequestHead` | desktop/internal/relay/dialer.go:153-183 | the rewritten head, and whether a line matched |
| `HeadRewriter.SanitizedLines` | desktop/internal/relay/dialer.go:153-183 | line by line, with the literal methods and prefixes: every user-agent line is the configured one, with stripping no forwarding line is left, all others are there in order |
| `HeadRewriter.RewriteIsLinewise` | desktop/internal/relay/dialer.go:166-181 | each line is kept, replaced or dropped in its place, whatever stands around it |
| `HeadRewriter.UnmatchedHeadGrows` | desktop/internal/relay/dialer.go:164-182 | a head without a matching line comes out as it was exactly if it is not HTTP, and otherwise with one line end more |
| `HeadRewriter.EndedLines` | desktop/internal/relay/dialer.go:166-182 | splitting at line ends and ending every piece adds exactly one line end |
| `HeadRewriter.SanitizedConn.Write` | desktop/internal/relay/dialer.go:207-236 | one write: hold, give up, or rewrite and pass on |
| `HeadRewriter.BlankIsFirst` | desktop/internal/relay/dialer.go:207-217 | the head ends at the first place where two line ends stand side by side |
| `HeadRewriter.NothingEarly` | desktop/internal/relay/dialer.go:207-217 | nothing is sent on before the blank line while the data is short |
| `HeadRewriter.ChunkingIndependence` | desktop/internal/relay/dialer.go:205-236 | every way of cutting the data gives the same output exactly when there is no blank line, the head ends within 16384 bytes, or rewriting would not change it |

## Left out

- The gVisor netstack, adapters, transports, HTTP and DoH clients, Android services and the user interface: foreign calls and I/O.
- Keepalive timing, handshake deadlines, backoff, random padding and the random source: clocks and randomness; keys and ids are parameters.
- `MuxObjects.Wire.WriteFrame`: an error of the transport after the test of `closed` is not modelled.
- `RecordLayer.SecureConn.Write`: errors of cipher and transport, and the partial totals returned with them, are not modelled.
- `MuxOrphan.NoOrphanedInbound`: says nothing about inbound streams still in the table; `MuxStranded.StrandedExactly` does.
- Transport errors and back-pressure: channels are unbounded and reliable, and a frame once written arrives. A partial `Write` after a transport failure is not modelled.
- The interleaving inside one delivered frame: a delivery is one step from the table lookup to the end of the stream's own section.
- `MuxObjects.Stream.Read`, `MuxObjects.Stream.Write`: a call that has to wait returns and says so, because waiting is a matter of the step system.
- `MuxObjects.Stream.Write`: 64-bit overflow of the send window is not modelled; credit conservation bounds the window by its initial value between honest peers.
- The order of frames after GOAWAY, and any claim that GOAWAY is the last frame.
- The Kotlin session: of the Kotlin multiplexer the stream, its ring buffer and the codecs are modelled, but not the stream table, the dispatch and the teardown.
- `RingBuffer.ByteBufferQueue.EnsureCapacity`: 32-bit overflow of the doubling is not modelled.
- Nonce exhaustion after 2^64 records in one direction.
- Cryptographic strength: SHA-256, HMAC, ChaCha20-Poly1305 and the curve's group law are parameters with laws.
- `NoiseObject.NoiseHandshake.ReadMessage`: the state after a failed call is described only as far as step and completion.
- `NoiseObject.NoiseHandshake.Write`: the state after a failed call is described only as far as step and completion.
- JSON encoding of the journal, file system effects of write-and-rename, and the descriptions, times and informational commands of entries; persisting either works or not.
- The command strings of `NetshConfigurer`; a configurer that fails is taken to have changed nothing.
- `Dns.QueryNameRoundTrip`: characters outside the basic multilingual plane, which a platform string holds as two units, are not modelled.
- Lower-casing of header lines is a parameter of `HeadRewriter`, so Unicode case mapping is not modelled; writes to the underlying connection succeed.
- Configuration validation, key store, short authentication string, pacing, counters and packet loop statistics: single-branch facts.
