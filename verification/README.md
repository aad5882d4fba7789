# GoXfer, modelled and proved

GoXfer sends files between two machines over an encrypted session. A receiver can restart from what it
has on its disk; a relay can stand between the two; a directory travels as an archive; and a separate
command uploads many files over SFTP. This project models these parts in Dafny and proves what they
keep in every run.

## The parts

**The transfer** (`Protocol`, `Storage`, `Machine`). Sender and receiver are step machines over two
FIFO channels and the receiver's disk. Each operation of the receiver on the disk or the connection is a
step of its own and carries its own outcome, so a run contains every interleaving, every failing read,
write, rename and save, and, because a list of events may stop anywhere, every kill. A history is a list
of attempts, each starting from the disk that the previous one left.

* `Safety`: whatever happens, and whatever the disk held before, a file that is reported saved has the
  bytes its sender hashed, an archive that is reported saved has been extracted whole, and a sender that reports success was acknowledged by a receiver that had
  assembled them. The invariant is that the temporary file is always equal to what the hasher has absorbed.
* `DiskInvariant`: over an unchanged source, every disk that any history can leave fits the
  source, at every crash point: the write precedes the save, and a resumed attempt truncates
  before it appends.
* `Flow`, `Convergence`: an uninterrupted attempt, on any disk, with any combination of the two `--resume`
  flags, is never stuck, refuses no message, ends within a bounded number of steps, and delivers the file or
  rejects it; in the second case the next one delivers it. An archive may arrive and not be extractable.
* `Resume`: exactly when a resumed attempt succeeds, and exactly when there is something to resume.
* `Faults`: exactly which failures and which messages make the receiver, or the sender, return an error.
* `Acceptance`, `Offering`: exactly which messages a receiver takes for a file, and what a sender says and when it
  is content, whoever is at the other end.
* `Delivery`: exactly when a file that the sender has reported sent is in place, or left to be resumed.
* `Receiver`, `Refinement`: the receiver's message loops as imperative code over a store and a
  connection. They compute what the machine computes, under every pattern of failures and for every
  interleaving with a sender.
* `Dialogue`, `Chunking`, `Upload`: the sender's code, with the receiver making steps in between.
  Whatever the two do is a run of the two machines, so the code's success means what the machine's does.

**The session and the frames** (`Frame`, `Session`, `Handshake`, `Traffic`). The length-prefixed frames
round-trip under any fragmentation, and a cut stream loses only its end. Sequences of messages come out
of the session as they went in, with the two nonces in lock-step; of a write that fails, or a stream that is cut,
the peer gets whole messages only. The two branches of the handshake agree on keys. `Traffic` closes the gap to the
transfer: every message of every run is one that the session carries. `EndToEnd` closes the gap to the relay.

**The relay** (`Relay`, `RelayRuns`, `Pairing`, `Codes`, `Stranding`, `RelayStreams`, `Forwarding`, `Refusals`,
`RelayServer`). Each handler is a
program counter, and an interleaving is a list of events with failing writes and timeouts. Bridges join a sender to
a receiver with its code, and what crosses a bridge is a prefix of what the peer has written, and all of it if nothing
fails (`Forwarding`). `Refusals` says who is told what, and `Codes` and `Stranding` exactly whom the relay fails.
`RelayServer` has the handler as sequential code among others.

**The SFTP pool** (`RetryPool`), **archives** (`Paths`, `Archive`, `Extraction`, `Packing`) and **size units** (`Sizes`).

## Where the code and its documentation disagree

* The repository's README.md (lines 11, 99 and 161) promises that an interrupted single-file transfer resumes.
  What an attempt has received is resumable only until `deleteResumeState` runs (internal/transfer/p2p.go:580), which is
  before the file is in place, or, on an error, until the deferred removal at internal/transfer/p2p.go:487. So a
  connection lost during a transfer leaves nothing, and a kill does too once the state file is gone. `Resume.ResumableExactly` gives
  the condition for every moment of an attempt, `Resume.LostConnectionStartsOver` a run for every file.
* A sender can report success for a file that never arrives: the acknowledgement is sent, then the state file is
  deleted, and only then the file is renamed (internal/transfer/p2p.go:572-595). As long as nothing but the connection,
  the rename and the copy fails, a file that was reported sent is in place or left to be resumed if and only if the
  receiver is not killed between the two, and the copy that follows a failed rename does not fall short; without
  `--resume` it is lost before the deletion, too (`Delivery.SuccessIsKept`). `Resume.SentButForgotten` has the run for
  every resumable transfer that an uninterrupted attempt would deliver.
* When a receiver is killed after a short last chunk, the state file counts a whole chunk, the truncation at
  internal/transfer/p2p.go:442 pads with zeros, and the resumed attempt is rejected. It succeeds if and
  only if the recorded chunks end inside the file (`Resume.ResumeSucceedsExactly`, `Resume.OneAttemptMayFail`).
  The attempt after that succeeds (`Convergence.TwoAttemptsSuffice`).
* A worker of the SFTP pool keeps the permits of its earlier attempts, because `defer` inside the loop at
  internal/transfer/sftp.go:145 runs only when the worker returns. The upload can hang if and only if
  `--parallel` is at most the number of files times `--retries`; with the defaults of cmd/main.go:37-38, two
  files are enough (`RetryPool.CompletesExactly`, `RetryPool.DefaultsCanHang`).
* internal/tunnel/relay_test.go:122-140 expects relay codes to be unique; nothing enforces it. Every sender that waits
  for a receiver can be reached by its code if and only if no sender registers or deletes a code whose entry belongs to
  another one that has not given up (`Codes.ReachableExactly`). Both do happen, with any code:
  `Codes.CollisionHidesSenders` and `Codes.LeaverHidesSender`. The pairing of `Pairing.PairingHolds` holds all the same.
* A receiver is acknowledged before it is handed over. If its sender gives up before it takes the receiver, that waits for
  ever, on an open connection (`Stranding.ServedUnlessStranded`; `Stranding.ReceiversAreStranded` has the run).
* `goxfer send .`, `send /` and `send ..` produce archives that the receiver always refuses, and so does a directory
  whose name begins with two dots, or a destination that is the root directory (`Archive.OddBasesAreRefused`,
  `Archive.TreeArrives`).
* The walk follows links when it reads and not when it describes (internal/transfer/p2p.go:307-321). A directory is sent
  if and only if each node in it is a directory that can be listed, a file with as many bytes as its header announces,
  or a link to a file, or a device, without any content, and none is refused by package tar, as sockets are
  (`Packing.PackedExactly`). So a link to a directory, or to a file with content, stops the transfer, and a source that
  is itself a link to a directory is never sent (`Packing.LinkedRootIsRefused`). The one exception is a last file with
  fewer bytes than announced: the error of `tw.Close` is ignored (internal/transfer/p2p.go:327), the sender reports success
  and the receiver fails (`Packing.MissingBytesGoUnnoticed`).

## Model

| member | source | states |
|---|---|---|
| `Machine.NextRead` | internal/transfer/p2p.go:376 | a read of the file returns between one byte and a chunk, the next ones |
| `Paths.BaseIdempotent` | internal/transfer/p2p.go:594 | the receiver's Base of the sender's Base is the sender's Base |
| `Paths.BaseIsLast` | internal/transfer/p2p.go:594 | Base of a path is what follows its last slash, those at its end aside |
| `Paths.CleanLeadsThere` | internal/transfer/p2p.go:639 | Clean does not change where a path leads, from any directory |
| `Paths.JoinLeadsThere` | internal/transfer/p2p.go:644 | Join leads to the second path from where the first leads |
| `Paths.CleanIsClean` | internal/transfer/p2p.go:639 | Clean of a clean path is that path |
| `Safety.SafeStep` | internal/transfer/p2p.go:184-271 | every step of either side keeps: temporary file = hashed bytes while a transfer is open, offset at its end, nothing acknowledged that was not compared |
| `Safety.SafeRun` | internal/transfer/p2p.go:417-609 | the same for every run, cut anywhere, with any failing operations |
| `Safety.SavedIsWhatWasHashed` | internal/transfer/p2p.go:567-602 | from any disk: a regular file that is reported saved has the bytes the sender hashed, of an archive that is reported saved every entry is in place, and what is about to be renamed or extracted has the hashed bytes |
| `Safety.HistoryIsSafe` | internal/transfer/p2p.go:417-609 | the same after any history of cut attempts, with any edits of the source between them |
| `Safety.SentMeansAssembled` | internal/transfer/p2p.go:261-270 | if the sender returns without an error, the receiver had assembled exactly the hashed bytes in that attempt |
| `Faults.FailsExactly` | internal/transfer/p2p.go:417-609 | in any run the receiver is on its way to an error if and only if an operation it cannot do without has failed, a message was not the one expected, the sender was gone in the middle, or an archive could not be extracted |
| `Faults.SenderFailsExactly` | internal/transfer/p2p.go:184-271 | in any run the sender fails if and only if an operation of its own has failed, the receiver was gone without the answer, or the checksum that came back was not its own |
| `Acceptance.FileAccepts` | internal/transfer/p2p.go:417-609 | for every disk and any messages from anyone, if its own operations work: the receiver saves the file if and only if the messages are the chunks from its index on, file_complete, and the checksum of all; and then it has read no more, answered as it should, and put exactly these bytes in place |
| `Offering.OffersExactly` | internal/transfer/p2p.go:184-271 | for every file and any answers from anyone, if its own operations work: the announcement, chunks of exactly the bytes from the offset it was told, file_complete and checksum; success if and only if that checksum comes back |
| `DiskInvariant.TruncationCovers` | internal/transfer/p2p.go:439-450 | truncating to the recorded offset leaves the front of the source, or all of it and padding |
| `Storage.ResizePads` | internal/transfer/p2p.go:442 | truncating keeps the bytes there are and adds zeros |
| `DiskInvariant.ChunkExtends` | internal/transfer/p2p.go:540-551 | an accepted chunk extends a prefix of the source; padding is never written behind |
| `DiskInvariant.TrackedStep` | internal/transfer/p2p.go:432-551 | every step of either side keeps the fit between state files, temporary files, chunks in flight and source |
| `DiskInvariant.EveryCrashLeavesAGoodDisk` | internal/transfer/p2p.go:439-551 | after any history over unchanged sources, cut at any step: each readable state file has an index of at most the number of chunks, and its temporary file, if there, starts with that much of the source |
| `Flow.LoopHead` | internal/transfer/p2p.go:530-538 | in an uninterrupted attempt the next message of the loop is the chunk waited for, or file_complete |
| `Flow.ClosingIsComplete` | internal/transfer/p2p.go:553-565 | after file_complete only the sender's checksum can follow, and the receiver has all it will ever have |
| `Convergence.NothingIsUnexpected` | internal/transfer/p2p.go:523-607 | in an uninterrupted attempt the branches for a wrong file_id, an out-of-order chunk and an unexpected type are unreachable, and the sender gets the one reply that fits the disk |
| `Convergence.NeverStuck` | internal/transfer/p2p.go:200-270 | sender and receiver never both wait on empty channels |
| `Convergence.StepWorks` | internal/transfer/p2p.go:523-607 | every possible step decreases a measure |
| `Convergence.Progress` | internal/transfer/p2p.go:184-609 | an uninterrupted attempt can always go on, takes at most 50 + 10 * size steps, and can always be completed, for all resume flags and names, on any disk |
| `Convergence.Outcome` | internal/transfer/p2p.go:432-602 | an uninterrupted attempt delivers exactly if what the receiver kept, followed by the source from the resumed offset on, is what the sender hashed, and an archive can be extracted; otherwise both sides fail, or, for the archive, the receiver alone |
| `Convergence.RejectedIsNotLive` | internal/transfer/p2p.go:486-487 | after a rejected attempt the same file starts from zero |
| `Convergence.TwoAttemptsSuffice` | internal/transfer/p2p.go:432-602 | from any disk (no, torn, foreign or padded state), of two uninterrupted attempts over an unchanged source one delivers, unless the file is an archive that cannot be extracted |
| `Resume.ResumeSucceedsExactly` | internal/transfer/p2p.go:439-460 | on any disk a history can leave, an uninterrupted resumed attempt delivers if and only if index * 32768 <= size |
| `Resume.ResumableExactly` | internal/transfer/p2p.go:432-595 | if only the connection fails, then at every moment: a kill leaves something to resume if and only if a temporary file is open and deleteResumeState has not run, or an earlier attempt left something that is not yet opened; and at which index |
| `Resume.SentButForgotten` | internal/transfer/p2p.go:572-595 | for every resumable transfer that an uninterrupted attempt delivers, a run without faults in which the sender has returned and a kill of the receiver leaves neither the file nor anything to resume |
| `Delivery.SuccessIsKept` | internal/transfer/p2p.go:572-599 | once the sender has returned without an error, with any faults of the connection, the rename and the copy: a kill leaves the file in place or resumable if and only if it does not fall between deleteResumeState and the rename, no failed rename was followed by a copy that fell short, and, before deleteResumeState, --resume is on |
| `Resume.LostConnectionStartsOver` | internal/transfer/p2p.go:486-528 | for every resumable transfer a run in which the receiver has all it will get: killed it would resume there, but the lost connection leaves nothing |
| `Resume.OneAttemptMayFail` | internal/transfer/p2p.go:439-460 | for every source with a short last chunk, a kill after it leaves a disk from which every complete uninterrupted attempt is rejected |
| `Receiver.Store.Load` | internal/transfer/p2p.go:706-716 | an absent or torn state file is no state |
| `Receiver.Store.Save` | internal/transfer/p2p.go:718-721 | a save replaces the state file, leaves it or tears it |
| `Receiver.Store.Truncate` | internal/transfer/p2p.go:442 | the new disk; negative sizes fail |
| `Receiver.Store.Place` | internal/transfer/p2p.go:595-598 | rename, else copy, else an error and either no new destination or a partial one |
| `Receiver.Store.Unpack` | internal/transfer/p2p.go:587-591 | the extraction of the temporary file, as far as it gets; it succeeds exactly if no write fails and every entry is accepted and complete |
| `Receiver.Restore` | internal/transfer/p2p.go:439-460 | truncate, seek and rehash are the machine's steps, and on success file, hash and index agree |
| `Receiver.Reopen` | internal/transfer/p2p.go:420-462 | loading, opening and restoring are the machine's steps |
| `Receiver.Begin` | internal/transfer/p2p.go:464-484 | a fresh start is the machine's |
| `Receiver.Reply` | internal/transfer/p2p.go:489-508 | file_resume or ready, only if the sender asked |
| `Receiver.TakeChunk` | internal/transfer/p2p.go:540-551 | write, hash and record are the machine's steps; temporary file and hash grow by the chunk |
| `Receiver.Conclude` | internal/transfer/p2p.go:559-578 | the comparison and the acknowledgement are the machine's steps |
| `Receiver.Install` | internal/transfer/p2p.go:587-602 | rename, copy or extract as the machine does, with its outcome |
| `Receiver.ReceiveOneFile` | internal/transfer/p2p.go:417-609 | for every pattern of failures the code ends with the disk, the unread messages, the replies and the result of the machine |
| `Receiver.ReceiveFiles` | internal/transfer/p2p.go:400-415 | the same for the whole session |
| `Receiver.FileThenRest` | internal/transfer/p2p.go:400-415 | the session's run is the file's run and then the rest |
| `Refinement.RunIsTicks` | internal/transfer/p2p.go:400-609 | the receiver's part of an interleaved run does not depend on the interleaving, only on the messages and the failures |
| `Refinement.CodeFollowsTheProtocol` | internal/transfer/p2p.go:400-609 | for every attempt in which the receiver returns, its code, given the attempt's messages, ends with the attempt's disk and result |
| `Chunking.Source.Read` | internal/transfer/p2p.go:376 | one read of any size the reader chooses, possibly empty, possibly with the end; what is left is the rest |
| `Chunking.SendChunks` | internal/transfer/p2p.go:372-398 | for any reader that keeps the contract, with the receiver at work: non-empty chunks of at most 32768 bytes with consecutive indices, together a prefix of the content, and all of it on success; the sender's machine makes the same steps |
| `Chunking.FullReadsAreAligned` | internal/transfer/p2p.go:219-221 | with full reads chunk k is bytes k * 32768 up to the next boundary or the end |
| `Dialogue.ActedIsRun` | internal/transfer/p2p.go:400-609 | what the receiver does between two operations of the sender is a run of the pair |
| `Dialogue.Dialogue.SendMessage` | internal/transfer/p2p.go:207-215 | after any steps of the receiver the message is appended and the sender's machine has made its step, or the sender has failed and no message has come through (`Session.PartIsSilent`) |
| `Dialogue.Dialogue.ReceiveMessage` | internal/transfer/p2p.go:261-264 | waits until the receiver has answered, takes its first unread answer, and the sender's machine makes that step; or fails |
| `Upload.Open` | internal/transfer/p2p.go:200-223 | the announcement and the answer are the machine's steps; the index is the offset in chunks |
| `Upload.Close` | internal/transfer/p2p.go:246-270 | file_complete, file_checksum and the comparison of the answer are the machine's steps |
| `Upload.SendSingleFile` | internal/transfer/p2p.go:184-271 | whatever reader, connection and receiver do, the run is a run of the two machines with the code's result; if the code succeeds, the receiver had assembled exactly the hashed bytes |
| `Upload.SendDirectory` | internal/transfer/p2p.go:275-370 | the same for a streamed archive, hashed while it is read |
| `Traffic.EveryMessageIsSendable` | internal/protocol/message.go:54-82 | in every run each message on either channel is valid, has a chunk that fits a frame, and no checksum but the sender's |
| `Traffic.ChannelsAreExact` | internal/session/session.go:107-173 | in every run the messages in flight are all sent if and only if their headers fit a frame, and then come out as they are, with nothing left over |
| `Frame.LengthRoundTrips` | internal/protocol/frame.go:17-28 | a 32-bit length comes back from its big-endian bytes |
| `Frame.FrameRoundTrips` | internal/protocol/frame.go:11-39 | a frame followed by anything decodes to its payload and leaves exactly the rest |
| `Frame.DecodesExactly` | internal/protocol/frame.go:22-39 | a stream decodes to a payload and a rest if and only if it is the frame of that payload followed by that rest; it is refused as too long exactly by its length field |
| `Frame.StreamRoundTrips` | internal/protocol/frame.go:11-39 | any list of payloads of at most 65536 bytes decodes to itself |
| `Frame.CutFrameIsShort` | internal/protocol/frame.go:24-36 | a cut frame is an error, never a payload |
| `Frame.TruncationLosesOnlyTheEnd` | internal/protocol/frame.go:22-39 | a stream cut anywhere decodes to a prefix and then an error; to everything exactly if nothing was cut |
| `Frame.EncodeFrame` | internal/protocol/frame.go:11-20 | the frame, or an error exactly if the payload is too large |
| `Frame.Reader.ReadFull` | internal/protocol/frame.go:24 | for reads of any sizes: fills the buffer with the next bytes and takes no more, or fails because there are too few |
| `Frame.Reader.DecodeFrame` | internal/protocol/frame.go:22-39 | for reads of any sizes: the first frame of the stream and exactly the rest, or an error exactly if there is none |
| `Session.FieldsRoundTrip` | internal/protocol/message.go:20-30 | zero values that the encoding omits come back, all but the chunk; a checksum is 64 characters that are not taken for those of other bytes |
| `Session.MessageRoundTrips` | internal/protocol/message.go:32-52 | a valid message is encoded, and decodes to itself without its chunk |
| `Session.DecodesExactly` | internal/protocol/message.go:43-82 | a payload is taken if and only if it is a JSON object of a known type with all the fields that type requires, non-empty, and no number below its least value |
| `Session.ReceivesOnlyAuthentic` | internal/session/session.go:146-173 | whatever the stream: a received message is valid, and its one or two frames come first in the stream and are opened by the key with the next nonces |
| `Session.OneMessage` | internal/session/session.go:107-173 | the peer gets the message, reads not one byte more, and its nonce is the sender's |
| `Session.SendsExactly` | internal/session/session.go:111-141 | a message is sent exactly if it is valid, its header fits a frame and its writes work; a chunk and its tag always fit |
| `Session.PartIsSilent` | internal/session/session.go:119-141 | a message of which SendMessage, failing, has written a part, or of which a part has come through, is not received |
| `Session.SessionRoundTrips` | internal/session/session.go:107-173 | the messages accepted before the first failure are those the peer receives; if none fails, nothing is left over, and both nonces advance by two for a file_chunk and one otherwise |
| `Session.CutSessionIsPrefix` | internal/session/session.go:107-173 | of a stream that is cut anywhere the peer receives a prefix of the messages |
| `EndToEnd.BridgesCarryMessages` | internal/tunnel/relay.go:82-117 | in every interleaving, over either direction of every bridge, the ReceiveMessage calls of one end return a prefix of the messages that the SendMessage calls of the other have accepted |
| `Session.CipherState.Decrypt` | internal/session/session.go:151-154 | the nonce moves only for an authentic frame |
| `Session.SecureSession.SendMessage` | internal/session/session.go:107-144 | the code writes what the specification writes and leaves its nonce, also when a write fails after a part of a frame |
| `Session.SecureSession.ReceiveMessage` | internal/session/session.go:146-173 | the code returns what the specification returns, leaves its nonce and, on success, the rest of its stream, for reads of any sizes |
| `Handshake.StaysInStep` | internal/session/session.go:179-221 | in every interleaving one transcript is the other one, or that and one frame in flight |
| `Handshake.HandshakeAgrees` | internal/session/session.go:81-105 | never both blocked, and nothing refused; when finished, three frames, none left over, and the initiator sends with the first key of the split and the responder with the second, each received with the same |
| `Handshake.StepsProcessFrames` | internal/session/session.go:223-248 | each step processes one frame |
| `Handshake.BranchesAgree` | internal/session/session.go:186-214 | the two branches, fed with each other's frames, play the same transcript of three |
| `Handshake.NewSession` | internal/session/session.go:81-105 | the code plays its part of the transcript, writes exactly its own frames of it and returns the keys of its role, or fails exactly if a frame is missing or refused, or a write fails |
| `Pairing.PairedStep` | internal/tunnel/relay.go:57-123 | every step of every handler keeps the pairing of senders and receivers |
| `Pairing.PairingHolds` | internal/tunnel/relay.go:65-117 | in every interleaving, with any codes: handing over never blocks, a sender is claimed once, every bridge joins a sender and a receiver with its code, no connection is in two bridges |
| `Codes.GuardIsExact` | internal/tunnel/relay.go:69-104 | a step keeps every waiting sender reachable if and only if it neither registers nor deletes a code whose entry belongs to another sender that has not given up; and the same with senders counted that are giving up |
| `Codes.ReachableExactly` | internal/tunnel/relay.go:65-104 | in a run, every unclaimed sender that waits for a receiver is reachable by its code at every moment if and only if all its steps are so guarded |
| `Codes.MapIsExact` | internal/tunnel/relay.go:69-104 | if the entries of senders that are giving up are respected too, the map holds exactly the codes of registered, unclaimed senders that have not finished giving up |
| `Codes.DistinctIsEnough` | internal/tunnel/relay.go:66-71 | distinct codes of the senders that use the map are enough |
| `Codes.CollisionHidesSenders` | internal/tunnel/relay.go:66-96 | for every sender line and every code, two senders that draw it: the first is unreachable, and its leaving makes the second unreachable |
| `Codes.LeaverHidesSender` | internal/tunnel/relay.go:91-104 | a claimed sender that gives up makes a later one with the same code unreachable |
| `Stranding.StrandedForever` | internal/tunnel/relay.go:91-117 | a receiver whose sender has given up is never bridged, closed or written to again |
| `Stranding.ServedUnlessStranded` | internal/tunnel/relay.go:82-117 | in every reachable state an acknowledged receiver has or can still get its bridge, or the end of its connection, if and only if its sender has not given up |
| `Stranding.ReceiversAreStranded` | internal/tunnel/relay.go:82-117 | with any handshake lines and any code: a run in which the receiver is acknowledged and handed to a sender that has given up |
| `RelayStreams.RelayRead` | internal/tunnel/relay.go:199-213 | the line before the first newline, with everything behind it left unread; an error exactly if there is none |
| `RelayStreams.StreamsRun` | internal/tunnel/relay.go:57-123 | every interleaving keeps: each peer has been sent its ack lines and then exactly a contiguous stretch of the other's bytes from its handshake line on, so nothing follows what a failing write has lost |
| `RelayStreams.NoiseStreamsAreClean` | internal/tunnel/relay.go:127-188 | after its ack lines each end of a bridge reads a prefix of what the other wrote after its own handshake line |
| `Forwarding.BridgesForwardAll` | internal/tunnel/bore.go:195-208 | in every reachable state, for every bridge between open connections and either direction in which no write has failed, a run of its reads and writes alone gives the other end all that this end has written |
| `Refusals.OkIsForReceivers` | internal/tunnel/relay.go:112-117 | in every reachable state a connection has been told OK first exactly if it is a receiver that has claimed a sender and been acknowledged |
| `Refusals.PeerIsForSenders` | internal/tunnel/relay.go:83-90 | a connection has been told a code and then OK exactly if it is a sender that is or was bridged |
| `Refusals.UnknownCodesAreRefused` | internal/tunnel/relay.go:106-110 | a receiver whose code is not in the map at its lookup hears nothing but that, whole or in part, and is closed, whatever follows |
| `Refusals.OtherRolesAreRefused` | internal/tunnel/relay.go:119-122 | the same for a client with another role |
| `Refusals.MalformedHearNothing` | internal/tunnel/relay.go:58-62 | a client whose line breaks off or does not parse hears nothing and is closed |
| `RelayServer.OthersKeep` | internal/tunnel/relay.go:57-123 | nothing that other handlers, clients and bridges do changes the stage, the output or the position of a handler at work |
| `RelayServer.Server.HandleRelayConn` | internal/tunnel/relay.go:57-123 | the handler from its first byte to its last, among others that do anything between its operations: the whole is an interleaving of the relay, and on every exit its connection is closed or handed over, its entry is gone, and it has taken one receiver at most |
| `RelayServer.Server.Withdraw` | internal/tunnel/relay.go:91-95 | the code is deleted, whoever is registered under it |
| `RelayServer.Server.ClaimSender` | internal/tunnel/relay.go:99-104 | the sender is the one the code leads to, and the code is gone, in one critical section |
| `RelayServer.Server.Pipe` | internal/tunnel/bore.go:195-208 | the bridge ends with both connections closed |
| `RelayServer.Server.HandOver` | internal/tunnel/relay.go:117 | the channel is empty: the connection is put into it without blocking |
| `RetryPool.ConservedRun` | internal/transfer/sftp.go:135-208 | in every run free and held permits make up the semaphore |
| `RetryPool.PermitsBoundTransfers` | internal/transfer/sftp.go:103-145 | at most as many transfers at once as there are permits |
| `RetryPool.HaltedIsStarved` | internal/transfer/sftp.go:135-145 | if every worker is blocked, permits <= files * retries |
| `RetryPool.Starve` | internal/transfer/sftp.go:135-207 | otherwise a schedule that blocks every worker |
| `RetryPool.CompletesExactly` | internal/transfer/sftp.go:103-218 | no run stops before wg.Wait returns if and only if permits > files * retries |
| `RetryPool.DefaultsCanHang` | cmd/main.go:37-38 | five permits and three retries: two files can hang, one cannot |
| `RetryPool.RunsAreBounded` | internal/transfer/sftp.go:135-207 | every run is finite |
| `RetryPool.RetriesOnlyMismatches` | internal/transfer/sftp.go:135-207 | in every run a worker starts at most one transfer more than it has had failed comparisons, and at most --retries + 1 |
| `RetryPool.SuccessIsFinal` | internal/transfer/sftp.go:195-199 | a transfer without a failed comparison is its worker's last: all its permits are free again, and it starts no other |
| `RetryPool.SuccessNeverHangs` | internal/transfer/sftp.go:135-218 | if no comparison fails, one permit is enough for every run to complete |
| `RetryPool.RetryAlone` | internal/transfer/sftp.go:135-207 | the loop of a worker with the semaphore to itself is a run of the pool; it gets stuck exactly if its permits run out before an attempt ends it, and otherwise frees them all |
| `Archive.AcceptedExactly` | internal/transfer/p2p.go:639-647 | which entries pass both guards, and that they land below the destination at their own elements, none of them ".." |
| `Archive.TreeArrives` | internal/transfer/p2p.go:299-313 | an entry of a directory with an ordinary name is accepted exactly if the name does not begin with two dots and the destination is not the root, and lands at its own place |
| `Archive.TargetsAreDistinct` | internal/transfer/p2p.go:639-658 | different entries land at different places |
| `Archive.OddBasesAreRefused` | internal/transfer/p2p.go:639-647 | the directories ".", "/" and ".." are always refused |
| `Extraction.ExtractTarGz` | internal/transfer/p2p.go:630-670 | the loop extracts what the specification extracts, and gets to the end exactly if every entry is accepted and complete |
| `Extraction.ReachIs` | internal/transfer/p2p.go:639-667 | the loop stops at the first entry that is refused, or after the first with missing bytes |
| `Extraction.ExtractedExactly` | internal/transfer/p2p.go:630-670 | for any archive and any disk: exactly the entries up to there are carried out; each file has the content of the last of them that names it or what it had before; the directories made are theirs |
| `Extraction.NothingOutside` | internal/transfer/p2p.go:639-647 | for any archive: no file outside the destination changes, and no directory is made outside it |
| `Packing.UnpackingKeeps` | internal/transfer/p2p.go:649-667 | unpacking changes no path that is not a file of the tree |
| `Packing.PackDirectory` | internal/transfer/p2p.go:299-326 | the walk packs what the specification packs, or stops where it stops |
| `Packing.PackedExactly` | internal/transfer/p2p.go:299-327 | a tree is packed if and only if every node is whole (listed, as long as announced, or a link or device without content, and described), except that the last may be a file with missing bytes |
| `Packing.LinkedRootIsRefused` | internal/transfer/p2p.go:105-119 | a source that is a link to a directory is never packed |
| `Packing.MissingBytesGoUnnoticed` | internal/transfer/p2p.go:321-329 | a last file with missing bytes is packed without an error and always refused by the extraction |
| `Packing.DirectoryRoundTrips` | internal/transfer/p2p.go:299-671 | of a packed tree every directory is made and every regular file has what was read of it, at its own place, no other file has changed, and the extraction succeeds exactly if every node is whole |
| `Sizes.FloorTwice` | internal/transfer/p2p.go:797 | dividing twice, rounding down, is dividing by the product |
| `Sizes.ChooseUnit` | internal/transfer/p2p.go:791-802 | the largest unit not above the size; div <= 2^60, and the suffix index is in range |

## Left out

- SHA-256: two checksums are equal exactly if the hashed bytes are; in the session, where a checksum is 64 characters, the file's own is assumed not to be that of other bytes.
- Encryption, the handshake messages and JSON text: ideal functions that are parameters; nonce exhaustion is not modelled.
- Sockets: the transfer's channels are unbounded FIFOs (`Traffic` relates them to the session); a peer that has returned has closed its end, and of a failing send nothing is received (`Session.PartIsSilent`).
- Clocks: timeouts are events that may happen at any time.
- Temporary names: CreateTemp never hands out a name that exists or that a state file mentions.
- Integer widths: offsets and indices are unbounded, except for the frame length and the sizes of formatBytes.
- State file and destination names: a destination file called like a state file does not overwrite it.
- Power loss: what a finished write has written stays written.
- MkdirAll, the state path, deterministicFileID and randomFileID: a file ID is given, and `DiskInvariant` takes it to identify the source.
- Receiver.Store.Unpack: does not model a part of one entry that a failing write leaves, nor gzip and tar bytes (what they say of a file is a parameter), modes, or paths that are in each other's way.
- Packing.DirectoryRoundTrips: does not model a directory that changes during the walk, or a pipe that blocks when it is opened.
- Sizes.ChooseUnit: does not model the rounding and printing of the quotient, and sizes below 1024, which have no unit.
- Chunking.SendChunks: the buffer's bytes beyond what a read returns are not modelled.
- Machine.NextRead: empty reads and data with the end of the file are in `Chunking`, not in the machine, which they do not affect.
- Session.SecureSession.ReceiveMessage: does not say what is left unread after an error, which ends the session.
- RelayStreams.RelayRead: does not model the client's side of dialing, or the parsing of the line, which is a parameter.
- pipe in the relay: closing both connections is one step.
- RetryPool: an error inside an attempt and a success both end the worker and are one kind of move; errors of the walk are left out.
- Progress bars, printing, flags, bore.pub, SCP, FTPS, and identities on disk.
