# A verified model of n6bagent's transport

n6bagent runs an HTTP proxy over yamux streams that are multiplexed on one WebSocket connection. This
project models that stack in Dafny and proves what its layers promise. `dafny verify dfyconfig.toml`
checks everything.

## The layers

**Streams (YamuxTypes, YamuxEnd, YamuxLink).** One end of a stream is a value with the stream's fields and
the program counters of the goroutines that work on it. Each atomic section of `stream.go` is one action:
a section under a lock, an atomic load or add, or handing a frame to the send queue. So a window update is
"compute, announce, post, add" with anything in between, and a write is "check, load, announce, post,
subtract". A `Link` joins two ends by two FIFO wires; a run is any sequence of actions of both. YamuxInv
states the invariant, YamuxKept proves that every action keeps it, YamuxRuns draws the theorems about all
runs, and YamuxGap gives exact answers about stalled writers and the receive window check.

**Sessions (YamuxSession, YamuxMux, YamuxWorld).** Two sessions share two wires for any number of streams,
pings and go-aways, with the compare-and-swap on stream ids, the accept queue and the backlog. A simulation
shows that the world is, on every stream id, a run of that stream's link alone, which carries all theorems
about links over to multiplexed streams. YamuxRealized shows the converse for streams that are admitted: what
a link can do, two sessions can. YamuxPing and YamuxMuxPing do the same for pings. YamuxWakeup models the
notify channels on which Read and Write block, YamuxWakes ties it to the actions of an end, and YamuxWatched
follows a link and the calls blocked on it over whole runs.

**Objects (YamuxStream).** `Stream` and `Session` as classes with the source's fields and methods. Each
method is proved to do what a fixed sequence of the atomic actions does, and to leave the rest of the object
alone, so the two views cannot drift apart. YamuxExchange puts them to work as whole programs.

**Bytes (YamuxHeader, YamuxWire).** The 12-byte header, written in place, and the recv loop over reads of
any size.

**Plain numbers (YamuxLaws).** What the constants and decisions above amount to, in bytes, bits and fields:
header layouts, flag values, the first 256 KB, admission, go-aways, and over whole runs the size of updates.

**WebSocket (HybiFrame, HybiFlow, HybiConn).** `HybiFlow.Flow` gives every byte sequence its meaning for a
receiver: messages, pongs owed, and the error at the end. The printer is proved against it from one side and
`Conn.Read`, `Codec.Receive` and the frame handler, with short reads at every level, from the other.
FullStack composes the layers.

**Three small components.** CounterRand (counter mode key stream), RegretReader (rewindable reader) and
ChunkedWriter (chunked transfer coding), each a class beside its specification.

## What the proofs found

- The receive window check can end an honest session. `sendWindowUpdate` posts a delta before it adds it
  (stream.go:243-248); a fast peer can use the delta in between. `YamuxGap.FrameIsRejectedIff` is the exact
  condition for every frame of every run, `YamuxRealized.SessionsCanFailTheWindowCheck` a run of two sessions
  for all configurations that VerifyConfig accepts.
- `Write` never finishes a buffer of 2^32 bytes or more, because stream.go:176 truncates the length
  (`YamuxStream.WriteFinishesIff`); it can only fail, when the stream is closed or a deadline passes.
- A Ping that takes an id still in the table makes the earlier Ping wait until the session ends. Few
  outstanding pings do not prevent it, recent ones do (`YamuxPing.RecentCallsDoNotCollide`,
  `YamuxPing.CollisionIsReached`).
- `RegretableReader.Forget` forgets what was read and also what was pushed back and not read again; its
  comment speaks only of what was read (`RegretReader.RegretableReader.Forget`,
  `RegretReader.ForgetAfterRegretLoses`). The model follows the code.
- A WebSocket ping without payload, and any pong, ends `Conn.Read` with an error although RFC 6455 allows both
  (sections 5.5.2 and 5.5.3); `HybiFlow.ReadToTheEndIff` is the exact condition.

## Model

| member | source | states |
|---|---|---|
| YamuxRuns.CreditConservation | Godeps/_workspace/src/github.com/hashicorp/yamux/stream.go:166-189 | in every reachable state, seen from either end, whether or not the ends still hold the stream: stored send window + data in flight + deltas in flight + what an end that had left dropped = peer receive window + the delta sent but not yet added (modulo 2^32, plus the frame not yet subtracted, while a write is part-way); an end that holds the stream drops nothing |
| YamuxRuns.WindowsAreExact | Godeps/_workspace/src/github.com/hashicorp/yamux/stream.go:225-249 | in every reachable state `max - recvWindow` does not borrow, adding a pending delta stays within MaxStreamWindowSize, and the send window equals its unbounded value once the subtraction of line 186 has run, even if an update wrapped it in between |
| YamuxTypes.AtomicSubIsSubtraction | Godeps/_workspace/src/github.com/hashicorp/yamux/stream.go:185-188 | adding `^uint32(n-1)` takes n away modulo 2^32, for n = 0 as well, and gives the plain difference whenever n is not above the window |
| YamuxTypes.ReduceUnwraps | Godeps/_workspace/src/github.com/hashicorp/yamux/stream.go:355-355 | an update that lands before the subtraction and wraps the stored window is undone by it: the credit comes back exactly |
| YamuxRuns.InOrderDelivery | Godeps/_workspace/src/github.com/hashicorp/yamux/stream.go:360-394 | for every run and each direction: bytes read are a prefix of the bytes sent; while the receiver holds the stream, read + buffered + being copied + on the wire is exactly what was sent, in order |
| YamuxRuns.EofIsComplete | Godeps/_workspace/src/github.com/hashicorp/yamux/stream.go:84-99 | where Read would return io.EOF, every byte sent before the peer's FIN has been returned |
| YamuxRuns.CloseAgreement | Godeps/_workspace/src/github.com/hashicorp/yamux/stream.go:267-340 | with nothing in flight and no call part-way the two half-close states are dual, both ends hold the stream or neither does, and an opener is in Reset exactly if the acceptor refused the stream |
| YamuxRuns.OneFin | Godeps/_workspace/src/github.com/hashicorp/yamux/stream.go:267-297 | each end sends at most one FIN, and has sent just one, or is about to, when it has closed its half; for each direction at most one is due, on the wire or processed; refused streams included |
| YamuxRuns.HonestRunsFailOnlyTheWindowCheck | Godeps/_workspace/src/github.com/hashicorp/yamux/stream.go:285-338 | over all interleavings of two honest ends with verified windows, ErrUnexpectedFlag, ErrDuplicateStream and the panic of Close are unreachable; the only failure left is the receive window check |
| YamuxRuns.RunsKeepInv | Godeps/_workspace/src/github.com/hashicorp/yamux/stream.go:132-394 | every run from a state with the invariant keeps it, step by atomic step, and can fail only at the window check |
| YamuxKept.StepKeepsInv | Godeps/_workspace/src/github.com/hashicorp/yamux/session.go:371-416 | one atomic action of either end, with any interleaving, keeps windows, delivery, FIN accounting and opening handshake all together |
| YamuxKept.MoveErrs | Godeps/_workspace/src/github.com/hashicorp/yamux/stream.go:371-374 | a move from a good state fails only as the completion of a data frame that is longer than the receive window |
| YamuxRuns.FlowControlNeverStalls | Godeps/_workspace/src/github.com/hashicorp/yamux/stream.go:102-115 | in a quiet state a live stream whose send window is 0 faces a receiver with unread data and an empty window |
| YamuxLaws.UpdatesAreWorthIt | Godeps/_workspace/src/github.com/hashicorp/yamux/stream.go:229-239 | in every run of a link from its start, every update on the wires that carries no flag grants at least half of its sender's MaxStreamWindowSize, rounded down |
| YamuxLaws.NewStreamMaySend | Godeps/_workspace/src/github.com/hashicorp/yamux/const.go:91-94 | Write on a new stream, without any update from the peer, sends 262144 bytes of a buffer below 2^32 bytes, and all of it if it is no longer |
| YamuxGap.OneReadReleasesTheWriter | Godeps/_workspace/src/github.com/hashicorp/yamux/stream.go:225-249 | from such a state, one Read of any positive length sends an update whose arrival gives the writer the peer's whole MaxStreamWindowSize |
| YamuxGap.FrameIsRejectedIff | Godeps/_workspace/src/github.com/hashicorp/yamux/stream.go:366-374 | in every reachable state, whichever ends still hold the stream, the check on an arriving data frame fails exactly when the delta between lines 243 and 248 exceeds all window left besides the frame: with the sender, on the wires, or in updates that the sender dropped; in particular never when no update is pending |
| YamuxGap.WholeWindowIsRejectedIffUpdatePending | Godeps/_workspace/src/github.com/hashicorp/yamux/stream.go:241-248 | with empty wires, a peer that writes its whole window makes the session fail if and only if the receiver has posted an update it has not added |
| YamuxGap.TheGapIsReal | Godeps/_workspace/src/github.com/hashicorp/yamux/stream.go:243-248 | for all windows that pass verification there is a run of the two ends of one stream, with incoming streams admitted, that ends in ErrRecvWindowExceeded |
| YamuxMux.SessionSimulates | Godeps/_workspace/src/github.com/hashicorp/yamux/session.go:371-416 | each step of a session is, on every stream id, either that stream's own step or no step at all |
| YamuxMux.ViewSimulates | Godeps/_workspace/src/github.com/hashicorp/yamux/session.go:117-143 | the same as the stream's opener sees it: both sessions, both wires filtered by id |
| YamuxMux.StepKeepsWorld | Godeps/_workspace/src/github.com/hashicorp/yamux/session.go:462-505 | every session step keeps the id counter, the accept queue, the busy stream and the invariants of all streams |
| YamuxWorld.StreamsAreLinks | Godeps/_workspace/src/github.com/hashicorp/yamux/session.go:327-416 | a run of two sessions with any number of streams, pings and go-aways is on each stream a run of that stream alone |
| YamuxWorld.EveryStreamIsReachable | Godeps/_workspace/src/github.com/hashicorp/yamux/mux.go:43-54 | from configurations that VerifyConfig lets through, every stream of a reachable pair of sessions is in a reachable state of a link, so all theorems about links hold of it |
| YamuxWorld.MultiplexedDelivery | Godeps/_workspace/src/github.com/hashicorp/yamux/session.go:288-324 | under multiplexing, bytes read from a stream id are a prefix of bytes sent on that id, in both directions |
| YamuxWorld.TablesAgree | Godeps/_workspace/src/github.com/hashicorp/yamux/session.go:499-505 | with empty wires and no call part-way on it, an id is in both session tables or in neither, rejections by backlog and go-away included |
| YamuxWorld.ClaimedIdsAreNew | Godeps/_workspace/src/github.com/hashicorp/yamux/session.go:125-139 | an id won by the compare-and-swap is unused on both sides, has this side's parity, and the counter does not wrap |
| YamuxWorld.AcceptIsNeverStuck | Godeps/_workspace/src/github.com/hashicorp/yamux/session.go:486-489 | the accept queue never exceeds the backlog and its head is always a stream that can be accepted |
| YamuxLaws.SynIsAdmittedIff | Godeps/_workspace/src/github.com/hashicorp/yamux/session.go:462-497 | in every reachable pair of sessions an arriving SYN is for a stream that is not there; it enters table and queue if and only if this side has not announced to go away and its queue is shorter than the backlog; otherwise RST is the answer, and neither changes |
| YamuxLaws.GoAwayIsHeeded | Godeps/_workspace/src/github.com/hashicorp/yamux/session.go:199-209 | GoAway sets localGoAway before its frame is sent; code 0 from the peer sets remoteGoAway, any other code ends the session |
| YamuxLaws.GoAwayIsForGood | Godeps/_workspace/src/github.com/hashicorp/yamux/session.go:443-459 | in every run of two sessions a side that has announced to go away never takes it back, so that by the previous rows it refuses every stream from then on |
| YamuxWorld.SessionsFailOnlyTheWindowCheck | Godeps/_workspace/src/github.com/hashicorp/yamux/session.go:470-484 | the only step of reachable honest sessions that ends a session is finishing a data frame in the window gap |
| YamuxRealized.EveryLinkRunIsRealized | Godeps/_workspace/src/github.com/hashicorp/yamux/session.go:117-160 | two new sessions whose configurations pass VerifyConfig can run, on their first stream, every run of a link in which incoming streams are admitted: so what is reachable in a link is reachable in sessions |
| YamuxRealized.SessionsCanFailTheWindowCheck | Godeps/_workspace/src/github.com/hashicorp/yamux/stream.go:241-248 | for all configurations that pass VerifyConfig there is a run of two honest sessions, from their creation, that ends in ErrRecvWindowExceeded |
| YamuxPing.PingsAreMatched | Godeps/_workspace/src/github.com/hashicorp/yamux/session.go:212-240 | the pending table holds exactly the calls whose request or reply is in flight or being sent, each under its id; channels are closed at most once, in the order of the requests, and only after that many echoes |
| YamuxPing.StartPingKeepsInvIff | Godeps/_workspace/src/github.com/hashicorp/yamux/session.go:217-221 | a new Ping keeps the matching if and only if its id is not already in the pending table |
| YamuxPing.RecentCallsDoNotCollide | Godeps/_workspace/src/github.com/hashicorp/yamux/session.go:217-221 | that is so whenever every outstanding call is among the last 2^32 - 1 |
| YamuxPing.CollisionForgets | Godeps/_workspace/src/github.com/hashicorp/yamux/session.go:219-220 | where the id is in use, the earlier call drops out of the table while it is still outstanding |
| YamuxPing.ForgottenCallsStayForgotten | Godeps/_workspace/src/github.com/hashicorp/yamux/session.go:431-438 | such a call's channel is never closed, whatever happens afterwards |
| YamuxPing.CollisionIsReached | Godeps/_workspace/src/github.com/hashicorp/yamux/session.go:217-221 | a bound on the number of outstanding pings does not rule this out: a run with one single outstanding call collides with it |
| YamuxMuxPing.PingsSimulate | Godeps/_workspace/src/github.com/hashicorp/yamux/session.go:419-440 | a step of two multiplexed sessions is one ping step or none, for the pings of either side |
| YamuxLaws.PingsAreAnswered | Godeps/_workspace/src/github.com/hashicorp/yamux/session.go:419-429 | an arriving ping request is answered with an ACK of the same id, and nothing else changes |
| YamuxMuxPing.SessionPingsAreMatched | Godeps/_workspace/src/github.com/hashicorp/yamux/session.go:419-440 | in every run of two new sessions in which no call takes an id in use, for both sides and whatever the streams do: closed channels are a prefix of the requests sent, none is closed twice, each has been echoed, and the table is exactly the outstanding calls, each under its id |
| YamuxWakeup.NoReaderIsForgotten | Godeps/_workspace/src/github.com/hashicorp/yamux/stream.go:84-129 | in every run from any state of the stream, with any number of Reads, a parked Read that could return has a token, a notifier on its way, or another Read that will notify |
| YamuxWakeup.BlockedReadsHaveReason | Godeps/_workspace/src/github.com/hashicorp/yamux/stream.go:117-128 | left to themselves the readers settle within a bound, and a Read still parked then has nothing to return |
| YamuxWakeup.SettledMeansStuck | Godeps/_workspace/src/github.com/hashicorp/yamux/stream.go:123-128 | settled is exactly: no reader or notifier can move without the peer, the application or a timer |
| YamuxWakeup.NoWriterIsForgotten | Godeps/_workspace/src/github.com/hashicorp/yamux/stream.go:148-204 | a parked write that has window, or must fail, always has a token or a notifier on its way |
| YamuxWakes.ActionsAreReaderMoves | Godeps/_workspace/src/github.com/hashicorp/yamux/stream.go:267-297 | each local action of an end is one move of the reader model or unseen by it; only Close turns the state without opening the stream, and then sendClose and notifyWaiting follow |
| YamuxWakes.TakesAreReaderMoves | Godeps/_workspace/src/github.com/hashicorp/yamux/stream.go:309-340 | so is each frame that recv takes, and flags that turn the state are those processFlags calls notifyWaiting for |
| YamuxWakes.FinishesAreReaderMoves | Godeps/_workspace/src/github.com/hashicorp/yamux/stream.go:360-394 | so is the arrival of a payload, which the reader model follows by a notification |
| YamuxWakes.ActionsAreSenderMoves | Godeps/_workspace/src/github.com/hashicorp/yamux/stream.go:148-189 | each local action is one move of the writer model, whose window is the unbounded one, or unseen by it |
| YamuxWakes.TakesAreSenderMoves | Godeps/_workspace/src/github.com/hashicorp/yamux/stream.go:309-340 | so is each frame that recv takes, with the notification |
| YamuxWakes.FinishesAreSenderMoves | Godeps/_workspace/src/github.com/hashicorp/yamux/stream.go:349-358 | so is the arrival of a window update |
| YamuxWatched.HappeningKeeps | Godeps/_workspace/src/github.com/hashicorp/yamux/stream.go:84-204 | every move of the link, at this end or the other, and every move of a blocked call keeps the readers and the writer in step with the end, and their invariants |
| YamuxWatched.NobodyIsForgotten | Godeps/_workspace/src/github.com/hashicorp/yamux/stream.go:342-346 | in every run of a link together with the Reads and the writes at one of its ends: a parked Read that could return, judged by the buffer and state of the stream, and a parked write that has window or must fail, always have someone to wake them |
| YamuxStream.Session.OpenStream | Godeps/_workspace/src/github.com/hashicorp/yamux/session.go:117-143 | after any number of lost compare-and-swaps: null exactly after a go-away or at the limit, otherwise a fresh valid stream, its id two further for each rival, registered, with the SYN update queued; accept queue and go-away flags stay |
| YamuxStream.Session.AcceptStream | Godeps/_workspace/src/github.com/hashicorp/yamux/session.go:153-160 | the head of the queue is taken and answered with the update of its window, and the ACK if it is still due; nothing else of the session changes |
| YamuxStream.Session.IncomingStream | Godeps/_workspace/src/github.com/hashicorp/yamux/session.go:462-497 | a SYN for an id that is not in the table is admitted if and only if this side has not announced to go away and fewer streams than the backlog wait; then table and queue grow by the new stream, otherwise RST is queued; a duplicate is answered with a protocol error go-away |
| YamuxStream.AdmissionsAgree | Godeps/_workspace/src/github.com/hashicorp/yamux/session.go:464-489 | the class and the transition system admit, refuse for going away, and refuse for the backlog in the same cases |
| YamuxStream.Session.GoAway | Godeps/_workspace/src/github.com/hashicorp/yamux/session.go:195-209 | localGoAway is set and a go-away with code 0 is queued |
| YamuxStream.Session.HandleGoAway | Godeps/_workspace/src/github.com/hashicorp/yamux/session.go:443-459 | code 0 sets remoteGoAway, any other code is an error and sets nothing |
| YamuxStream.Session.HandleStreamMessage | Godeps/_workspace/src/github.com/hashicorp/yamux/session.go:371-416 | one frame changes the table, the accept queue, the stream, its wake-up tokens and the send queue as the two receive actions do; a frame without SYN is never answered, for a stream that is not there it changes nothing; other streams keep their entries, and a failure is answered with a go-away |
| YamuxStream.Stream.SendFlags | Godeps/_workspace/src/github.com/hashicorp/yamux/stream.go:208-221 | SYN and ACK are announced once, with the state change that goes with them |
| YamuxStream.Stream.SendWindowUpdate | Godeps/_workspace/src/github.com/hashicorp/yamux/stream.go:225-250 | if nothing is due to announce and less than half of the maximum is lacking, queue, window and state stay; otherwise exactly one update of max - recvWindow is queued, with SYN or ACK if due, and the window is full again |
| YamuxStream.Stream.SendClose | Godeps/_workspace/src/github.com/hashicorp/yamux/stream.go:254-264 | a zero update with FIN and any flags still due is queued |
| YamuxStream.Stream.Close | Godeps/_workspace/src/github.com/hashicorp/yamux/stream.go:267-297 | state, table, queue and both wake-up tokens after Close, on every path; false exactly where the source panics, with nothing changed |
| YamuxStream.Stream.ProcessFlags | Godeps/_workspace/src/github.com/hashicorp/yamux/stream.go:309-340 | the half-close machine, with removal from the table; both tokens are set exactly where processFlags notifies; false exactly for an unexpected FIN |
| YamuxStream.Stream.IncrSendWindow | Godeps/_workspace/src/github.com/hashicorp/yamux/stream.go:349-358 | flags, then the window grows modulo 2^32; the tokens are those that the flags and the update notify, and no other |
| YamuxStream.Stream.ReadData | Godeps/_workspace/src/github.com/hashicorp/yamux/stream.go:361-394 | the payload is appended and the window reduced exactly, or the frame is refused for its length and neither changes; the tokens are those that the flags and the payload notify |
| YamuxStream.Stream.TryRead | Godeps/_workspace/src/github.com/hashicorp/yamux/stream.go:84-115 | EOF, reset, blocking and data exactly by state and buffer; data is as much of the front of the buffer as fits, and the window update that is then due has been sent |
| YamuxStream.Stream.WriteOnceActs | Godeps/_workspace/src/github.com/hashicorp/yamux/stream.go:148-189 | one pass of write is the five atomic actions of a write, or leaves everything as it is |
| YamuxStream.Stream.Write | Godeps/_workspace/src/github.com/hashicorp/yamux/stream.go:132-144 | Write, for buffers of any length, is the sequence of passes and waits that WriteRun spells out; the frames queued carry the first bytes of the buffer, as many as window and grants allow; a stream that is closed for writing, or reset, sends nothing and says which |
| YamuxStream.WriteSendsPrefix | Godeps/_workspace/src/github.com/hashicorp/yamux/stream.go:132-189 | the frames of those passes carry exactly the first `total` bytes of the buffer, `total` is all that the windows and the truncated length allow, and the result says whether that was everything, or why not |
| YamuxStream.WriteFinishesIff | Godeps/_workspace/src/github.com/hashicorp/yamux/stream.go:176-176 | some windows let Write finish if and only if the buffer is shorter than 2^32 bytes; longer ones loop for ever because of the truncated length |
| YamuxExchange.OpenWriteClose | Godeps/_workspace/src/github.com/hashicorp/yamux/session.go:117-143 | OpenStream, Write and Close on one session compose: the send queue grows by the SYN update, the frames of the write and the FIN |
| YamuxExchange.ReceiveAcceptRead | Godeps/_workspace/src/github.com/hashicorp/yamux/session.go:153-160 | handleStreamMessage for a SYN and any further frames, AcceptStream and Read on one session compose, with the answer of Read decided by what the frames made of the stream; null exactly when they broke the protocol or took the stream out of the table |
| YamuxExchange.DataAddsUp | Godeps/_workspace/src/github.com/hashicorp/yamux/stream.go:360-394 | data frames received within the window add up in the buffer, in order, and reduce the window by their bytes |
| YamuxExchange.Exchange | Godeps/_workspace/src/github.com/hashicorp/yamux/stream.go:84-144 | two session objects, through encoded headers and bodies: what one writes before closing, as far as one window lets it, is what the other accepts and reads |
| YamuxHeader.DecodeEncode | Godeps/_workspace/src/github.com/hashicorp/yamux/const.go:119-150 | the five getters return what encode wrote |
| YamuxHeader.EncodeDecode | Godeps/_workspace/src/github.com/hashicorp/yamux/const.go:119-150 | and every twelve bytes are the encoding of what the getters read |
| YamuxHeader.EncodeInPlace | Godeps/_workspace/src/github.com/hashicorp/yamux/const.go:144-150 | writing into a reused buffer leaves nothing of the old header |
| YamuxHeader.HeaderLayout | Godeps/_workspace/src/github.com/hashicorp/yamux/const.go:119-150 | version and type are bytes 0 and 1; flags, stream id and length follow, most significant byte first |
| YamuxLaws.FlagValues | Godeps/_workspace/src/github.com/hashicorp/yamux/const.go:75-89 | SYN, ACK, FIN and RST are the bits 1, 2, 4 and 8 |
| YamuxLaws.HeaderFields | Godeps/_workspace/src/github.com/hashicorp/yamux/const.go:53-73 | version 0, types 0 to 3, a ping is a SYN or an ACK with its id as the length, a go-away has its code there |
| YamuxLaws.PacketBytes | Godeps/_workspace/src/github.com/hashicorp/yamux/session.go:292-316 | every byte of a frame on a stream, its body included |
| YamuxWire.PacketRoundTrip | Godeps/_workspace/src/github.com/hashicorp/yamux/session.go:371-440 | the handlers take each frame apart into the packet it was made from |
| YamuxWire.ParseEncodeAll | Godeps/_workspace/src/github.com/hashicorp/yamux/session.go:288-368 | recv cuts whatever send wrote into the same frames and stops cleanly at the end |
| YamuxWire.ParsePrefix | Godeps/_workspace/src/github.com/hashicorp/yamux/session.go:327-368 | whatever part has arrived reads as the first of the frames sent, in order, only the last perhaps without all of its body |
| YamuxLaws.BadHeadersEndIt | Godeps/_workspace/src/github.com/hashicorp/yamux/session.go:340-360 | a header with a first byte other than 0, or a second above 3, ends recv with the error for it; any other begins a frame |
| YamuxWire.Recv | Godeps/_workspace/src/github.com/hashicorp/yamux/session.go:327-416 | over reads of any size the loop handles exactly the frames of the parse, in order, up to the first whose handler fails; frame i is delivered with its body if and only if it is not a stream frame or its stream is known after frames 0 to i - 1, and drained otherwise |
| HybiFrame.HeaderRoundTrip | Godeps/_workspace/src/code.google.com/p/go.net/websocket/hybi.go:120-242 | for every length below 2^63, opcode below 16, FIN, RSV bits and optional key: the parsed header has the same fields and stops at the payload |
| HybiFrame.WriterIsMinimal | Godeps/_workspace/src/code.google.com/p/go.net/websocket/hybi.go:206-223 | no header that parses to the same fields is shorter than the writer's |
| HybiFrame.FrameIsLaidOut | Godeps/_workspace/src/code.google.com/p/go.net/websocket/hybi.go:187-242 | every byte of a written frame, in the numbers of sections 5.2 and 5.3 of RFC 6455 |
| HybiFrame.ParseLayout | Godeps/_workspace/src/code.google.com/p/go.net/websocket/hybi.go:120-178 | for arbitrary bytes: when a header is there, and every field of it by the bits and bytes it is read from |
| HybiFrame.MaskTwice | Godeps/_workspace/src/code.google.com/p/go.net/websocket/hybi.go:230-233 | masking is its own inverse at every position |
| HybiFrame.MaskSplits | Godeps/_workspace/src/code.google.com/p/go.net/websocket/hybi.go:82-94 | masking can be cut anywhere when the position goes on |
| HybiFrame.PiecesUnmask | Godeps/_workspace/src/code.google.com/p/go.net/websocket/hybi.go:82-94 | in whatever pieces the bytes arrive, unmasking them by running position gives the payload that was masked by index, as far as it has arrived |
| HybiFrame.WriteFrame | Godeps/_workspace/src/code.google.com/p/go.net/websocket/hybi.go:187-242 | two header bytes, length, key, and byte i of the payload xor-ed with byte i mod 4 of the key, bit by bit; ErrBadMaskingKey exactly for a key that is not four bytes long |
| HybiConn.NewFrameReader | Godeps/_workspace/src/code.google.com/p/go.net/websocket/hybi.go:120-178 | over reads of any size: the header that the bytes spell, or an error exactly when they end early, int64 wrap-around of the length included |
| HybiConn.FrameReader.Read | Godeps/_workspace/src/code.google.com/p/go.net/websocket/hybi.go:82-94 | what is returned is the front of the wire, each byte xor-ed with the byte of the key that its position in the frame selects; followed by what is left it is the unmasked payload; the bytes behind the frame stay |
| HybiConn.Conn.HandleFrame | Godeps/_workspace/src/code.google.com/p/go.net/websocket/hybi.go:267-307 | a frame becomes a message, a pong, or the error that ends the flow, as HybiFlow.NextFrameMeans has it; a masking violation sends close status 1002 |
| HybiConn.Conn.Read | Godeps/_workspace/src/code.google.com/p/go.net/websocket/websocket.go:171-197 | returned bytes followed by the remaining meaning is the meaning before; an error only when nothing is left, and then every ping has been answered; nothing else is written |
| HybiConn.Conn.ReadMany | Godeps/_workspace/src/code.google.com/p/go.net/websocket/websocket.go:171-197 | any sequence of buffer sizes reads a prefix of the concatenated payloads, and all of it if an error is met |
| HybiConn.Conn.Receive | Godeps/_workspace/src/code.google.com/p/go.net/websocket/websocket.go:303-331 | the rest of the current frame is dropped and exactly the next data frame is returned, with its type |
| HybiConn.Conn.Write | Godeps/_workspace/src/code.google.com/p/go.net/websocket/websocket.go:201-214 | one more final frame of the connection's type with this payload is on the wire |
| HybiFlow.FlowOfFrames | Godeps/_workspace/src/code.google.com/p/go.net/websocket/hybi.go:267-307 | printed frames mean their messages with section 5.4 types and their pongs, in order, whatever follows them |
| HybiFlow.ReadingFlattens | Godeps/_workspace/src/code.google.com/p/go.net/websocket/websocket.go:171-197 | reading all of it gives the concatenated data payloads and one pong per ping |
| HybiFlow.ReadToTheEndIff | Godeps/_workspace/src/code.google.com/p/go.net/websocket/hybi.go:267-307 | printed frames are read to their end if and only if each is masked as it must be, is neither close nor pong, and is no empty ping |
| HybiFlow.FlowOfPrefix | Godeps/_workspace/src/code.google.com/p/go.net/websocket/websocket.go:171-197 | any part of any wire means a prefix of what the whole means, pongs included |
| HybiFlow.NextFrameMeans | Godeps/_workspace/src/code.google.com/p/go.net/websocket/hybi.go:267-307 | what each opcode means for the receiver, masking rule first; a ping is owed an echo of up to 125 bytes, a continuation has the type of the last text or binary frame |
| HybiFlow.PingsAreEchoed | Godeps/_workspace/src/code.google.com/p/go.net/websocket/hybi.go:291-302 | the pongs owed for printed frames are the payloads of the pings, in order |
| FullStack.PacketsCrossTheTunnel | server.go:18-28 | for every split of the stream frames' bytes into WebSocket frames, with pings in between, the receiving session decodes exactly the packets sent |
| FullStack.PartCrossesTheTunnel | server.go:18-28 | cut the wire anywhere: the session has decoded the first packets sent, and perhaps part of one more |
| FullStack.Send | Godeps/_workspace/src/github.com/hashicorp/yamux/session.go:292-316 | header and body, in pieces of any size, add exactly the encoded packet to the data on the connection |
| FullStack.Tunnel | server.go:18-28 | the same as programs: send loop, frame writer, frame reader, Conn.Read with any buffers; at the end the parse is the list sent |
| FullStack.Recv | Godeps/_workspace/src/github.com/hashicorp/yamux/session.go:327-368 | the recv loop over a buffered WebSocket connection, with short reads at every level, handles exactly the frames that the connection still means, up to the first whose handler fails; each is delivered or drained as its stream is known or not |
| FullStack.SendAndReceive | server.go:18-28 | send loop, frame writer, frame reader, frame handler, Conn.Read, buffer and recv loop as one program: where all streams are known and no handler fails, the bodies delivered are the payloads of the packets sent, in order, and the end is clean |
| CounterRand.NextAddsOne | Godeps/_workspace/src/github.com/elazarl/goproxy/counterecryptor.go:50-54 | the carry loop is little-endian plus one, modulo 256^n |
| CounterRand.CountersRepeatIff | Godeps/_workspace/src/github.com/elazarl/goproxy/counterecryptor.go:48-56 | the counter after i and after i + d refills is the same if and only if d is a multiple of 256^n |
| CounterRand.BlocksRepeatIff | Godeps/_workspace/src/github.com/elazarl/goproxy/counterecryptor.go:48-56 | the same for blocks under an injective cipher, so 256^n consecutive blocks are pairwise distinct |
| CounterRand.KeyStreamAt | Godeps/_workspace/src/github.com/elazarl/goproxy/counterecryptor.go:58-68 | byte i*n + b of the output is byte b of the encryption of the counter after i refills |
| CounterRand.ReadersAgree | Godeps/_workspace/src/github.com/elazarl/goproxy/counterecryptor.go:58-68 | two readers with one key and seed agree on the shorter output, whatever their buffers were |
| CounterRand.CounterEncryptorRand.Carry | Godeps/_workspace/src/github.com/elazarl/goproxy/counterecryptor.go:50-54 | the loop over the array, with its early exit, is that increment |
| CounterRand.CounterEncryptorRand.Read | Godeps/_workspace/src/github.com/elazarl/goproxy/counterecryptor.go:58-68 | output grows by what is returned and stays on the key stream; the count is exact |
| CounterRand.CounterEncryptorRand.ReadMany | Godeps/_workspace/src/github.com/elazarl/goproxy/counterecryptor.go:58-68 | any sequence of sizes reads that many bytes of the key stream |
| RegretReader.RegretableReader.Read | Godeps/_workspace/src/github.com/elazarl/goproxy/regretable/regretreader.go:81-97 | the position moves over bytes of the stream; unread bytes of the buffer are returned, as many as fit, without a call of the underlying reader; otherwise there is exactly one such call, with this buffer's size, and count and error are its own; overflow exactly when the buffer cannot hold what was read since the mark |
| RegretReader.RegretableReader.Regret | Godeps/_workspace/src/github.com/elazarl/goproxy/regretable/regretreader.go:47-52 | the position goes back to the mark, unless the buffer has overflowed |
| RegretReader.RegretableReader.Forget | Godeps/_workspace/src/github.com/elazarl/goproxy/regretable/regretreader.go:62-68 | the mark goes to the furthest position read; the position stays where it is if and only if nothing regretted is unread |
| RegretReader.RegretableReader.Run | Godeps/_workspace/src/github.com/elazarl/goproxy/regretable/regretreader.go:45-97 | every sequence of calls replays as a (mark, position) cursor on the stream, up to a call the documentation has no answer for; over a source that never fails, a Read into a buffer with room is empty only at the end of the stream |
| RegretReader.ForgetAfterRegretLoses | Godeps/_workspace/src/github.com/elazarl/goproxy/regretable/regretreader.go:54-68 | on 1, 2, 3: read, regret, forget, read returns 1 and then 2, against the comment of Forget |
| ChunkedWriter.HexRoundTrip | Godeps/_workspace/src/github.com/elazarl/goproxy/chunked.go:39-39 | the size line spells the size |
| ChunkedWriter.HexIsPlain | Godeps/_workspace/src/github.com/elazarl/goproxy/chunked.go:39-39 | the size line uses the digits 0 to 9 and a to f, without a leading zero |
| ChunkedWriter.BodyDecodes | Godeps/_workspace/src/github.com/elazarl/goproxy/chunked.go:32-59 | for any writes, data of any content, and any bytes behind: decoding the body gives the concatenated writes and stops exactly at its end |
| ChunkedWriter.BodiesAre | Godeps/_workspace/src/github.com/elazarl/goproxy/chunked.go:32-59 | byte for byte: the empty body, a body of one byte, and a chunk of 26 bytes, whose size line is 1a |
| ChunkedWriter.PrefixIsIncomplete | Godeps/_workspace/src/github.com/elazarl/goproxy/chunked.go:34-37 | no proper part of a chunked body decodes, for every body |
| ChunkedWriter.NoEarlyEnd | Godeps/_workspace/src/github.com/elazarl/goproxy/chunked.go:34-37 | so no write makes the body look finished before Close and the final line |
| ChunkedWriter.ChunkedWriter.Write | Godeps/_workspace/src/github.com/elazarl/goproxy/chunked.go:32-54 | what is on the wire after success, short write or error, byte for byte, and the count returned; WireError if and only if the sink has reported a failure in this call |
| ChunkedWriter.ChunkedWriter.Close | Godeps/_workspace/src/github.com/elazarl/goproxy/chunked.go:56-59 | the last chunk, or the part of it the sink took; an error if and only if the sink reported one |
| ChunkedWriter.SendBody | Godeps/_workspace/src/github.com/elazarl/goproxy/https.go:221-233 | on a connection that keeps to the contract of io.Writer, what was sent decodes to the copied body if and only if all of it was sent; success is reported if and only if no write failed, and then all of it was sent |

## Left out

- Timers, deadlines, keep-alive scheduling, round trip times and logging: a timeout is a return that may happen at any moment.
- What happens after a session has shut down, connection errors inside a session, and `forceClose`: runs end at the first error.
- VerifyConfig appears as the condition YamuxWorld.Verified on windows and backlogs; its test of the keep-alive interval has no counterpart.
- Deadlock between mutexes: a section under a lock is one atomic step, whatever the order of locks.
- The capacity of the send queue and the waiting for its answer: a frame is on its way from the moment it is queued.
- `handleStreamMessage` from the table lookup through `processFlags` is one step; an Accept in between would meet a frame with SYN alone, which `processFlags` ignores.
- The world lets OpenStream proceed after the peer's go-away, so that its theorems hold of more runs; `YamuxStream.Session.OpenStream` has the check.
- YamuxStream.Stream.Write: one call at a time with the windows granted while it waits, not interleaved with other goroutines; YamuxRuns and YamuxWatched have every interleaving. Where the source would spin for ever the method stops with that answer.
- YamuxStream.WriteSendsPrefix: for grants that keep the window below 2^32, as YamuxRuns.WindowsAreExact shows it is kept.
- Ping and handlePing are steps of YamuxSession and YamuxPing, not methods of YamuxStream.Session.
- YamuxStream.Stream.TryRead: one pass; waiting on the channel is in YamuxWakeup.
- YamuxWakeup.NoReaderIsForgotten: readers are counted by place, not told apart, since they run the same code on the same stream.
- YamuxWire.Recv: handlers are reduced to what they take off the connection and whether they fail, and depend on the frames received but not on calls made meanwhile; what they do is in YamuxStream.Session.HandleStreamMessage.
- HybiConn.Conn.Read: errors of the transport other than its end, and failing writes of pongs, are not modelled; nor what a caller reads who goes on after an error.
- FullStack.Recv: once Conn.Read has reported an error the buffer reports the end; the source may read on after an io.EOF in the middle of a body, behind a close frame for example.
- HybiConn.FrameReader.Read: an empty buffer reads nothing and reports no error while the frame has bytes left; bufio.Reader's own answer to empty buffers is not part of this model.
- HybiConn.Conn.Write: masking keys come from a parameter instead of a random source.
- The WebSocket handshake, the JSON and message codecs on top of Receive, and Codec.Send, which writes one frame like Conn.Write.
- CounterRand: the cipher is a parameter, key derivation and Seed in mid-stream are not modelled.
- RegretReader.RegretableReader.Regret: a panic is a result of false; the same for Forget.
- RegretReader.RegretableReader.Read: that the underlying reader failed is a flag, which may come with bytes and is recorded with each call; which error it is, io.EOF together with bytes included, is not modelled.
- Source.Reader, which the yamux and WebSocket readers are built on, has the end of the stream as its only error and never returns bytes with it.
- ChunkedWriter.SendBody: says nothing of what is received when the connection drops bytes without reporting an error; ChunkedWriter.ChunkedWriter.Write says what is on the wire then.
- ChunkedWriter.BodyDecodes: the decoder knows no chunk extensions and no trailer fields, which the writer never sends.
- The proxy itself, its connection handling, certificates, TLS, and the HTML, image and authentication extensions: plumbing over libraries.
