# WebTransport in Dafny

A verification of the protocol code that webtransport-py writes itself: the WebTransport over
HTTP/2 session engine (draft-ietf-webtrans-http2-15 over the Capsule Protocol of RFC 9297), the
HEADERS boundary guard of its WebTransport over HTTP/3 binding, and the window, retention,
closing and text code of its HTTP/2, QUIC and QMux bindings.

## How the project is built

The session engine comes in layers, each its own file.

- `Capsules`, `Varint`, `Utf8`, `Codec`: capsules as values and as bytes.
- `Engine`: one session as a value, every API call and capsule handler a function on it. Four
  history fields are never read: everything queued, dispatched, reported and freed.
- `SessionObject`, `Reader`: the same as objects, in the source's imperative form, every method
  proved equal to its function. What is proved about runs of the functions holds of the objects.
- `Trace`: what a sequence of capsules says, and the language of the draft.
- `Sending`, `Conduct`: what an endpoint keeps about its own words, whatever the peer sends.
- `Receiving`, `Dialogue`, `Hearing`: what it keeps about a peer that speaks the language.
- `Bounds`: stream counts and byte credit against an arbitrary peer.
- `Queues`, `Conservation`: the send queues, call by call and capsule by capsule.
- `Endpoint`, `Runs`: whole runs of one endpoint against an arbitrary peer.
- `History`, `Rules`, `Replies`, `Flushing`: the state as a function of what both ends have said, and on
  that: when a capsule is an error, and what every capsule, call and flush brings about.
- `Network`, `Delivery`, `Settling`, `Deeds`, `Datagrams`: two endpoints over two FIFO channels of capsules:
  safety, absence of deadlock, liveness, and that what is told is what was called for.
- `Inputs`, `Channel`, `ByteNetwork`, `PayloadLimits`: the same two endpoints over bytes, each with its
  payload limit: when there is an error, and that otherwise bytes do what capsules do.
- `RecvLedger`, `WindowedNetwork`: the receive window of the HTTP/2 connection, and the same two endpoints
  within it: the window never keeps a session from getting everything through.
- `Witnesses`, `EarlyStops`: concrete runs that reach the states in which a property fails.

The rest stands on its own: `Lifetime` (the table of sessions), `HeadersGuard`, `Http2Windows`,
`Retention`, `Closing`, `ErrorCodes`.

A channel of `Network` is what one end has queued and the other has not dispatched; no payload limit is
checked there. `ByteNetwork` writes these capsules out, lets each end read them in pieces of any size,
and refuses what is too long; a run of it that raises no error is a run of `Network` with the same calls.
With the default limit and windows of at most 2^20 - 8 bytes no run raises one.

The libraries underneath are oracles. nghttp3 is a function from the reads it was given to the
streams whose header block is undecoded; a read of a request stream changes its own entry only, any
other read only unblocks. A call of `ngtcp2_conn_writev_stream` takes at most what it is offered and
acknowledgements come in order and without gaps. Clocks are parameters, and so are the outcomes of capsule
passes in `RecvLedger` and `Lifetime`; `WindowedNetwork` takes them from the capsules.

## What the code does not do

Six properties one might expect are false of the code. Each is stated with its condition, and with a
run that reaches a state in which it fails.

- A send of length zero behind waiting data is never flushed, so its FIN never leaves
  (`Runs.EmptyEntryNeverLeaves`, `Witnesses.EmptyEntryHappens`; the condition is in `Delivery.EverythingArrives`).
- A stream stopped by its opener before its first use gets no more credit, yet the other end, which
  ignores the early stop, goes on sending until the first window is full (`Delivery.StopIsForGood`,
  `EarlyStops.EarlyStopStarves`; same theorem).
- Two copies of this code may reject each other's capsules as too long. The check counts the stream ID,
  the limit on inputs does not; issue 0261 of the repository describes one case (`PayloadLimits.ErrorFree`,
  `PayloadLimits.LongSendFails`).
- `reset_stream` on a receive-only stream, and `stop_sending` on a send-only one, queue a capsule the
  peer must treat as an error (`Runs.ResetMustFaceForward`, `Runs.StopMustFaceBack`,
  `Witnesses.ResetFacesBack`, `Witnesses.StopFacesForward`).
- Limits announced at acceptance may undercut limits already raised for deferred capsules
  (`Runs.AnnounceMustComeFirst`, `Witnesses.AnnouncedTooLate`).
- A client that closes before the 2xx is established by it all the same, and its limits follow
  WT_CLOSE_SESSION; `open_stream`, which asks for nothing else, works on (`Runs.CloseBeforeResponse`,
  `Runs.OverStep`, and the condition in `Runs.AnnounceMustComeFirst`). No server hears of it
  (`Network.LateWordsAreUnheard`).

Two more hypotheses are exact in the same way: the peer must not use stream IDs that are still ours to
open (`Runs.MannersNeeded`, `Witnesses.OpenedTwice`), and an empty FIN goes past bytes the HEADERS guard holds
(`HeadersGuard.EmptyFinOvertakes`, `HeadersGuard.HalfHeaderIsOvertaken`).

## Model

| member | source | states |
|---|---|---|
| WindowedNetwork.WindowedArrives | src/bindings/webtransport_h2.cpp:3475-3530 | Two ends over one connection whose receive window opens only as dispatched capsules are given back: if both are up and to neither a single byte may be sent, all bytes have been read, nothing is under way, and everything handed over is delivered under the condition of EverythingArrives |
| WindowedNetwork.NeverStuck | src/bindings/webtransport_h2.cpp:1492-1559 | In every reachable state the window allows at least one byte to an end that is up iff that end has not read everything |
| WindowedNetwork.ReadableIff | src/bindings/webtransport_h2.cpp:3475-3530 | Whether bytes may be sent is decided by the window and by what was written; a capsule pass never dispatches more than has come |
| WindowedNetwork.ReadingLowers | src/bindings/webtransport_h2.cpp:250-338 | Every reading, of any size and at either end, strictly lowers one measure: ends that are up, then what is under way, then bytes unread |
| WindowedNetwork.ReadOut | src/bindings/webtransport_h2.cpp:250-338 | From every reachable state reading can go on until nothing may be sent any more |
| WindowedNetwork.PassIsDispatch | src/bindings/webtransport_h2.cpp:340-353 | The bytes a pass over the capsule buffer gives back are those of the capsules dispatched: all that came but what stays in the buffer |
| PayloadLimits.BytesArrive | src/bindings/webtransport_h2.cpp:250-338 | EverythingArrives over bytes: if both ends are up and have read everything, however it was cut, nothing is under way and everything handed over is delivered under the same exact condition |
| PayloadLimits.ErrorFree | src/bindings/webtransport_h2.cpp:250-338 | Joined by bytes that are read in pieces of any size, in any interleaving: once an end has read all there is, it has raised no error iff every capsule queued for it is within its payload limit (a call of close_session of its own aside) |
| PayloadLimits.NoErrorWithin | src/bindings/webtransport_h2.h:156-160 | No false errors, on a condition to check before each call: the length of the stream ID plus the data or the window, whichever is less, the datagram, or four bytes plus the cut message is within the limit of the receiver, which is at least 24. Then no run over bytes raises an error, and it is a run over capsules with the same calls |
| PayloadLimits.DefaultsSuffice | src/bindings/python_input.h:31-44 | With the default limit of 2^20 bytes and windows of at most 2^20 - 8 bytes no run over bytes raises an error, since no call takes more than 2^20 bytes |
| PayloadLimits.LongSendFails | issues/0261-bug-fix-h2-one-mib-capsule-limit.md:13-18 | The first part is needed: the first send on the first stream makes the receiver raise an error whenever it violates the condition |
| PayloadLimits.LongDatagramFails | src/bindings/webtransport_h2.cpp:306-316 | The second part is needed: every datagram longer than the limit makes the receiver raise an error |
| PayloadLimits.LongCloseFails | src/bindings/webtransport_h2.cpp:2926-2957 | The third part is needed: a closing message whose cut does not fit is an error at the receiver |
| ByteNetwork.ErrorsExactly | src/bindings/webtransport_h2.cpp:250-338 | In every state of every run over bytes an end has raised an error iff, while up, it has read the whole header of a capsule longer than its limit; nothing else that a copy of this code writes is an error |
| ByteNetwork.RunsAlike | src/bindings/webtransport_h2.cpp:250-407 | A run over bytes without an error is a run over capsules with the same calls in the same order, so all results about the latter hold of it |
| ByteNetwork.ReadsOn | src/bindings/webtransport_h2.cpp:250-338 | What an end makes of the bytes it has read is what it makes of the capsules in them, one after the other, unless it refuses one |
| ByteNetwork.QueuedIsWritable | src/bindings/webtransport_h2.cpp:235-248 | Everything that is ever queued fits its encoding: IDs, sizes and offsets below 2^62, closing messages well-formed and at most 1024 bytes |
| Channel.HeaderDecides | src/bindings/webtransport_h2.cpp:287-323 | A reader refuses a capsule as soon as it has the whole header and not before, and takes it as soon as it has all of it |
| Inputs.ReceiveModest | src/bindings/webtransport_h2.cpp:1952-2037 | Whatever the peer sends, flushing never makes a WT_STREAM or a datagram that is larger than one call of the application |
| Datagrams.DatagramsInOrder | src/bindings/webtransport_h2.cpp:2848-2896 | Datagrams arrive in the order of the calls that sent them, each once, and all of them once everything queued has been dispatched |
| Datagrams.ReceiveDatagrams | src/bindings/webtransport_h2.cpp:1163-1171 | A capsule from an arbitrary peer delivers a datagram iff it is one, and never makes one go out |
| Delivery.NoFalseErrors | src/bindings/webtransport_h2.cpp:409-1003 | Capsule by capsule: whatever one copy of this code queues, the other dispatches without an Error event, in any interleaving of calls and deliveries, closing before the 2xx included, and a session ends only if an application closed it |
| Network.LateWordsAreUnheard | src/bindings/webtransport_h2.cpp:3391-3413 | What a client that has closed queues behind WT_CLOSE_SESSION, as it does when the 2xx comes late, is never dispatched by a server |
| Delivery.DeliversInOrder | src/bindings/webtransport_h2.cpp:1952-2037 | In every reachable state the bytes one end delivers are a prefix of the bytes the other was handed, in order and without loss or duplication; once the FIN is through, all of them |
| Delivery.EverythingArrives | src/bindings/webtransport_h2.cpp:808-950 | No flow-control deadlock, as an equivalence: at rest a stream that was not reset has sent and delivered everything and its FIN iff no empty send was queued behind waiting data and a stream its opener stopped before using it fits the first window |
| Delivery.PayloadFits | src/bindings/webtransport_h2.cpp:2637-2697 | No WT_STREAM that is ever queued carries more than the receiver's initial windows, neither the stream's nor the session's; used in NoErrorWithin |
| Delivery.StopIsForGood | src/bindings/webtransport_h2.cpp:1850-1887 | From a stop on, in every later run of both ends, the credit of the stream is what it was, and the other end never sends more than that |
| Delivery.StuckOnlyIf | src/bindings/webtransport_h2.cpp:1994-2002 | Bytes can wait at rest only behind an empty entry or on a stream stopped before its first use with more bytes than its first window |
| Settling.EverythingGetsThrough | src/bindings/webtransport_h2.cpp:1952-2037 | Liveness: from any reachable state with both ends up, whatever deliveries happen, in any order, until none is possible: they are at most Unrest many, the network is at rest, and everything handed over is delivered under the same exact condition |
| Settling.ComesToRest | src/bindings/webtransport_h2.cpp:250-338 | Such deliveries exist, and they do not end the session |
| Settling.DeliveriesEnd | src/bindings/webtransport_h2.cpp:250-338 | Any interleaving of deliveries is finite, with a bound given by what is under way and what waits |
| Settling.ReceiveCost | src/bindings/webtransport_h2.cpp:340-407 | Whatever an arbitrary peer sends, what one capsule makes this end queue, flushes and errors included, weighs less than the capsule itself |
| Settling.FlushCost | src/bindings/webtransport_h2.cpp:1952-2037 | What a flush queues, the WT_MAX_STREAMS of released streams included, is paid for by the bytes that leave the queues |
| Network.RunKeepsInv | src/bindings/webtransport_h2.cpp:2313-2394 | Over every run both ends keep every invariant, and each has dispatched a prefix of what the other queued |
| Network.NextIsExpected | src/bindings/webtransport_h2.cpp:409-699 | Whatever one end has queued, the other finds within its limits and states when its turn comes, although limits and states moved on meanwhile |
| Network.HeardFromSaid | src/bindings/webtransport_h2.cpp:409-542 | What one end knows of a stream is what the other has said of it, cut off at some point: fewer bytes, less credit, never a different ending |
| Network.InitialNetInv | src/bindings/webtransport_h2.cpp:2252-2394 | The state after CONNECT and acceptance satisfies all invariants |
| Rules.Verdict | src/bindings/webtransport_h2.cpp:409-1268 | Against an arbitrary application and peer, over whole runs: a capsule closes the session with an error iff, given what either end said before, it breaks one of the rules listed in Breaks, with the code of that rule and with an Error event iff the rule is told; and one that breaks none has exactly the events and, flushes aside, exactly the answering capsules listed, and ends the session iff it is WT_CLOSE_SESSION |
| Rules.NothingAfterEnd | src/bindings/webtransport_h2.cpp:484-499 | Whatever the peer sends, no StreamData event with data follows a FIN or a StreamReset of the same stream |
| Rules.LateDataIsRefused | src/bindings/webtransport_h2.cpp:494-499 | Data on a stream whose end has been reported appends Error(WT_STREAM_STATE_ERROR), queues WT_CLOSE_SESSION with that code and terminates the session |
| Rules.PlayKnows | src/bindings/webtransport_h2.h:240-380 | After any tidy run during which no capped record is full, every entry, counter, record and flag that a later decision looks at is the one function of the two logs that Remembers and BoardKnows spell out |
| Rules.JudgesStream | src/bindings/webtransport_h2.cpp:409-542 | The verdict on WT_STREAM: wrong direction, data after the end, a stream beyond the stated number, more bytes than session or stream allow; else delivery, credit back at half a window, and room for one more stream when it thereby ends |
| Rules.JudgesReset | src/bindings/webtransport_h2.cpp:544-699 | The verdict on WT_RESET_STREAM: wrong direction, a second end, a Reliable Size other than the bytes received, a stream beyond the stated number |
| Rules.JudgesStop | src/bindings/webtransport_h2.cpp:718-806 | The verdict on WT_STOP_SENDING: wrong direction or a second stop; else it is answered by one reset with its code and the bytes sent, if anything can still be reset |
| Rules.JudgesMaxStreamData | src/bindings/webtransport_h2.cpp:848-950 | The verdict on WT_MAX_STREAM_DATA: wrong direction, after a stop, or less than the last credit, the first one, or the announced one |
| Replies.CallsAnswered | src/bindings/webtransport_h2.cpp:2508-2979 | Over the same runs: what each API call queues, to the capsule, stated on what both ends have said: which calls are taken, with which code and Reliable Size, how many bytes go out at once, and which limit is reported as blocking, once each |
| Replies.SendReplies | src/bindings/webtransport_h2.cpp:2571-2709 | send_stream_data sends what the tighter limit leaves and names that limit, or both if they are equal, unless it was named before |
| Replies.ResetReplies | src/bindings/webtransport_h2.cpp:2711-2785 | reset_stream queues one WT_RESET_STREAM with the caller's code and the bytes sent iff the stream is in use and open in this direction |
| Replies.StopReplies | src/bindings/webtransport_h2.cpp:2787-2846 | stop_sending queues one WT_STOP_SENDING with the caller's code iff the stream is in use and was not stopped before |
| Replies.OpenReplies | src/bindings/webtransport_h2.cpp:2508-2569 | open_stream hands out the next ID iff the session is up, the peer's limit allows it and the ID is not in use; at the limit it says so once per limit |
| Replies.OpenOpens | src/bindings/webtransport_h2.cpp:2538-2569 | The stream handed out counts as opened from then on, and no other becomes so |
| Deeds.WordsInOrder | src/bindings/webtransport_h2.cpp:2711-2979 | Two ends: the resets, stops, datagrams, drains and closes that one end queues are those its application called for, and the answers to stops, in order, with their codes and messages; the other end is told exactly these, in order and once each, as far as it has dispatched them, unless 4096 stops overflow its record |
| Deeds.EveryNewsIsMeant | src/bindings/webtransport_h2.cpp:2740-2770 | Every StreamReset, StopSendingReceived, DatagramReceived, SessionDraining and SessionClosed that one end reports carries the stream, code and payload of a call at the other end, or is a reset with the code of a stop that was answered there |
| Deeds.ApplyWords | src/bindings/webtransport_h2.cpp:2711-2979 | A call queues the one word it is for, with its own code, and no other |
| Deeds.ReceiveWords | src/bindings/webtransport_h2.cpp:340-407 | A capsule of an arbitrary peer is told as it says; a stop is answered by a reset with its code, an error by a close, and no other capsule by any of these words |
| Flushing.FlushIsOneWalk | src/bindings/webtransport_h2.cpp:1952-2037 | A flush queues exactly what one walk in ascending order of stream IDs sends, each stream from the front of its queue as far as both limits go, an entry to a capsule and only the last one cut |
| Flushing.CreditIsSpent | src/bindings/webtransport_h2.cpp:808-950 | Over whole runs: when the peer raises a limit, what goes out is that walk with the new credit and nothing else |
| Flushing.DrainDid | src/bindings/webtransport_h2.cpp:1979-2031 | One stream sends its share, and makes room for one more if that ends a stream of the peer; no other stream is touched |
| Runs.SpeaksTheLanguage | src/bindings/webtransport_h2.cpp:2571-2846 | Against an arbitrary peer everything queued is in the language of the draft: WT_STREAM* then FIN or reset, exact Reliable Size, one stop per stream and no credit after it, no limit decreased, nothing after WT_CLOSE_SESSION |
| Runs.SendsInOrder | src/bindings/webtransport_h2.cpp:2571-2709 | Bytes accepted = bytes queued in WT_STREAM capsules followed by bytes waiting; the FIN is queued or waits last iff it was accepted; a reset drops exactly the waiting suffix |
| Runs.BlockedMeansNoCredit | src/bindings/webtransport_h2.cpp:1952-2037 | After every call and capsule a queue whose front entry is not empty has no session credit or no stream credit left |
| Runs.ConcurrencyBounded | src/bindings/webtransport_h2.cpp:1889-1950 | For any application and any peer, until 4096 IDs are recorded, the peer's live streams of a direction never exceed the configured limit, while the advertised limit is exactly that limit plus the number released, up to 2^60 |
| Runs.CreditBanded | src/bindings/webtransport_h2.cpp:1823-1887 | For any application and any peer the credit outstanding, for the session and per unstopped stream, lies between half the configured window and all of it, until the ceiling of a varint |
| Runs.OverIsQuiet | src/bindings/webtransport_h2.cpp:2898-2979 | Once a session is over no call and no capsule reports anything, and none queues anything, but for one WT_STREAMS_BLOCKED a direction if it still counts as established; if it does not, nothing changes at all |
| Runs.OverStep | src/bindings/webtransport_h2.cpp:2508-2537 | A session that is over queues something iff open_stream is called while it counts as established, meets the limit, and has not reported it |
| Runs.EmptyEntryNeverLeaves | src/bindings/webtransport_h2.cpp:1998-2002 | An empty send accepted behind waiting data stays queued in every later run and its FIN is never sent, unless the stream is reset |
| Witnesses.EmptyEntryHappens | src/bindings/webtransport_h2.cpp:2617-2629 | Two calls of a client that has just been established reach the state of that lemma: one byte sent, one waiting, and an empty send with FIN is queued behind it |
| Runs.EarlyStop | src/bindings/webtransport_h2.cpp:2787-2846 | Stopping a stream before anything was put on it is recorded as such, and in every later run of this end its credit stays the initial one |
| EarlyStops.EarlyStopStarves | src/bindings/webtransport_h2.cpp:718-806 | A run of two ends, 15 actions, that comes to rest with both ends up and one of two bytes undelivered, no entry being empty |
| Runs.ResetMustFaceForward | src/bindings/webtransport_h2.cpp:2711-2785 | reset_stream keeps the endpoint sound iff the stream is one it may send on; on a receive-only stream it queues a capsule the draft forbids |
| Witnesses.ResetFacesBack | src/bindings/webtransport_h2.cpp:2711-2785 | A server that is established and has received one byte on a unidirectional stream of its client is in such a state |
| Runs.StopMustFaceBack | src/bindings/webtransport_h2.cpp:2787-2846 | stop_sending keeps the endpoint sound iff the stream is one it may receive on |
| Witnesses.StopFacesForward | src/bindings/webtransport_h2.cpp:2787-2846 | A client that is established and has opened a unidirectional stream is in a state where it is not |
| Runs.AnnounceMustComeFirst | src/bindings/webtransport_h2.cpp:2379-2394 | Stating the configured limits when a session is established stays in the language iff no deferred capsule had raised one and no close had been queued |
| Witnesses.AnnouncedTooLate | src/bindings/webtransport_h2.cpp:2340-2394 | A server that is established, goes through one deferred byte and then announces its limit of one byte decreases what it has granted |
| Runs.CloseBeforeResponse | src/bindings/webtransport_h2.cpp:3391-3413 | A client that closes before the 2xx is marked established by it, and its limits are queued behind WT_CLOSE_SESSION; so is the WT_STREAMS_BLOCKED of open_stream when the peer allows no stream |
| Runs.MannersNeeded | src/bindings/webtransport_h2.cpp:2538-2550 | open_stream hands out an ID that is sound iff the peer has not used and finished that stream already |
| Witnesses.OpenedTwice | src/bindings/webtransport_h2.cpp:2508-2569 | A peer that ends our first stream before we open it makes open_stream hand out a finished ID, and data follow the FIN |
| Bounds.ConcurrencyBound | src/bindings/webtransport_h2.cpp:138-145 | Live and released streams of the peer are disjoint sets of counters below the advertised limit, hence at most the configured number is alive |
| Bounds.Pigeonhole | src/bindings/webtransport_h2.cpp:134-145 | Streams of one kind with counters below n are at most n |
| Bounds.BandBounds | src/bindings/webtransport_h2.cpp:1823-1848 | The replenishment rule leaves between half the window and the whole of it, and never none while the window is positive |
| Bounds.Replenishes | src/bindings/webtransport_h2.cpp:1823-1887 | Receiving within the limit and then applying the rule restores the band |
| Bounds.CreditRestoresBand | src/bindings/webtransport_h2.cpp:502-532 | Accepting a WT_STREAM and returning credit restores the band of the session and of every stream |
| Bounds.RetireKeeps | src/bindings/webtransport_h2.cpp:1889-1950 | Releasing a stream keeps the roster: IDs in range, live and released disjoint, one more stream advertised |
| Trace.OneEnding | src/bindings/webtransport_h2.cpp:2605-2616 | In a log of the language only the last data capsule of a stream can be a FIN or a reset |
| Trace.ReliableSize | src/bindings/webtransport_h2.cpp:2740-2761 | In a log of the language a reset names exactly the bytes sent on the stream before it |
| Trace.CloseIsLast | src/bindings/webtransport_h2.cpp:2898-2979 | In a log of the language WT_CLOSE_SESSION comes last and so at most once |
| Trace.StreamGrows | src/bindings/webtransport_h2.cpp:1979-2026 | As a log of the language grows a stream only gains bytes and credit; an ending is final, and a stop freezes the credit |
| Trace.LimitsOnlyRise | src/bindings/webtransport_h2.cpp:2379-2391 | Stating three session limits is legal iff none is below what was stated before and nothing was closed |
| Conservation.ApplyServes | src/bindings/webtransport_h2.cpp:2508-2846 | Every API call keeps what every stream has committed and adds exactly the bytes, FIN and empty entry it accepted |
| Conservation.ReceiveServes | src/bindings/webtransport_h2.cpp:250-338 | Every capsule of an arbitrary peer keeps what every stream has committed, unless it makes the stream be reset |
| Conservation.SendServes | src/bindings/webtransport_h2.cpp:2571-2709 | send_stream_data appends to the queue, or sends what credit allows and queues the rest, without disturbing order |
| Queues.DrainServes | src/bindings/webtransport_h2.cpp:1982-2031 | Draining one queue serves every queue in order and leaves nothing that credit would still carry |
| Queues.FlushServes | src/bindings/webtransport_h2.cpp:1952-2037 | After flush_pending_sends no queue waits that credit would still carry, although entries are released on the way |
| Engine.FlushPassProgress | src/bindings/webtransport_h2.cpp:1961-2036 | A pass that sends anything uses up session credit, which is why the outer loop ends |
| Conduct.ReceiveKeepsSending | src/bindings/webtransport_h2.cpp:340-407 | Whatever capsule arrives, counters, limits and words of this end stay consistent and in the language |
| Conduct.SendStreamDataKeeps | src/bindings/webtransport_h2.cpp:2571-2709 | send_stream_data stays within both credits and in the language |
| Conduct.ResetStreamKeeps | src/bindings/webtransport_h2.cpp:2711-2785 | reset_stream on a stream one may send on queues a legal reset, if anything |
| Hearing.HearAny | src/bindings/webtransport_h2.cpp:340-407 | A capsule that a well-spoken peer may send raises no error, keeps all invariants, and ends the session only if it is WT_CLOSE_SESSION |
| Hearing.HearWtStream | src/bindings/webtransport_h2.cpp:409-542 | An expected WT_STREAM is delivered and accounted for, on an existing or a new entry |
| Hearing.HearWtResetStream | src/bindings/webtransport_h2.cpp:544-699 | An expected WT_RESET_STREAM ends the receive side without error |
| Hearing.HearWtStopSending | src/bindings/webtransport_h2.cpp:718-806 | An expected WT_STOP_SENDING is recorded once and answered by a reset |
| Hearing.HearWtMaxStreamData | src/bindings/webtransport_h2.cpp:848-950 | An expected WT_MAX_STREAM_DATA raises the credit, is never a decrease, and flushes |
| Dialogue.SendStreamDataInv | src/bindings/webtransport_h2.cpp:2571-2709 | send_stream_data keeps both halves of the endpoint invariant |
| Endpoint.DispatchAnswers | src/bindings/webtransport_h2.cpp:340-407 | A handler never takes back what was queued, and pushes an Error event only on the way to ending the session |
| Endpoint.EstablishInv | src/bindings/webtransport_h2.cpp:2355-2394 | Establishing a session and announcing its limits keeps all invariants |
| Sending.FlushKeeps | src/bindings/webtransport_h2.cpp:1952-2037 | Flushing keeps counters, limits and language |
| Receiving.FlushInv | src/bindings/webtransport_h2.cpp:1952-2037 | Flushing leaves the receive side as it was |
| Capsules.StreamIdRoundTrip | src/bindings/webtransport_h2.cpp:106-113 | Building a stream ID and reading its fields back lose nothing |
| SessionObject.WtSession.constructor | src/bindings/webtransport_h2.cpp:1594-1643 | A new entry holds the peer's and its own initial limits |
| SessionObject.WtSession.SendCapsule | src/bindings/webtransport_h2.cpp:1410-1419 | Appends one capsule to the stream's output and changes nothing else |
| SessionObject.WtSession.CloseSession | src/bindings/webtransport_h2.cpp:2898-2979 | Queues WT_CLOSE_SESSION once, with the longest well-formed prefix of the message within 1024 bytes, and ends the session |
| SessionObject.WtSession.ReportError | src/bindings/webtransport_h2.cpp:701-716 | Pushes the error, then closes |
| SessionObject.WtSession.MaybeSendMaxData | src/bindings/webtransport_h2.cpp:1823-1848 | In place: raises and queues the session limit exactly as the specification proved about in CreditBanded |
| SessionObject.WtSession.MaybeSendMaxStreamData | src/bindings/webtransport_h2.cpp:1850-1887 | In place: the same per stream, and nothing after a stop |
| SessionObject.WtSession.MaybeReleaseStream | src/bindings/webtransport_h2.cpp:1889-1950 | In place: frees a finished entry, remembers it within the cap, and grants the peer one more stream |
| SessionObject.WtSession.DrainStream | src/bindings/webtransport_h2.cpp:1979-2031 | The innermost loop reaches the state of the recursive specification and reports whether anything was sent |
| SessionObject.WtSession.FlushWalk | src/bindings/webtransport_h2.cpp:1961-1978 | The walk over a copy of the IDs tolerates entries released on the way |
| SessionObject.WtSession.FlushPendingSends | src/bindings/webtransport_h2.cpp:1952-2037 | The loop until no progress terminates in the state of the specification proved about in FlushServes |
| SessionObject.WtSession.OpenStream | src/bindings/webtransport_h2.cpp:2508-2569 | Hands out the next ID within the limit, or queues WT_STREAMS_BLOCKED once |
| SessionObject.WtSession.SendStreamData | src/bindings/webtransport_h2.cpp:2571-2709 | Reaches the state of the specification proved about in SendServes |
| SessionObject.WtSession.ResetStream | src/bindings/webtransport_h2.cpp:2711-2785 | Drops the queue, queues the reset with the caller's code and the bytes sent (Replies.ResetReplies, Deeds.EveryNewsIsMeant), and perhaps frees the entry |
| SessionObject.WtSession.StopSending | src/bindings/webtransport_h2.cpp:2787-2846 | Queues at most one WT_STOP_SENDING per stream and records it |
| SessionObject.WtSession.Establish | src/bindings/webtransport_h2.cpp:3391-3413 | Marks the session established and states the limits |
| SessionObject.WtSession.HandleWtStream | src/bindings/webtransport_h2.cpp:409-542 | Reaches the state of the specification judged in Rules.JudgesStream, error paths included |
| SessionObject.WtSession.HandleWtResetStream | src/bindings/webtransport_h2.cpp:544-699 | The same for WT_RESET_STREAM, unknown and released streams included |
| SessionObject.WtSession.HandleWtStopSending | src/bindings/webtransport_h2.cpp:718-806 | The same for WT_STOP_SENDING, second and unrecorded stops included |
| SessionObject.WtSession.HandleWtMaxData | src/bindings/webtransport_h2.cpp:808-846 | The same for WT_MAX_DATA, with the flush it triggers |
| SessionObject.WtSession.HandleWtMaxStreamData | src/bindings/webtransport_h2.cpp:848-950 | The same for WT_MAX_STREAM_DATA, with its three sources of the previous value |
| SessionObject.WtSession.HandleWtMaxStreams | src/bindings/webtransport_h2.cpp:952-1003 | The same for WT_MAX_STREAMS, oversized and decreased values included |
| SessionObject.WtSession.HandleWtStreamDataBlocked | src/bindings/webtransport_h2.cpp:1005-1089 | Only finished, released and wrongly directed streams are errors |
| SessionObject.WtSession.HandleCapsule | src/bindings/webtransport_h2.cpp:250-338 | One capsule reaches the state that all results about runs are about |
| Varint.RoundTrip | src/bindings/quic_varint.h:54-110 | Decoding an encoding, whatever follows it, gives the value and the length back |
| Varint.DecodeThenEncode | src/bindings/quic_varint.h:94-110 | What decodes is an encoding of the value, never shorter than the one written here, and that one if no longer |
| Varint.DecodedIsStable | src/bindings/quic_varint.h:94-110 | More input never changes what was decoded |
| Varint.VarintLength | src/bindings/quic_varint.h:30-41 | The shortest length whose room holds the value |
| Varint.Encode | src/bindings/quic_varint.h:54-80 | The bytes pushed are the big-endian digits of the value with its length bits; too large a value is refused |
| Varint.Decode | src/bindings/quic_varint.h:94-110 | The loop computes the value the bytes spell without their length bits, or reports that bytes are missing |
| Codec.ReadInverts | src/bindings/webtransport_h2.cpp:409-1268 | Reading a payload that was written gives back the capsule, for every type |
| Codec.ReadIsWritten | src/bindings/webtransport_h2.cpp:173-231 | Every capsule that is read could have been written, in no more bytes, and in these bytes if in as many |
| Codec.UnpackInverts | src/bindings/webtransport_h2.cpp:235-248 | Taking a capsule off a buffer that starts with a written one gives its type, payload and rest, or refuses it for its length |
| Codec.UnpackIsStable | src/bindings/webtransport_h2.cpp:287-336 | More input never changes the first capsule nor the refusal of one that is too long |
| Codec.ReadsExactly | src/bindings/webtransport_h2.cpp:409-1268 | What is read of any payload: the capsule whose fields it spells, integers at any length, iff there is one; nothing iff the type is unknown; a forbidden value iff a code exceeds 32 bits or a closing message is too long or no text; and else a malformed payload |
| Reader.NextCapsule | src/bindings/webtransport_h2.cpp:250-407 | The next capsule of an arbitrary peer: one that spells a capsule is dispatched and the rest read on, one of an unknown type is passed over, a forbidden value or too great a length is reported and closes the session with WT_ERROR, any other misspelling ends it without a word; after an end the rest is thrown away |
| Reader.ChunkingIsIrrelevant | src/bindings/webtransport_h2.cpp:250-338 | However the bytes are cut, and also if some were held back before acceptance, session and buffer end up as after one piece |
| Reader.BytesCarryCapsules | src/bindings/webtransport_h2.cpp:235-338 | Any cutting of the bytes of capsules within the limit dispatches exactly those capsules and leaves nothing over |
| Reader.CapsuleReader.ProcessCapsules | src/bindings/webtransport_h2.cpp:250-338 | The parsing loop reaches the state of the recursive specification, on malformed, oversized and session-ending capsules too |
| Reader.CapsuleReader.ProcessCapsule | src/bindings/webtransport_h2.cpp:340-407 | Dispatches what the payload says; malformed payloads end the session without a capsule, forbidden values with WT_ERROR |
| RecvLedger.NothingLeaks | src/bindings/webtransport_h2.cpp:1492-1559 | After any run bytes received = bytes given back + bytes counted, and bytes counted = bytes consumed and not yet given back + bytes on record |
| RecvLedger.EachByItself | src/bindings/webtransport_h2.cpp:3475-3543 | What is on record for a session, what of it waits to be parsed and whether it is up are in every run what its own events make of them, whatever other sessions do: DATA is recorded and dispatched bytes are taken off, a close or a refusal clears the record, a malformed capsule leaves it |
| RecvLedger.GivesAllBack | src/bindings/webtransport_h2.cpp:1543-1559 | Bytes are given back exactly when half the window is consumed, and then all of them |
| RecvLedger.OneSessionStaysOpen | src/bindings/webtransport_h2.cpp:3475-3543 | From the start of a connection: one session that is asked for, sends at most 32768 bytes before acceptance and lives on leaves the peer at least one byte to send, for ever |
| RecvLedger.OpenIff | src/bindings/webtransport_h2.cpp:1492-1559 | Any number of sessions, against a peer that keeps to the window: it may still send iff what is on record and what waits to be given back do not fill the window; 32768 bytes on record never do |
| RecvLedger.WindowNeverCloses | src/bindings/webtransport_h2.cpp:3475-3543 | With one live session that has at most 32768 bytes on record the peer may send at least one byte after every DATA, although early relief counts bytes twice |
| RecvLedger.ClampNeverBites | src/bindings/webtransport_h2.cpp:1543-1559 | The minimum taken before giving back is always what was consumed |
| RecvLedger.TwoSessionsCanCloseIt | src/bindings/webtransport_h2.cpp:40-52 | A run of eight events in which the peer keeps to its window: two sessions, both up, hold 32768 and 32767 bytes of unfinished capsules, and the peer may not send another byte |
| RecvLedger.ReceiveWindow.ConsumeConnectionRecvBytes | src/bindings/webtransport_h2.cpp:1543-1559 | In place: gives back once half the window is consumed |
| RecvLedger.ReceiveWindow.ConsumeRecvBytes | src/bindings/webtransport_h2.cpp:1492-1519 | In place: consumes at most what is on record for the stream |
| RecvLedger.ReceiveWindow.DiscardStreamRecvBytes | src/bindings/webtransport_h2.cpp:1530-1541 | In place: forgets a stream and consumes what it had on record |
| RecvLedger.ReceiveWindow.OnRecvData | src/bindings/webtransport_h2.cpp:3475-3543 | In place: every branch of the DATA callback, buffering before acceptance and its limit included |
| HeadersGuard.NothingLostNothingEarly | src/bindings/webtransport_h3.cpp:501-773 | However a stream is cut, bytes given to the library, then waiting, then held, are the bytes received in order; they wait only while the first frame header is incomplete and are held only behind HEADERS while its block is undecoded; no read crosses the end of HEADERS, and none goes behind it while the header block is undecoded; on a data stream that this end opened itself nothing ever waits |
| HeadersGuard.FinComesLast | src/bindings/webtransport_h3.cpp:501-773 | A received FIN is held behind held bytes or was passed on once, and then behind all bytes unless an empty FIN came while bytes were waiting |
| HeadersGuard.EmptyFinOvertakes | src/bindings/webtransport_h3.cpp:515-535 | An empty FIN goes past waiting bytes iff there are any |
| HeadersGuard.HalfHeaderIsOvertaken | src/bindings/webtransport_h3.cpp:515-535 | The first byte of a frame header and then an empty FIN: the library is told that the stream is over and empty |
| HeadersGuard.FlushSettles | src/bindings/webtransport_h3.cpp:421-467 | After a flush whatever is still held belongs to an undecoded header block |
| HeadersGuard.FlushInOrder | src/bindings/webtransport_h3.cpp:421-467 | A flush hands on, in ascending order, what each stream holds whose header block was decoded when it began, with its FIN, and nothing else |
| HeadersGuard.TakeFirst | src/bindings/webtransport_h3.cpp:555-708 | The first frame header is found however it was split; HEADERS goes on up to its end, anything else as a whole |
| HeadersGuard.TakeLater | src/bindings/webtransport_h3.cpp:709-745 | After the frame header bytes go on up to the end of HEADERS, and behind it only if the block is decoded and nothing is held |
| HeadersGuard.SixteenSuffice | src/bindings/webtransport_h3.cpp:619-639 | Sixteen bytes always hold a frame header, so a longer prefix need not be parsed |
| HeadersGuard.StreamReader.ReceiveStreamData | src/bindings/webtransport_h3.cpp:469-773 | In place: every branch of the splitter |
| HeadersGuard.StreamReader.FlushUnblockedHeldData | src/bindings/webtransport_h3.cpp:421-467 | In place: targets are settled first, then released one by one |
| HeadersGuard.StreamReader.ParseFrameHeader | src/bindings/webtransport_h3.cpp:56-80 | Both integers or nothing |
| Http2Windows.ShadowIsExact | src/bindings/http2.cpp:430-497 | After any run the window size less the bytes counted is exactly the credit the peer holds, fits 31 bits, and size plus reduction never exceeds 2^31 - 1 |
| Http2Windows.PromisesAreKept | src/bindings/http2.cpp:430-497 | After any run size, credit and DATA not yet given back are those of a simple ledger: DATA tops the peer up to the size once half of it is missing, a new size takes nothing back and raises the credit to all of it but for the DATA not yet given back, which no change of size touches |
| Http2Windows.SizeBecomesCredit | src/bindings/http2.cpp:430-497 | A size set when nothing is owed leaves the peer exactly that credit, unless it already holds more |
| Http2Windows.HalfOpenAfterData | src/bindings/http2.cpp:807-837 | After every DATA nothing is counted or less than half the window is |
| Http2Windows.StepExact | src/bindings/http2.cpp:430-497 | Every resize and every DATA keeps the shadow exact |
| Http2Windows.Http2Connection.SetLocalWindowSize | src/bindings/http2.cpp:430-497 | In place: refuses negative sizes, ignores unknown streams, and reaches the new size |
| Http2Windows.Http2Connection.ExtendRecvConnectionWindow | src/bindings/http2.cpp:807-818 | In place: counts DATA and updates at half the window |
| Http2Windows.Http2Connection.ExtendRecvStreamWindow | src/bindings/http2.cpp:820-837 | In place: the same per stream, other streams untouched |
| Http2Windows.Http2Connection.OnRecvData | src/bindings/http2.cpp:1059-1071 | Both windows account for the same bytes |
| Http2Windows.Http2Connection.RegisterStream | src/bindings/http2.cpp:780-789 | In place: a new stream starts with the configured window |
| Http2Windows.Http2Connection.UnregisterStream | src/bindings/http2.cpp:791-801 | In place: a closed stream is forgotten and no other is touched |
| Http2Windows.Http2Connection.LocalWindowSize | src/bindings/http2.cpp:678-683 | What is read is the peer's credit and fits 32 bits |
| Retention.UnackedIsHeld | src/bindings/quic.cpp:1328-1413 | After any run the held chunks are exactly the written bytes from the base offset on, hence every unacknowledged byte; less than one acknowledged chunk is held on; written then waiting bytes are the submitted ones |
| Retention.NothingIsLost | src/bindings/quic.cpp:1360-1402 | A lane is dropped iff a write found the stream gone or the application gave it up; no other failure, flow control included, costs a byte: in a run without those, bytes written then bytes waiting are all bytes submitted. What waits is always the end of what was submitted, FINs included |
| Retention.LoopGoesOn | src/bindings/quic.cpp:1328-1413 | The loop over one stream goes on until the packet is full, a call takes nothing, or nothing waits |
| Retention.AcknowledgeKeeps | src/bindings/quic.cpp:2741-2769 | An acknowledgement lets go whole chunks below it only |
| Retention.TakeKeeps | src/bindings/quic.cpp:1328-1413 | Bytes the library takes move from waiting to held, however few it takes |
| Retention.SendStream.WriteFront | src/bindings/quic.cpp:1328-1402 | In place: hold first, cut to what was taken, for every outcome |
| Retention.SendStream.WriteStream | src/bindings/quic.cpp:1328-1413 | The loop over one stream's buffers reaches the state of the recursive specification |
| Retention.SendStream.AckedStreamDataOffset | src/bindings/quic.cpp:2741-2769 | The releasing loop reaches the state of the recursive specification |
| Closing.ClosingIsSafe | src/bindings/quic.cpp:1274-1303 | Whatever the connection did while it ran, in every run after close(): all that goes out are copies of the packet made then, at most one more than the packets answered before the expiry; the first request gets one however late, and the packet is kept until then |
| Closing.UnclosedRuns | src/bindings/quic.cpp:1071-1182 | A connection that nobody closes sends exactly what the library offers until the library ends it by a fatal packet, a refused one or a fatal timer; it is closed iff one of these has happened, and from then on sends nothing, has no timer and answers every packet as closed |
| Closing.FatalSilences | src/bindings/quic.cpp:1155-1168 | After a fatal packet nothing is ever sent and there is no timer, whatever came before and comes after |
| Closing.CopyExactly | src/bindings/quic.cpp:1274-1303 | After close() a request to send gets the packet iff it is the first, or comes before the expiry with a refused packet since the last request; how every packet is answered before and after the expiry; and a second close() changes nothing |
| Closing.NothingAfterExpiry | src/bindings/quic.cpp:1062-1069 | After three probe timeouts and one delivery nothing is sent any more |
| Closing.NothingToClose | src/bindings/quic.cpp:1901-1905 | Where the library has ended the connection, or no packet can be made, close() lets nothing go out |
| Closing.TimerMatchesExpiry | src/bindings/quic.cpp:1575-1600 | The timer is the time to the expiry while a packet is held, none afterwards, and when it reads 0 after a delivery handling it discards the packet |
| Closing.QuicConnection.Close | src/bindings/quic.cpp:1901-1948 | In place: holds the packet and sets the expiry once |
| Closing.QuicConnection.Send | src/bindings/quic.cpp:1274-1303 | In place, on a running connection too: what the library offers; after close() the first copy regardless of time, later ones if asked for in time |
| Closing.QuicConnection.Receive | src/bindings/quic.cpp:1071-1182 | In place, for every verdict of the library on a packet: a fatal one ends the connection, and while closing a packet before the expiry asks for another copy |
| Closing.QuicConnection.HandleTimeout | src/bindings/quic.cpp:1605-1621 | In place: while closing discards after expiry and delivery only, while running the library may end the connection |
| Closing.QuicConnection.GetTimeoutNs | src/bindings/quic.cpp:1575-1600 | The time left to the stored expiry while closing, to that of the library while running, none otherwise |
| Utf8.WellFormedIsEncoded | src/bindings/text_util.h:18-24 | The byte patterns of section 4 of RFC 3629 and the encodings of its section 3 are the same strings |
| Utf8.IsValidUtf8 | src/bindings/text_util.h:24-65 | Accepts exactly the well-formed strings |
| Utf8.RetreatUntilValid | src/bindings/webtransport_h2.cpp:2941-2951 | Returns the longest well-formed prefix within the limit, for any input |
| Utf8.CutIsLongest | src/bindings/webtransport_h2.cpp:2930-2951 | There is one longest cut of any text, and it is the one that closing a session makes |
| Utf8.TruncateUtf8 | src/bindings/qmux.cpp:81-117 | On well-formed text the longest well-formed prefix within the limit, looking back at most three bytes |
| Utf8.TruncateVerifyMessage | src/bindings/quic.cpp:64-101 | On well-formed text the same prefix |
| Utf8.ChopIsLongest | src/bindings/qmux.cpp:72-83 | The whole characters that fit are the longest well-formed prefix |
| Utf8.CutsAgree | src/bindings/text_util.h:18-24 | Whatever finds the longest well-formed prefix of well-formed text finds the same cut as the two that look at lead bytes |
| Utf8.LosesAtMostThree | src/bindings/webtransport_h2.cpp:2930-2938 | Cutting well-formed text loses at most three bytes to the split character |
| Varint.ConnectionCloseReasonLimit | src/bindings/qmux.cpp:64-70 | A reason fits a record iff it is no longer than the limit |
| ErrorCodes.ToHttpAndBack | src/webtransport/h3/_error_codes.py:15-35 | Every 32-bit code, and no other, has a wire code; it is in the range, not reserved, and maps back |
| ErrorCodes.FromHttpAndBack | src/webtransport/h3/_error_codes.py:38-70 | Every wire code in the range that is not reserved, and no other, maps to a 32-bit code and back to itself |
| ErrorCodes.KeepsOrder | src/webtransport/h3/_error_codes.py:15-35 | The mapping is strictly increasing and its ends are the ends of the range |
| ErrorCodes.Delivery | src/webtransport/h3/_error_codes.py:73-92 | Data streams deliver a code iff the wire code is in the range and not reserved; CONNECT streams deliver the wire code |
| Lifetime.EachSessionEndsOnce | src/bindings/webtransport_h2.cpp:3100-3138 | In every run each session that entered is in the table or left it exactly once, so entered = present + closed + rejected + dropped |
| Lifetime.FateIsKept | src/bindings/webtransport_h2.cpp:1271-1354 | In every run each session fares as its own events say: reported closed when its stream ends between two capsules, kept as an error when it ends within one, an end before the answer acted upon with the answer; which event establishes, rejects, drops or terminates it in which phase |
| Lifetime.TerminatedStays | src/bindings/webtransport_h2.cpp:190-217 | A terminated session stays terminated until it leaves |
| Lifetime.EndingFits | src/bindings/webtransport_h2.cpp:2484-2504 | Only a response rejects, only the server drops, and every other departure is reported closed |
| Lifetime.SessionTable.Connect | src/bindings/webtransport_h2.cpp:2301-2311 | In place: a session enters the table with its CONNECT stream |
| Lifetime.SessionTable.AcceptSession | src/bindings/webtransport_h2.cpp:2313-2394 | In place: deferred capsules, then a stream end seen before acceptance |
| Lifetime.SessionTable.RejectSession | src/bindings/webtransport_h2.cpp:2396-2506 | In place: a refusal drops the entry silently, a 2xx leaves it terminated |
| Lifetime.SessionTable.OnResponse | src/bindings/webtransport_h2.cpp:3391-3453 | In place: established, still waiting, or rejected |
| Lifetime.SessionTable.HandleEndStream | src/bindings/webtransport_h2.cpp:1271-1354 | In place: closed at a capsule boundary, an error within one, remembered before acceptance |
| Lifetime.SessionTable.OnStreamClose | src/bindings/webtransport_h2.cpp:3100-3138 | In place: the last chance to be reported closed |

## Left out

- SessionObject.WtSession.ReportError: closes with an empty message where the source sends the text of the error, at most 1024 bytes; only codes are kept.
- `next_bidi_stream_id` and `next_uni_stream_id`: always equal to the number of streams opened, and merged with it.
- 64-bit counters are natural numbers; limits sent stay below 2^62 and 2^60 by proof, and the sum that could wrap is clamped as in the code.
- Behaviour after 4096 released IDs: a documented limit of the code, carried as a hypothesis where it matters.
- Rules.Verdict: concerns sessions whose three capped records are not full, that open no stream under an ID the peer has used and seen out, and whose 2xx comes first; Replies.CallsAnswered has the same hypotheses.
- Deeds.WordsInOrder: a stop of a stream not in use is told only while fewer than 4096 are on record, as in the code.
- Network.RunKeepsInv: the 2xx at a client that has already closed is not a step (what it makes the client queue goes unheard, as Network.LateWordsAreUnheard shows), and acceptance with deferred capsules, refusal and a stream end before acceptance are not part of two-endpoint runs; `Runs` and `Lifetime` cover them one end at a time.
- Delivery.DeliversInOrder: does not count FIN events, of which an empty FIN on a finished stream makes another.
- Delivery.EverythingArrives: concerns streams that were not reset; it assumes that fewer than 2^62 - 1 bytes were received in the session.
- Header parsing, Origin checks, SETTINGS negotiation and the WebTransport-Init header: only the limits they result in.
- The draining of queued capsules into DATA frames, and END_STREAM in answer to a close.
- RecvLedger.OneSessionStaysOpen: one session; two can hold the whole window, as RecvLedger.TwoSessionsCanCloseIt shows.
- WindowedNetwork.WindowedArrives: one session on the connection, accepted before its first capsule; the window of its HTTP/2 stream, which is given back together with that of the connection, is not modelled.
- HeadersGuard.NothingLostNothingEarly: closing a stream, which drops its guard with what it holds, is not modelled, nor what the library answers to a read.
- Http2Windows.ShadowIsExact: assumes the configured initial window is in force when the peer starts to send.
- Retention.UnackedIsHeld: one stream; the order in which streams, datagrams and plain packets share a call of send() is not modelled.
- Closing.QuicConnection.Send: what a running connection has to send, and the library's verdict on a packet, are parameters.
- PayloadLimits.NoErrorWithin: a send that violates the condition need not fail where credit splits it; the exact condition on what was queued is that of PayloadLimits.ErrorFree.
- Utf8.TruncateUtf8: on text that is not well-formed it promises only a prefix within the limit; the three ways of cutting then differ.
- Internals of nghttp2, nghttp3, ngtcp2 and dwnx, TLS, sockets, the asyncio layers and the Python bindings.
- QMux stream sending, which drops data on purpose, and the accept and reject rules of WebTransport over HTTP/3, which hang on library behaviour that is not visible here.
