# A verified model of tubus channels

tubus offers a reliable byte stream over UDP and an obfuscated byte stream over TCP. This project models both in
Dafny, down to the bytes on the wire, and proves what the two ends of a channel promise each other.

`dafny verify dfyconfig.toml` checks the whole project.

## How the model is built

Each component comes as a *specification* on values, a *class* that works the way the program does, and *laws*.

- The specification functions take a state and return the next one: `Sending` (the `ostreamer`), `Receiving` (the
  `istreamer`), `Connecting` (the `connector`), `Channel` (the glue of `feed`, `produce`, `mistake`, `read`, `write`).
- The classes `OStreamer`, `IStreamer`, `Connector` and the two `Transport`s mutate fields in loops, as the program
  does. Each method is proved equal to its specification function, so every law below is a law about the classes too.
- `SenderLaws`, `FlightLaws`, `ReceiverLaws` and `ConnectorLaws` hold the invariants of one end. `StreamLink` holds the
  invariant that spans a sender, a receiver and the wire between them, and `Handshake` the agreement of two connectors.
- `ChannelRuns` composes two full ends into one system. The network keeps every packet ever sent and may deliver each
  of them never, once or many times, in any order. A run is any list of calls (connect, accept, read, write, shutdown,
  close), deliveries and packet productions at either end, at any times and with any retransmission intervals.
  `ChannelLaws` shows that every event keeps the invariant of the whole system; `ChannelTheorems` states what
  therefore holds in every run.
- `PassLaws` says what one packet achieves and when what it sends is due again, `Retransmission` when a fragment may be
  sent again. `ChannelProgress` builds the runs that deliver everything, and `ReadProgress` says which waiting reads can
  be completed.
- `PostLaws` logs what the callers of an end ask for and says what each of their handlers may be told, `ConnectorClock`
  marks the times on which the deadlines of a connection rest, `ConnectionProgress` builds the runs that make and end
  one, and `QueryLaws` says what `writable` and `readable` promise the next call.
- `ReceiveLoop` adds the receive loop and the socket of each end to the channel runs, `ChannelBytes` the packet buffers.
  `OpenBodies` and `OpenBodyRuns` find the configurations in which a body can be left open. `ChannelSteps` builds runs
  event by event; `ChannelScenes` and `BufferScenes` hold runs that end badly, each from the start of a channel.
- `PacketCodec` and `UdpCipher` work on byte arrays: the sections of a packet are written into a reused buffer in three
  passes, trimmed, and masked in place. `UdpTransport` joins bytes and protocol: the packet that one end's `produce`
  hands to the socket is the packet that the other end's `feed` reads.
- `Keystream`, `TcpStream` and `TcpTransport` cover the TCP side: the word-at-a-time XOR refines a keystream indexed by
  absolute position, and the operation queues of both directions keep the order on which it depends. `KeystreamBits` says
  digit by digit what the generator of the keystream computes.
- `KnownAnswers` holds literal bytes: sections, headers, words in memory, a masked packet and a masked stream.

Time is a number or "never"; handlers are identified by numbers and posting one appends it to a log. A locked section
of the program is one atomic step.

The run theorems assume the following. About callers and configuration: writes are not empty, one end connects and the
other accepts, an end is closed with a code that is an error, pins are not zero, a packet has room for 56 to 65535 bytes, numbers put into packets are below 2^64, a
UDP salt differs from the secret, a TCP salt is not zero, and both ends have the same host byte order. About the code
itself: when a packet leaves with its body left open (see below), the sections that stand in the stale bytes behind it
are harmless, which means that the end could as well have sent them on purpose. This last assumption is void in every
configuration that is not `OpenBodies.Leaky`: there no body is ever left open (`OpenBodyRuns.OpenBodyIff`), and the run
theorems hold whatever the buffers contain (`OpenBodies.SafeWhateverIsStale`, `ChannelBytes.BytesAreSafe`).

What happens outside these assumptions is proved too: for empty writes by `FlightLaws.HollowLosesFlightIff` and
`ChannelScenes.EmptyWriteLosesBytes`, for stale bytes by `ChannelLaws.StaleSectionsIff`,
`UdpTransport.OpenBodyIsFatalIff` and `BufferScenes.StaleFragmentBreaksStream`, and for the two salts by
`UdpCipher.InvolutionIff` and `TcpStream.FaithfulIffSalted`.

## What the code does not do

Facts about the code as it stands, each with its proof:

- A pass of the sender that gives up at the flight limit after it has repeated a fragment writes no stub behind it.
  Some run comes to that if and only if the limit is at most 255, two fragments may be in flight and both buffers have
  room for a byte (`OpenBodyRuns.OpenBodyIff`). `trim` then searches on through the stale bytes of the reused buffer. If
  a length field there leads beyond the buffer, `crop` throws in a `noexcept` function and the process ends. Otherwise
  the peer also hears whatever stands there. The packet leaves and reads back exactly if and only if that search stays
  inside the buffer and nothing that `valid` accepts stands at the start of what it passed (`PacketCodec.UnclosedBody`).
  Whole sections keep the invariant of the channel if and only if each is harmless (`ChannelLaws.StaleSectionsIff`), as
  those are that were sent before (`ChannelLaws.SentIsHarmless`). A move section too short for its handle, which `valid`
  accepts (`PacketCodec.ShortMoveStands`), makes a streaming receiver throw in a `noexcept` function and ends its process
  (`UdpTransport.OpenBodyIsFatalIff`). Without a secret, bytes an application wrote can come back as a fragment that
  nobody sent, and the peer delivers it (`BufferScenes.StaleFragmentBreaksStream`). A pass that gives up before it has
  repeated anything leaves a closed body (`PacketCodec.NothingWritten`).
- A zero-length write is reported as refused but stays queued, and like every refused write it posts `on_error`, which
  closes the channel (`FlightLaws.EmptyWriteStays`). Until then it is cut as an empty fragment under the handle of what
  stands behind it, and bytes there get a flight of their own if and only if its echo comes back before they are cut
  (`FlightLaws.HollowIsCut`, `FlightLaws.HollowLosesFlightIff`). A receiver that has the empty fragment ignores the real
  one but acknowledges it (`ReceiverLaws.HollowShutsOut`), so a success can be reported for bytes that never arrive
  (`ChannelScenes.EmptyWriteLosesBytes`). That takes an executor that does not come to the posted `on_error` for a round
  trip; one thread that runs handlers in order closes the channel first.
- A `connect` can stay without an answer between two ends that both follow the program: the listener's link echo is
  lost, its tear arrives, and a second packet arrives between the tear echo and the moment at which `produce` closes the
  socket (`ReceiveLoop.LostLinkEchoStrandsConnect`). The exact condition is `ReceiveLoop.ConnectStrandedIff`; the state
  is final until someone closes the channel (`ReceiveLoop.StrandedStays`). Without the second packet, closing the socket
  answers the `connect` (`ReceiveLoop.LostLinkEchoIsAnswered`). An `accept` is always answered
  (`ChannelTheorems.AcceptIsAnswered`).
- A waiting front read can be completed if and only if it asks for no more than the receive buffer
  (`ReadProgress.FrontReadCompletesIff`); a longer one never holds more than the buffer's worth
  (`ChannelProgress.OversizedReadStalls`).
- `writable` counts up to an exact fill of the send buffer, which `append` refuses (`FlightLaws.WritableIsAccepted`,
  `QueryLaws.WritableIsTaken`).
- `move_attempts` is honoured if and only if it lies in 1 to 255 (`FlightLaws.LimitIsHonouredIff`): 0 acts as 256, and a
  limit above 255 is never reached (`FlightLaws.AttemptsAreBounded`, `FlightLaws.LargeLimitNeverBreaks`).
- A second `shutdown` of a peer that is already tearing replaces the handler of the first (`ConnectorLaws.ShutdownBook`).
- Queued TCP reads are checked against the queued writes. They stay within the receive buffer along a run if and only if
  each accepted read would fit behind them (`TcpTransport.ReadsBoundedIff`), and no number bounds them in all runs
  (`TcpTransport.ReadsAreNotBounded`).

## Model

| member | source | states |
|---|---|---|
| `ChannelTheorems.StreamSafety` | src/tubus/udp/channel.cpp:429-804 | in every run, packets with stale bytes behind an open body included as long as those are harmless, the bytes placed in reads, completed ones in order and then the partial front one, are a prefix of the concatenated accepted writes |
| `ChannelTheorems.NothingLost` | src/tubus/udp/channel.cpp:457-473 | in every run, while both ends are open, every accepted byte is in the send queue, in the flight table or at the receiver, with its right value and position |
| `ChannelTheorems.AcksAreSound` | src/tubus/udp/channel.cpp:398-417 | in every legal run every byte a write reported as sent, in a success or in an error's partial count, has arrived at the peer and is in its buffer or reads while the peer is open |
| `ChannelTheorems.SuccessesInOrder` | src/tubus/udp/channel.cpp:409-416 | successes come in the order and with the sizes of the accepted writes; the pending writers tile the stream from the completed bytes to the tail |
| `ChannelTheorems.SuccessesArePrefix` | src/tubus/udp/channel.cpp:381-417 | in every reached state, after errors too, the writes reported with success are the first accepted ones, in order and with their full sizes |
| `SenderLaws.RefundAt` | src/tubus/udp/channel.cpp:378-398 | `error` reports every pending write in its turn: the i-th further post carries the id of the i-th writer, the code given, and the number of its bytes below the acknowledged cursor, counted one by one |
| `PostLaws.FailedWritesSayWhy` | src/tubus/udp/channel.cpp:378-398 | in every run a write that is not a success found no space and reports no byte, or carries a code the end was closed with or that of an aborted connection; nobody hears of a write that was not asked for |
| `ChannelTheorems.FlowControl` | src/tubus/udp/channel.cpp:457-467 | send head <= sender's range <= receiver's edge <= receiver's head + buffer size, so the credit never underflows and buffered bytes stay within the buffer |
| `ChannelTheorems.NoFragmentRefused` | src/tubus/udp/channel.cpp:788-804 | in no legal run does `map` refuse a fragment of the peer, open or closed |
| `QueryLaws.TearsComeLast` | src/tubus/udp/channel.cpp:896-926 | an end that is not leaving yet first serves its reads and settles its writes from the whole packet; only then, if a tear in it makes it leave, it answers the rest, and all of it, with connection_aborted |
| `QueryLaws.FragmentsAreAcknowledged` | src/tubus/udp/channel.cpp:645-676 | in every run an end that accepts, connects or is linked, before and after a packet of its peer, has exactly the fragments of the packet to acknowledge besides those it had |
| `ReceiverLaws.BeyondIsRefused` | src/tubus/udp/channel.cpp:788-804 | for every receiver and peer: a fragment at or behind the tail is refused, and the rest of its packet not heard, exactly if it ends before the head or beyond the receive buffer; otherwise it is acknowledged, and mapped unless its place is taken |
| `ChannelTheorems.NoWindowUpdateLost` | src/tubus/udp/channel.cpp:665-672 | whenever the edge job is disarmed, the sender's range equals the receiver's edge, despite stale, repeated and reordered edges and echoes |
| `SenderLaws.CreditIsGreatest` | src/tubus/udp/channel.cpp:419-425 | hearing a packet raises the credit to the greatest edge in it if that is greater, and if there is an edge the credit is due to be echoed; no lower value is |
| `ReceiverLaws.TransmitEdge` | src/tubus/udp/channel.cpp:733-760 | serving reads has the edge announced again, at once, exactly if it has moved |
| `ChannelTheorems.Reassembly` | src/tubus/udp/channel.cpp:762-804 | the map's entries are disjoint non-empty true slices of the stream from head on, the tail is the end of the last one or the head, and what was delivered is the stream up to head |
| `ChannelTheorems.ReadsInOrder` | src/tubus/udp/channel.cpp:733-760 | the edge is the buffer size plus the completed read bytes, only the front read is partly filled, and a front read that the buffer can hold ends within the edge |
| `PostLaws.ReadsAreAnsweredInTurn` | src/tubus/udp/channel.cpp:735-760 | in every run reads are answered in the order of the calls, each once: a success has filled its whole buffer, a failure carries a code the end was closed with or that of an aborted connection |
| `ReceiverLaws.ErrorAborts` | src/tubus/udp/channel.cpp:631-643 | `error` answers every waiting read in its turn, with its id, the code given, and the bytes its buffer then holds |
| `ChannelTheorems.ReadableIsExact` | src/tubus/udp/channel.cpp:717-729 | in every run `readable` is the length of the gapless run behind the head when no read waits, and 0 when one does |
| `QueryLaws.ReadableIsServed` | src/tubus/udp/channel.cpp:1292-1296 | in every run `readable` is 0 unless the end is linked and no read waits; then a read of no more than that completes at once with the next bytes of the stream, and a longer one takes all of them and waits |
| `QueryLaws.WritableIsTaken` | src/tubus/udp/channel.cpp:1286-1290 | in every run a number of bytes is within `writable` exactly if the end is linked, they lie below the credit, and the uncut bytes stay within the send buffer; a linked end takes a write, and the stream grows by it, exactly if they stay below the send buffer, and otherwise only refuses it with no_buffer_space |
| `QueryLaws.OnlyLinkedEndsServe` | src/tubus/udp/channel.cpp:1250-1284 | outside the linked phase `read` and `write` are turned away with the code of the phase and change nothing else, and both queries give 0 |
| `QueryLaws.OnlyFreshEndsJoin` | src/tubus/udp/channel.cpp:1195-1248 | outside the initial phase `connect` and `accept` are turned away: by the channel without permission, by the connector with the code of its phase |
| `ChannelTheorems.ConnectionAgreement` | src/tubus/udp/channel.cpp:95-137 | an established end knows its peer's pin, the peer knows its pin, and an established caller implies that the listener has been linked |
| `ConnectionProgress.ConnectionIsMade` | src/tubus/udp/channel.cpp:95-137 | from every reached state in which the caller connects and its link is due, and the listener accepts or is linked already because its answer was lost, with neither past its deadline, some run goes on until both are linked and have told their callers so |
| `ConnectionProgress.ShutdownIsAnswered` | src/tubus/udp/channel.cpp:138-160 | from every reached state in which an end leaves, its tear is due, and the peer is linked or leaving too, with neither past its deadline, some run goes on until both are finished, and every `shutdown` handler kept at either has been told of success |
| `ConnectionProgress.RequestsAreEchoed` | src/tubus/udp/channel.cpp:103-168 | in every phase the next packet with room echoes what was heard: a link by a link echo, a tear by a tear echo, a ping by a ping echo |
| `ChannelTheorems.ShutdownAgreement` | src/tubus/udp/channel.cpp:138-160 | a shutdown completed by a tear echo finds the peer finished; whoever sends a tear echo had a peer that had itself begun a shutdown |
| `PostLaws.HandlersAreToldTheTruth` | src/tubus/udp/channel.cpp:73-93 | in every run: a `shutdown` handler given while linked or tearing hears of success only if the peer is finished or had begun a shutdown, a `connect` or `accept` handler only if the end, and with a caller the listener too, has been linked; any other code is one the end was closed with; a `shutdown` that starts nothing is told at once what its phase says |
| `ConnectorLaws.ErrorPosts` | src/tubus/udp/channel.cpp:73-93 | `error` answers the kept handlers with exactly the code given, `connect` before `shutdown`, and keeps none |
| `ConnectorClock.GivesUpIff` | src/tubus/udp/channel.cpp:185-199 | in every run, at every time: an end that is not finished raises `interrupted`, and its connector sends nothing, exactly if its `connect` or `accept` was called longer ago than its timeout, a linked peer has been silent for the ping timeout and five seconds, or leaving began longer ago than its timeout; otherwise it raises nothing |
| `ConnectorLaws.PingsAreEchoed` | src/tubus/udp/channel.cpp:161-178 | a ping heard is echoed at the next chance with its own stamp unless an earlier one waits; an echo puts the next ping off by the ping timeout |
| `ConnectorClock.CallersPing` | src/tubus/udp/channel.cpp:117-137 | in every run a linked caller keeps a ping to send, so neither end falls silent for good |
| `ChannelTheorems.ConnectUnansweredIff` | src/tubus/udp/channel.cpp:240-250 | in every run a finished end still holds its connect handler if and only if it has sent a tear echo, was never linked and has not been closed since; whether a callback still to come will close it is `ReceiveLoop.ConnectStrandedIff` |
| `ReceiveLoop.ConnectStrandedIff` | src/tubus/udp/channel.cpp:928-1048 | on a finished end whose socket is closed, a held connect handler has nothing outstanding that would answer it if and only if the end sent a tear echo unlinked, `consume` had found the connector finished before the socket was closed, no `on_error` was posted and nobody has closed the end since |
| `ReceiveLoop.StrandedStays` | src/tubus/udp/channel.cpp:928-1048 | such a handler stays unanswered through every event at either end but a close |
| `ReceiveLoop.FailureAnswers` | src/tubus/udp/channel.cpp:1020-1033 | as long as the receive loop has an operation outstanding, its failure answers the `connect` with the code of the failure, whichever error it is |
| `ReceiveLoop.LostLinkEchoStrandsConnect` | src/tubus/udp/channel.cpp:928-937 | a run in any configuration: the link echo is lost, the tear arrives twice, the second time before `produce` closes the socket; the `connect` is stranded |
| `ReceiveLoop.LostLinkEchoIsAnswered` | src/tubus/udp/channel.cpp:1041-1048 | the same run without the second tear: closing the socket makes the waiting operation fail, and the `connect` is answered |
| `ChannelTheorems.AcceptIsAnswered` | src/tubus/udp/channel.cpp:224-235 | in every run a listener that is no longer accepting has posted every handler it was given, but for a pending or replaced shutdown: an `accept` is always answered |
| `ChannelTheorems.PhasesAreArmed` | src/tubus/udp/channel.cpp:267-339 | in every run connecting holds a link job and a connect handler, shutting a tear job and a shutdown handler, and no empty handler was ever posted |
| `ChannelTheorems.HandlersConserved` | src/tubus/udp/channel.cpp:73-93 | in every run handlers posted, kept and replaced are exactly those given; after `error` each one not replaced has been posted exactly once |
| `ChannelTheorems.RunsOnlyAdvance` | src/tubus/udp/channel.cpp:896-926 | along every run phases never go back, reads only gain bytes, the reassembly tail and the written stream only grow and a known remote pin is never exchanged |
| `ChannelTheorems.ReachedInv` | src/tubus/udp/channel.cpp:1037-1097 | every state that any legal run reaches satisfies the invariant of both ends, both directions and the handshake; legal means the assumptions above, so stale sections behind an open body must be harmless |
| `ChannelTheorems.RunKeeps` | src/tubus/udp/channel.cpp:896-1097 | the system invariant is kept along every legal list of events at either end, whatever harmless sections stand behind open bodies |
| `ChannelLaws.StepKeeps` | src/tubus/udp/channel.cpp:883-926 | every legal event at one end, calls included, keeps the system invariant |
| `ChannelLaws.DeliveryKeeps` | src/tubus/udp/channel.cpp:896-926 | hearing any packet ever sent, however old or often, keeps the system invariant |
| `ChannelLaws.ProductionKeeps` | src/tubus/udp/channel.cpp:1037-1097 | producing a packet with all three passes, the early return of the last one included, keeps the system invariant |
| `ChannelLaws.EmissionKeeps` | src/tubus/udp/channel.cpp:1037-1066 | so does the packet that really leaves: the produced sections and, behind a body left open, the harmless sections that stand in the stale bytes |
| `ChannelLaws.StaleSectionsIff` | src/tubus/udp/channel.cpp:445-449 | a packet with a body left open keeps the system invariant if and only if every section that stands in the stale bytes behind it is harmless; for the theorems about streams this is sufficient |
| `ChannelLaws.SentIsHarmless` | src/tubus/udp/channel.cpp:445-449 | every section an end has sent before is harmless behind an open body |
| `OpenBodyRuns.OpenBodyIff` | src/tubus/udp/channel.cpp:434-451 | in a packet of 56 bytes or more, some run leaves a body open if and only if the limit is at most 255, two fragments may be in flight, and the send and the receive buffer have room for a byte |
| `OpenBodies.SafeWhateverIsStale` | src/tubus/udp/channel.cpp:434-451 | in every other configuration every run delivers a prefix of the written stream with no assumption on stale bytes: the run is legal, so all run theorems hold of it |
| `ChannelBytes.BytesAreSafe` | src/tubus/udp/channel.cpp:1051-1066 | the same for runs on the packet buffers themselves, whatever they hold at first and with any secret |
| `BufferScenes.StaleFragmentBreaksStream` | src/tubus/udp/channel.cpp:445-449 | a run on the packet buffers, from any initial contents: without a secret an application's payload leaves a fragment in the buffer, a later open body ends in front of it, and the peer delivers a byte that was never written |
| `ChannelLaws.ShutdownKeeps` | src/tubus/udp/channel.cpp:1185-1193 | a shutdown in any phase keeps the system invariant |
| `ChannelLaws.CloseKeeps` | src/tubus/udp/channel.cpp:883-894 | an error or close of one end, with any code but success, keeps the system invariant, including what the other end may rely on |
| `ChannelProgress.EveryByteArrives` | src/tubus/udp/channel.cpp:1037-1097 | progress: from every established connection that is on time, has no due flight at its limit, no flight that is neither due nor at the peer, an edge that is due or known and no read longer than the receive buffer, with packets of 56 bytes or more, a swarm and a receive buffer, some legal run ends with every written byte delivered in order and every write settled |
| `ChannelProgress.Round` | src/tubus/udp/channel.cpp:1037-1097 | once both ends have said all they can, nothing is in flight and the sender's range is the receiver's edge; if the round began with an empty flight table, credit and queued bytes, something has been cut |
| `ChannelProgress.Advance` | src/tubus/udp/channel.cpp:733-760 | as long as not everything has been cut, a round, after a read if the window is full, cuts further |
| `ChannelProgress.NoGap` | src/tubus/udp/channel.cpp:762-804 | with nothing in flight the receiver holds every byte cut so far without a gap |
| `ChannelProgress.OversizedReadStalls` | src/tubus/udp/channel.cpp:733-760 | a front read longer than the receive buffer never completes while both ends are open: in every run it holds at most the buffer's worth |
| `ReadProgress.FrontReadCompletesIff` | src/tubus/udp/channel.cpp:733-760 | from the same connections, whatever the waiting reads ask for and with a send buffer that takes a byte, some legal run completes the front read if and only if it asks for no more than the receive buffer |
| `PassLaws.SenderPass` | src/tubus/udp/channel.cpp:429-485 | with no due flight at its limit a pass never gives up, every section it sends is one thing less to send, what it sends is due again after the interval, and an empty pass means that nothing that is due fits |
| `PassLaws.PassStamps` | src/tubus/udp/channel.cpp:429-485 | for every interval, every room and however a pass ends: each flight whose fragment is in the packet is due again exactly one interval from now, every other flight stays due when it was, no data changes, and every fragment sent is in flight |
| `SenderLaws.CutsAsMuchAsFits` | src/tubus/udp/channel.cpp:457-473 | the first fragment cut is as long as the first chunk, the credit and the room allow; none is cut exactly if nothing is queued, the credit is used up, no byte has room, or the swarm is full |
| `PassLaws.RepeatsInOrder` | src/tubus/udp/channel.cpp:434-455 | retransmission begins with the oldest fragment that is due and fits, and goes on in the order of the stream |
| `PassLaws.AcksInOrder` | src/tubus/udp/channel.cpp:678-694 | acknowledgements stand in the order of the stream, and those left for later come behind all that are sent |
| `PassLaws.EdgesInOrder` | src/tubus/udp/channel.cpp:475-482 | so do the echoes of edges |
| `Retransmission.SentOnceUntilDue` | src/tubus/udp/channel.cpp:434-456 | in every run of writes, packets and acknowledgements, a fragment that a packet filled at `now` holds is in no later packet filled at or before `now` plus the interval, whatever the other packets' intervals are |
| `PassLaws.SenderDeferred` | src/tubus/udp/channel.cpp:503-506 | a sender that is not deferred sends nothing whenever asked; one that is sends something, or gives up, as soon as its flights are due and the packet holds them |
| `PassLaws.ReceiverPass` | src/tubus/udp/channel.cpp:678-704 | every acknowledgement or edge sent is one thing less to send, the edge goes out only when its time has come and is due again one interval from now, each pending acknowledgement is sent or kept, and an empty pass means that nothing is due |
| `PassLaws.ReceiverDeferred` | src/tubus/udp/channel.cpp:712-715 | the same of a receiver: an acknowledgement or its edge |
| `PassLaws.ConnectorPass` | src/tubus/udp/channel.cpp:185-260 | a linked connector that is on time sends exactly its ready jobs and stays linked; requests are due again one interval from now, echoes are gone, other jobs keep their time |
| `PassLaws.ConnectorDeferred` | src/tubus/udp/channel.cpp:341-344 | the same of a connector: a job |
| `ChannelScenes.EmptyWriteLosesBytes` | src/tubus/udp/channel.cpp:487-501 | a run whose only illegal event is an empty write, and in which the `on_error` that the refusal posted has not been executed by the end, reports a later write as sent although its byte is nowhere: not queued, not in flight, not at the peer |
| `StreamLink.WriteKeeps` | src/tubus/udp/channel.cpp:487-501 | an accepted or refused write keeps the invariant that ties sender, wire and receiver together |
| `StreamLink.SendKeeps` | src/tubus/udp/channel.cpp:429-485 | retransmitting, cutting and echoing keep it: what is sent are true slices of the stream within the credit |
| `StreamLink.SenderHearsAll` | src/tubus/udp/channel.cpp:398-427 | any acknowledgements and edges ever sent by the receiver keep it, whatever their age |
| `StreamLink.ReceiverHearsAll` | src/tubus/udp/channel.cpp:645-676 | any fragments and edge echoes ever sent by the sender keep it, and none is refused |
| `StreamLink.ReadKeeps` | src/tubus/udp/channel.cpp:706-710 | a new read keeps it |
| `StreamLink.ReplyKeeps` | src/tubus/udp/channel.cpp:678-704 | acknowledging fragments and announcing the edge keep it |
| `StreamLink.SenderCloses` | src/tubus/udp/channel.cpp:375-396 | the sender's error keeps it; counts reported then speak of arrived bytes only |
| `StreamLink.ReceiverCloses` | src/tubus/udp/channel.cpp:631-643 | the receiver's error keeps it although the tail is not reset |
| `StreamLink.CutQueue` | src/tubus/udp/channel.cpp:519-536 | a cut fragment is the next slice of the stream and the queue still holds exactly the rest |
| `StreamLink.HeadWithinCredit` | src/tubus/udp/channel.cpp:457-467 | the send head never passes the range |
| `StreamLink.PullApart` | src/tubus/udp/channel.cpp:780-783 | re-keying the remainder of a partial pull never collides with another entry, and entries stay apart |
| `StreamLink.PullSettled` | src/tubus/udp/channel.cpp:764-786 | taking bytes from the head keeps every fragment that ever arrived accounted for, and no other |
| `StreamLink.PlaceKeeps` | src/tubus/udp/channel.cpp:788-804 | inserting a fragment keeps the map's entries apart, true to the stream and settled |
| `StreamLink.NeverRefused` | src/tubus/udp/channel.cpp:790-791 | a fragment within the credit chain passes the space check |
| `SenderLaws.ParseKeeps` | src/tubus/udp/channel.cpp:398-427 | acknowledgements keep the writers' ledger: settled writes, then pending ones, are the accepted ones, tiling the stream |
| `SenderLaws.ImbueKeeps` | src/tubus/udp/channel.cpp:429-485 | sending keeps at most `snippet_swarm` disjoint flights behind the head and does not move the acknowledged cursor |
| `SenderLaws.AppendKeeps` | src/tubus/udp/channel.cpp:487-501 | an accepted write extends the ledger by exactly its claim, a refused one leaves it |
| `SenderLaws.ErrorAccounts` | src/tubus/udp/channel.cpp:375-396 | on error the successful sizes and the reported partial counts add up to the acknowledged cursor |
| `SenderLaws.CutSections` | src/tubus/udp/channel.cpp:457-473 | cutting fills the packet without overrunning its room and sends fragments only |
| `Sending.ResendFrame` | src/tubus/udp/channel.cpp:434-455 | retransmission repeats flights unchanged under their handles, changes nothing but times and attempts, and fits its room |
| `Sending.OverdueShrinks` | src/tubus/udp/channel.cpp:437-451 | a retransmitted flight is no longer overdue: the loop ends and sends each at most once |
| `FlightLaws.SendsOncePerPacket` | src/tubus/udp/channel.cpp:429-485 | one call of `imbue` sends any fragment at most once, repeated and new ones together |
| `FlightLaws.AttemptsAreBounded` | src/tubus/udp/channel.cpp:445-451 | over every run of writes, packets and acknowledgements no fragment is sent more often than the limit before the first broken pipe, and that comes only at the limit |
| `FlightLaws.LargeLimitNeverBreaks` | src/tubus/udp/channel.cpp:592-604 | with a limit above 255 the 8-bit counter never reports a broken pipe, in no run of writes, packets and acknowledgements |
| `FlightLaws.LimitIsHonouredIff` | src/tubus/udp/channel.cpp:445-451 | no run of non-empty writes sends a fragment more often than the limit says if and only if the limit lies in 1 to 255 |
| `FlightLaws.EmptyWriteStays` | src/tubus/udp/channel.cpp:487-501 | an accepted empty write is reported as refused, posts `on_error` and stays queued |
| `FlightLaws.HollowStays` | src/tubus/udp/channel.cpp:538-547 | further writes, empty or not, line up behind it |
| `FlightLaws.HollowMovesUp` | src/tubus/udp/channel.cpp:519-536 | pulling what stands before it brings the empty chunk to the front, with everything behind it in order |
| `FlightLaws.HollowIsCut` | src/tubus/udp/channel.cpp:457-473 | it is cut as an empty fragment under the handle that what stands behind it is cut with next, be that bytes or another empty chunk |
| `FlightLaws.HollowLosesFlightIff` | src/tubus/udp/channel.cpp:457-473 | whatever is queued behind, the bytes next to it get a flight of their own if and only if the echo of the empty fragment is heard before they are cut |
| `FlightLaws.WritableIsAccepted` | src/tubus/udp/channel.cpp:508-513 | a write of exactly `writable()` bytes is accepted if and only if the credit is below the send buffer; smaller ones always are |
| `ReceiverLaws.TransmitKeeps` | src/tubus/udp/channel.cpp:733-760 | `transmit` ends with no read or no contiguous data left and keeps the reader accounting |
| `ReceiverLaws.TransmitDelivers` | src/tubus/udp/channel.cpp:733-760 | what reads hold only grows, at its end |
| `ReceiverLaws.FillFrontKeeps` | src/tubus/udp/channel.cpp:741-746 | filling the front read appends exactly the bytes pulled from the head |
| `ReceiverLaws.ParseKeeps` | src/tubus/udp/channel.cpp:645-676 | hearing a packet keeps the reader accounting and leaves nothing deliverable |
| `ReceiverLaws.AppendKeeps` | src/tubus/udp/channel.cpp:706-710 | a new read keeps the reader accounting and leaves nothing deliverable |
| `ReceiverLaws.ErrorDelivers` | src/tubus/udp/channel.cpp:631-643 | on error the partial fills are returned: what reads received does not change |
| `ReceiverLaws.ReadableMeaning` | src/tubus/udp/channel.cpp:717-729 | `readable` is the contiguous byte count without waiting reads and 0 with them |
| `ReceiverLaws.ReadableBytesMeaning` | src/tubus/udp/channel.cpp:827-839 | `readable_bytes` is the length of the maximal gapless run: every byte of it is covered and the next one is not |
| `ReceiverLaws.BufferedFits` | src/tubus/udp/channel.cpp:788-804 | disjoint entries between two offsets hold no more bytes than lie between them |
| `ReceiverLaws.HollowShutsOut` | src/tubus/udp/channel.cpp:788-804 | an empty fragment in the map shuts out the real one under its handle, and the real one is acknowledged all the same |
| `ConnectorLaws.ParseAllKeeps` | src/tubus/udp/channel.cpp:103-183 | hearing any sections keeps slots and jobs matched to the phase and never lowers the phase |
| `ConnectorLaws.RunJobsKeeps` | src/tubus/udp/channel.cpp:200-257 | sending the jobs keeps slots and jobs matched to the phase and never lowers it |
| `ConnectorLaws.FitsAlways` | src/tubus/udp/channel.cpp:200-257 | given room for the ready jobs, each is sent exactly once, none is ready afterwards and the room is used exactly |
| `ConnectorLaws.FortyBytesSuffice` | src/tubus/udp/channel.cpp:200-223 | 40 bytes of body hold every combination of ready jobs |
| `ConnectorLaws.ParseAllBook` | src/tubus/udp/channel.cpp:122-160 | hearing sections neither loses nor repeats a handler |
| `ConnectorLaws.RunJobsBook` | src/tubus/udp/channel.cpp:224-250 | sending the jobs neither loses nor repeats a handler |
| `ConnectorLaws.ConnectBook` | src/tubus/udp/channel.cpp:297-339 | connect and accept keep or post the new handler in every phase |
| `ConnectorLaws.ShutdownBook` | src/tubus/udp/channel.cpp:267-295 | a shutdown handler is kept, posted, or pushed out by a later shutdown |
| `ConnectorLaws.ErrorBook` | src/tubus/udp/channel.cpp:73-93 | `error` posts every handler that was kept, once |
| `ConnectorLaws.RemoteSticks` | src/tubus/udp/channel.cpp:95-137 | a known peer pin survives every admitted packet |
| `Handshake.HearAllPact` | src/tubus/udp/channel.cpp:103-183 | hearing any sections the peer ever sent keeps the agreement of the two connectors |
| `Handshake.JobsPact` | src/tubus/udp/channel.cpp:200-257 | sending jobs keeps the agreement, with the sections sent added to the wire |
| `Handshake.ConnectPact` | src/tubus/udp/channel.cpp:297-339 | connect at the caller and accept at the listener keep the agreement |
| `Handshake.ShutdownPact` | src/tubus/udp/channel.cpp:267-295 | shutdown in any phase keeps the agreement |
| `Handshake.ErrorPact` | src/tubus/udp/channel.cpp:73-93 | an error at one end keeps the agreement |
| `OStreaming.OStreamer.Parse` | src/tubus/udp/channel.cpp:398-427 | the nested loops over sections and writers compute the specified new sender |
| `OStreaming.OStreamer.Resend` | src/tubus/udp/channel.cpp:434-455 | the search-and-send loop emits the specified retransmissions, or gives up at the specified flight |
| `OStreaming.OStreamer.Cut` | src/tubus/udp/channel.cpp:457-473 | the cutting loop emits the specified fragments and flights |
| `OStreaming.OStreamer.EchoEdges` | src/tubus/udp/channel.cpp:475-482 | the echo loop emits and forgets the specified edges |
| `OStreaming.OStreamer.Imbue` | src/tubus/udp/channel.cpp:429-485 | the three loops together refine the specified pass, giving-up branch included |
| `OStreaming.OStreamer.Append` | src/tubus/udp/channel.cpp:487-501 | writes are queued or refused as specified, the empty one included |
| `OStreaming.OStreamer.Error` | src/tubus/udp/channel.cpp:375-396 | the loop posts the specified counts, and the buffer, flights and writers are reset |
| `OStreaming.OStreamer.Pull` | src/tubus/udp/channel.cpp:519-536 | the chunk taken and the queue left are the specified ones |
| `OStreaming.OStreamer.Writable` | src/tubus/udp/channel.cpp:508-513 | every write shorter than the result is accepted; when it is positive it lies within the credit, and a write of exactly that length is accepted if and only if the credit is below the send buffer; when it is 0 the stream has reached the credit or filled the send buffer |
| `IStreaming.IStreamer.Parse` | src/tubus/udp/channel.cpp:645-676 | the loop, its early exit on a refused fragment and the transmission after it compute the specified receiver, and the result tells whether a fragment was refused |
| `IStreaming.IStreamer.Transmit` | src/tubus/udp/channel.cpp:733-760 | the nested loops compute the specified deliveries |
| `IStreaming.IStreamer.Pull` | src/tubus/udp/channel.cpp:764-786 | the bytes taken from the head and the re-keyed remainder are the specified ones |
| `IStreaming.IStreamer.Map` | src/tubus/udp/channel.cpp:788-804 | fragments are refused, ignored or inserted as specified |
| `IStreaming.IStreamer.Imbue` | src/tubus/udp/channel.cpp:678-704 | acknowledgements and the edge are emitted as specified |
| `IStreaming.IStreamer.Append` | src/tubus/udp/channel.cpp:706-710 | a read is queued and served as specified |
| `IStreaming.IStreamer.Error` | src/tubus/udp/channel.cpp:631-643 | partial reads are posted, and the buffer is cleared as specified: the tail and the edge stay |
| `IStreaming.IStreamer.ReadableBytes` | src/tubus/udp/channel.cpp:827-839 | the loop finds the end of the gapless run |
| `IStreaming.IStreamer.Readable` | src/tubus/udp/channel.cpp:717-729 | the loop over the waiting reads computes the specified count |
| `ConnectorObject.Connector.Parse` | src/tubus/udp/channel.cpp:103-183 | the loop over the sections computes the specified connector |
| `ConnectorObject.Connector.RunJobs` | src/tubus/udp/channel.cpp:200-257 | the search-and-send loop emits the specified sections and posts the specified handlers |
| `ConnectorObject.Connector.Imbue` | src/tubus/udp/channel.cpp:185-260 | the timeout branch and the job loop refine the specified pass |
| `ConnectorObject.Connector.Shutdown` | src/tubus/udp/channel.cpp:267-295 | every branch as specified |
| `ConnectorObject.Connector.Connect` | src/tubus/udp/channel.cpp:297-318 | every branch as specified |
| `ConnectorObject.Connector.Accept` | src/tubus/udp/channel.cpp:320-339 | every branch as specified |
| `ConnectorObject.Connector.Error` | src/tubus/udp/channel.cpp:73-93 | both slots are posted once and the connector is reset and finished |
| `UdpTransport.Transport.Feed` | src/tubus/udp/channel.cpp:896-926 | received bytes are recovered, checked and heard by streams and connector exactly as the channel model says, or leave the state alone; the process ends exactly when a streaming end comes to a move section too short for its handle before it refuses a fragment |
| `UdpTransport.Transport.Produce` | src/tubus/udp/channel.cpp:1037-1078 | the state is that of the channel model; what leaves is the pin and the produced sections, encoded and obfuscated, followed, if the body was left open, by the stale bytes up to the end of the search for a stub; or the process aborts if that search leaves the buffer; the buffer then holds what was written and masked and, behind it, what it held before |
| `UdpTransport.Transport.Gather` | src/tubus/udp/channel.cpp:1051-1059 | the three passes share the room of one packet and never overrun it, and the body is left open only after a repeated fragment |
| `UdpTransport.Transport.Assembled` | src/tubus/udp/channel.cpp:1051-1061 | the trimmed buffer is the header and exactly the three section lists, whatever the buffer held before |
| `UdpTransport.Transport.Mistake` | src/tubus/udp/channel.cpp:883-894 | connector and streams are reset as the channel model says |
| `UdpTransport.Transport.Read` | src/tubus/udp/channel.cpp:1250-1270 | served when linked, otherwise turned away with the code of the phase |
| `UdpTransport.Transport.Connect` | src/tubus/udp/channel.cpp:1195-1218 | passed to the connector in the initial phase, otherwise turned away |
| `UdpTransport.PacketsSurvive` | src/tubus/udp/channel.cpp:1063-1066 | what one end puts on the wire, the other end reads back as the same pin and sections, and after them whatever stands in the bytes that trail behind, a section too short for its handle included |
| `UdpTransport.DispatchArrives` | src/tubus/udp/channel.cpp:1061-1066 | every packet that leaves an end arrives as its pin, its sections, and what stands in the stale bytes behind an open body |
| `UdpTransport.OpenBodyIsFatalIff` | src/tubus/udp/channel.cpp:645-656 | a packet with an open body ends the process of a streaming receiver that admits it if and only if a section too short for its handle stands behind the body and no fragment in front of that section is refused |
| `UdpTransport.PacketEncodable` | src/tubus/udp/proto.h:62-68 | in a packet below 64 KiB no 16-bit length field wraps |
| `PacketCodec.Assemble` | src/tubus/udp/proto.h:177-195 | three passes, each after its own scan for the stub, and `trim` yield exactly header and sections; stale bytes of the reused buffer never show, and behind the last stub they stay |
| `PacketCodec.Pass` | src/tubus/udp/proto.h:182-190 | a pass appends its sections after those already there and closes the body again |
| `PacketCodec.FindStub` | src/tubus/udp/proto.h:182-190 | the search is the specified walk, and reports when a length field leads beyond the buffer |
| `PacketCodec.WalkEncoded` | src/tubus/udp/proto.h:182-190 | the search passes over encoded sections, whatever they are, and goes on with what follows them |
| `PacketCodec.WalkHeld` | src/tubus/udp/proto.h:182-190 | in a closed body the search ends exactly behind the sections |
| `PacketCodec.AssembleOpen` | src/tubus/udp/channel.cpp:445-449 | after an early return the buffer is header, sections and then the stale bytes, and `trim` walks on into those |
| `PacketCodec.PacketRoundTrip` | src/tubus/udp/proto.h:147-180 | a sealed packet parses to its signature, version, pin and exactly the concatenated section lists |
| `PacketCodec.FrontRoundTrip` | src/tubus/udp/proto.h:70-145 | type, length, value and `advance` recover any encoded section and leave the rest |
| `PacketCodec.ParseEncoded` | src/tubus/udp/proto.h:70-111 | encoded sections parse back to themselves and parsing goes on with what follows |
| `PacketCodec.StubEnds` | src/tubus/udp/proto.h:44-47 | a stub, or a view too short for a section, ends the body |
| `PacketCodec.UnclosedBody` | src/tubus/udp/channel.cpp:445-449 | what the receiver reads of an open body are its sections and what stands in the bytes walked over; the packet leaves and reads back exactly if and only if the walk over the stale bytes stays inside the buffer and nothing valid stands at the start of what it passed |
| `PacketCodec.ShortMoveStands` | src/tubus/udp/proto.h:85-86 | stale bytes that meet the first condition but not the second: the walk passes a move section of four bytes, which `valid` accepts |
| `PacketCodec.NothingWritten` | src/tubus/udp/channel.cpp:434-449 | an early return before anything was repeated leaves the stub of the pass before it: the body is closed and reads back exactly |
| `PacketCodec.NumberRoundTrip` | src/tubus/udp/proto.h:55-60 | network order round-trips every number that fits its width |
| `KnownAnswers.SectionLayout` | src/tubus/udp/proto.h:28-68 | every section stands on the wire as the literal code of its kind, the length of its value, and its value: link 2, tear 4, ping 6, move 8, edge 10, one more for an echo |
| `KnownAnswers.NumberLayout` | src/tubus/udp/proto.h:55-60 | numbers stand most significant byte first: 0x0102030405060708 as the bytes 1 to 8 |
| `KnownAnswers.HeaderLayout` | src/tubus/udp/proto.h:147-152 | the header is eight zero bytes, the bytes 9 9 1 2 of signature and version, and the pin |
| `PacketCodec.Snippet` | src/tubus/udp/proto.h:62-68 | the fragment is written at its place, its length field holding the low 16 bits of the length, and nothing else changes |
| `PacketCodec.ReadBody` | src/tubus/udp/proto.h:70-111 | the loop over `valid` and `advance` yields the sections of the body and the place of the first move section too short for its handle |
| `UdpCipher.Invert` | src/tubus/udp/proto.h:197-236 | the in-place word loop and byte tail compute the per-byte mask behind the salt field, for every length from 8 on |
| `UdpCipher.RestoresPacket` | src/tubus/udp/proto.h:197-236 | inverting twice restores every byte when the salt differs from the secret, whatever the second draw would be |
| `UdpCipher.InvolutionIff` | src/tubus/udp/proto.h:202-215 | inverting twice restores a plain packet if and only if the first salt differs from the secret or the second equals it |
| `Keystream.RotateAmount` | src/tubus/utils.cpp:18-20 | rotate amounts of six digits are odd, so they lie in 1 to 63 and no shift is by the word's width |
| `KeystreamBits.InverterBit` | src/tubus/utils.cpp:16-21 | digit i of the word in big-endian reading differs from digit i of the salt exactly if digit i + n modulo 64 of `base` is 1, where `base` is secret plus salt modulo 2^64 and n is `base` modulo 64 made odd; digits are those of words that double, not of shifts |
| `KnownAnswers.NetworkOrder` | src/tubus/utils.cpp:20-20 | a word that `htobe64` has converted stands in memory as a big-endian host would store it, on either host |
| `KnownAnswers.PacketOnWire` | src/tubus/udp/proto.h:197-236 | a packet of nine zero bytes behind its salt field leaves, for the secret 1 and the salt 2, as the bytes 0 to 0 3, 60 0 to 0 2, 23 in hexadecimal |
| `KnownAnswers.StreamOnWire` | src/tubus/tcp/proto.h:227-298 | a stream that starts with a zero byte starts, for the secret 1 and the salt 2, with the bytes 0 to 0 3, 60 0 0 0 9 9 0 3, 23 in hexadecimal |
| `Keystream.DimIsIrrelevant` | src/tubus/utils.cpp:16-21 | obfuscation and recovery draw the same keystream |
| `Keystream.MaskTwice` | src/tubus/udp/proto.h:219-233 | masking twice at the same position restores the bytes |
| `Keystream.MaskAppend` | src/tubus/udp/proto.h:219-233 | masking chunk by chunk at running positions is masking the whole |
| `Keystream.XorWord` | src/tubus/udp/proto.h:222-222 | XOR of a word in memory is XOR of its eight bytes, on either byte order |
| `TcpStream.AlterData` | src/tubus/tcp/proto.h:253-298 | from any state the three loops do what a byte-at-a-time reference does, and leave its state |
| `TcpStream.AlteredMasks` | src/tubus/tcp/proto.h:253-298 | from the state at position p that reference masks byte j with byte j mod 8 of keystream word j/8 + 1, however the bytes are chunked, and ends in the state at the position behind them |
| `TcpStream.HeadRoundTrip` | src/tubus/tcp/proto.h:227-251 | `read_head` recovers the salt and the signature from what `write_head` wrote |
| `TcpStream.WireOfWrites` | src/tubus/tcp/proto.h:66-102 | for every split into writes the wire is one header and the whole text masked by absolute position |
| `TcpStream.StreamRoundTrip` | src/tubus/tcp/proto.h:66-163 | for every split into writes and every other split into reads, header included, the reads deliver exactly the asked-for prefix of the text |
| `TcpStream.ReadSnoc` | src/tubus/tcp/proto.h:104-163 | a read goes on where the reads before it stopped, in the bytes taken as in the cipher |
| `TcpStream.BrokenStream` | src/tubus/tcp/proto.h:116-143 | cut anywhere, even inside the header, the stream still delivers a prefix of the text |
| `TcpStream.FaithfulIffSalted` | src/tubus/tcp/proto.h:68-106 | all splits of writes and reads round-trip if and only if the drawn salt is not zero |
| `TcpStream.ReadsHeaderAsData` | src/tubus/tcp/proto.h:106-139 | after a salt of zero a reader takes a second header for data |
| `TcpStream.Stream.WriteHead` | src/tubus/tcp/proto.h:227-240 | writes the header of the drawn salt and starts its keystream, whatever is drawn; the shift stays |
| `TcpStream.Stream.ReadHead` | src/tubus/tcp/proto.h:242-251 | takes over the salt in the header and returns the recovered signature, whatever the bytes |
| `TcpStream.Stream.AsyncWrite` | src/tubus/tcp/proto.h:66-102 | in every state and for every draw, zero included, the bytes handed to the socket and the next cipher are those of the write model, in all three branches |
| `TcpStream.Stream.AsyncRead` | src/tubus/tcp/proto.h:104-163 | in every state and for every incoming bytes, result and next cipher are those of the read model, short and foreign headers included |
| `TcpTransport.QueuesInEveryRun` | src/tubus/tcp/channel.cpp:43-89 | in every run and for either direction: completions, each with the outcome the stream reported, and then the queue are exactly the calls that the events of the run say were accepted, in their order; the front one alone is in progress; all other calls were turned away with the code due; the counter is the queued bytes, and for writes stays within the send buffer |
| `TcpTransport.PeerReadsWrites` | src/tubus/tcp/channel.cpp:297-341 | whatever the calls, completions and break of the connection, the peer's reads deliver a prefix of the writes that the events of the run say were accepted, laid end to end; with all of them completed and the connection intact, exactly as much as they ask for |
| `TcpTransport.WriteAcceptedIff` | src/tubus/tcp/channel.cpp:320-341 | on every pipe a write lines up behind the others, and is started if there are none, if and only if the channel is open and the write is no longer than the send buffer less the queued bytes; otherwise it is only turned away, with its id and the code due |
| `TcpTransport.ReadAcceptedIff` | src/tubus/tcp/channel.cpp:297-318 | the same of a read, against the receive buffer less the bytes queued for writing |
| `TcpTransport.PeerReadsWhatWasWritten` | src/tubus/tcp/channel.cpp:43-89 | for any two transports in any state, if one is fed a prefix of what the other handed to its socket, its completed reads were given a prefix of the writes started there, laid end to end; if it is fed all of it, exactly what they asked for as far as there was any |
| `TcpTransport.ReadStaysWithin` | src/tubus/tcp/channel.cpp:307-314 | a read keeps the queued reads within the receive buffer if and only if it is turned away or would fit behind them |
| `TcpTransport.ReadsBoundedIff` | src/tubus/tcp/channel.cpp:307-314 | along a run the queued reads stay within the receive buffer if and only if every accepted read would fit behind them |
| `TcpTransport.ReadsAreNotBounded` | src/tubus/tcp/channel.cpp:307-314 | for every number some run queues more bytes of reads than that |
| `TcpTransport.CountIs` | src/tubus/tcp/proto.h:116-143 | a read reports the bytes it took off the wire, less the header if it took that; these are the bytes delivered unless the header is a foreign one, and never more than asked for |
| `TcpTransport.Transport.Write` | src/tubus/tcp/channel.cpp:320-341 | queued and started, or refused, as the run model says, whatever is drawn; the socket stays the obfuscated started writes in order |
| `TcpTransport.Transport.WriteDone` | src/tubus/tcp/channel.cpp:67-89 | the front write leaves the queue without underflow, the next one starts, the completion is posted |
| `TcpTransport.Transport.Read` | src/tubus/tcp/channel.cpp:297-318 | queued and started, or refused, as the run model says |
| `TcpTransport.Transport.AsyncRead` | src/tubus/tcp/channel.cpp:43-46 | completed reads keep being exactly the read model's turns at the incoming bytes, in the order of the queue |
| `TcpTransport.Transport.ReadDone` | src/tubus/tcp/channel.cpp:43-65 | the front read takes its bytes off the stream, where the last read stopped, leaves the queue without underflow, and the next one starts; the completion carries its count |
| `TcpTransport.Transport.Writable` | src/tubus/tcp/channel.cpp:343-347 | never underflows: with the queued bytes it makes up the send buffer, and on an open channel a write is accepted exactly if it is no longer |

## Left out

- FlightLaws.AttemptsAreBounded: writes are not empty and the limit is at most 255; the cases outside are `FlightLaws.HollowLosesFlightIff` and `FlightLaws.LargeLimitNeverBreaks`.
- ChannelProgress.EveryByteArrives: what is in flight must be due at the chosen time or wait at the peer to be acknowledged, and the connection must not have timed out by then; the code promises nothing to a connection that has.
- A process that ends in `produce` or `feed`: in the run models its packet does not leave or is not heard, and that end falls silent, which any run may do; `UdpTransport.Transport.Produce` and `UdpTransport.Transport.Feed` say when it happens.
- Which stale sections break the stream and which do not: harmless ones are exactly those that keep the whole invariant; a fragment below the receiver's head, for example, breaks the invariant and no stream property.
- Malformed packets of a foreign peer: the run theorems are about two ends that both follow the program.
- Wrap-around of 64-bit offsets and times: offsets and times are unbounded numbers, bounded only where they are put into packets.
- The measurement of the round trip that sets `m_repeat`: each packet production may use any interval; what an interval does is `PassLaws.PassStamps` and `Retransmission.SentOnceUntilDue`.
- Clocks, the random generator and pin creation: times, salts and pins are inputs of the operations.
- Sockets, timers, strands, mutexes, weak pointers and endpoint checks (`open`, `consume`, `do_connect`, `do_accept`): a locked section is one step and a posted callback is an entry of a log.
- When the executor gets around to a posted `on_error`: an alarm is recorded, and closing an end with any error code at any time is an event of its own. The run of `OpenBodyRuns.OpenBodyIff` for a limit of 1 and that of `ChannelScenes.EmptyWriteLosesBytes` go on before it does.
- Errors of the UDP socket during `connect`, `accept` and sending: the end may be closed at any time instead.
- Shared buffers (src/tubus/buffer.h): payloads are immutable byte sequences; arrays appear where bytes are changed in place.
- The adapters of src/tubus/socket.h and src/tubus/acceptor.h, which add buffer sequences and blocking calls on top of a channel.
- `readable` of the TCP transport, which subtracts the queued reads from what the operating system reports.
- The environment lookups of src/tubus/utils.cpp: tunables are parameters, fixed for a run.
- TLS, certificates and build files.
