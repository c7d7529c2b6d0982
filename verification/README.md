# Reliable transfer over a lossy router: model and proofs

This project models, in Dafny, the course-lab HTTP client and file server that talk over UDP
through a router that drops, delays and reorders packets, together with the packet codecs and the
HTTP body framing they depend on. `dafny verify dfyconfig.toml` checks the whole project.

## What is modelled

**The protocol (lab 3).** `Protocol` is one transition system: the client process, the server process and
the multiset of datagrams under way. An action is one goroutine, one timer or the router moving
once. The goroutines are split finer than one action per call wherever another goroutine can look
in between:

| in the Go programs | actions | lines |
|---|---|---|
| `sendPacket` | `Write` (socket write), then `Register` (window element and `seqNum++`) | lab3/httpfs/httpfs.go:272-280, lab3/httpc/httpc.go:313-321 |
| `receive` | `Receive` (one datagram; a data packet is acknowledged and held), then `Store` | lab3/httpfs/httpfs.go:165-207, lab3/httpc/httpc.go:223-262 |
| `retransmission` | `Tick` (a timer expires), `Retransmit` (guarded test and write), then `RearmTimer` | lab3/httpfs/httpfs.go:221-239, lab3/httpc/httpc.go:265-282 |
| `checkForDeliver` | `Check`, one window slot per action | lab3/httpfs/httpfs.go:87-112, lab3/httpc/httpc.go:108-133 |
| the acknowledgement loop of `send` | `StartBlocking`, then `ReadAck`, one window slot per action | lab3/httpfs/httpfs.go:259-268 |
| `establishConnection` | `SendSyn`, `SynTimeout`, `TakeSynAck`; `TakeSyn`, `SendSynAck`, `SynAckTimeout`, `TakeAck` | lab3/httpc/httpc.go:136-155, lab3/httpfs/httpfs.go:115-140 |
| `main`'s session loop, `reset` | `TakeRequest`, `Reset`; on the client `TakeResponse` | lab3/httpfs/httpfs.go:488-512, lab3/httpc/httpc.go:303-310 |
| the router | `Drop`; delay and reordering are the free choice of the datagram received next | handout/router/source/router.go:96-123 |

A Go panic is modelled, not excluded: an index outside a window or a nil slot dereferenced ends its
program (`alive` becomes false), and `Panics` says exactly when that happens.

`Endpoints` gives each goroutine's step as a function. `Windows` and `Programs` give the same code as
classes over arrays with loops (`Peer` holds the fields and loops both Go structs declare; `HttpClient`
and `HttpServer` add their channels and receive branches), proved against those step functions.

**Its proof.** `DataInvariant` (bytes and slots) and `ControlInvariant` (acknowledgements and handshake) are
inductive; `Safety`, `Panics`, `Reassembly` read the results off; `Monotone`, `Progress` and `Liveness` show
that no session gets stuck; `Sessions` runs any number of sessions on one server; `Transport`
carries the transition system's datagrams through the codecs. `Scenarios` builds runs action by action
from the beginning of a session; with them `Hazards` and `StrayAcks` show that what can go wrong does, and
that the conditions of the results are exact.

**Around it.** `Codec` is the endpoints' and the router's codec and the address swap, `JavaCodec` the Java
one, `Router` the router's queue. `Framing` is the read loop of the lab 1-2 server, `Requests` the
POST and GET texts the lab 3 client builds and the lab 3 server takes apart.

## Assumptions

- Guarantees are per session. The code has no session identifier, so they hold for a session that
  begins with no old data packet under way (`NoData`), or, where acknowledgements or the handshake
  matter, with nothing but SYNs under way (`OnlySyns`). `StrayDataExact` shows that the first condition
  cannot be weakened; `AcksTrueExactly` and `ResetLosesNothingExactly` say which stray ACK and SYNACK
  packets break what acknowledgements mean.
- Registering a window element and `seqNum++` are one step; so are the guarded test of one slot with its
  resend, `Timer.Stop` with the fill of `Ack`, the `isConnected` test in `receive` with the fill of a handshake
  channel, `seqNum++` with `connected()` at the end of the server's handshake, and the assignments of `reset`.
- `getPackets` is one step: when it runs the window is full and slots are written once.
- A timer may expire at any moment while it is armed; a select may time out at any moment. A tick
  stays in its channel when the timer is stopped, as in the Go version the module names (1.17).
- `handleRequest` is an arbitrary total function from bytes to bytes; its error return is the empty response.
- Socket writes either succeed or count as a drop. The router never duplicates a datagram.
- SYN and SYNACK packets carry the sender's current sequence number, which the invariants show to be 0.

## What the proofs found

- The client's ACK branch (lab3/httpc/httpc.go:245) has no nil test, unlike the server's. For every request a run
  exists in which the acknowledgement of packet 1 arrives before `sendPacket` has registered it, and the
  client panics: `EarlyAckReachable`. `ClientDiesExactly` says that this and a number beyond the window are
  the only ways.
- `reset` stops neither the retransmission nor the receive goroutine. In every session whose messages fit, a run
  exists in which it catches both in the middle of a step (`ResetCatchesBoth`): the first then dereferences a nil
  slot and kills the server, the second puts a packet of the old session into the new window
  (`CaughtPacketEntersNextSession`). `ServerDiesExactly` and `ResetRestoresInitial` say when.
- A message of more than 1022 * 1013 bytes indexes past the window (`Windows.Peer.Send`). Some run of a session
  does so, and no run completes it, if and only if the request or the response is that long
  (`OverflowsExactly`, `CompletesExactlyWhenFits`).
- A late acknowledgement from an earlier client counts in the session that finds it, so the server can disconnect and
  reset while the client still misses a packet (`ResetLosesNothingExactly`).
- The server acknowledges a packet before it saves it, so "acknowledged" means saved or about to be.
- `handleConn` compares the length of everything read so far with Content-Length, so a request that
  shares its last read with the beginning of the next message is never answered; the read deadline closes the
  connection: `ServedExactlyOnBoundary`, `PipelinedNeverServed`.
- The router's loopback rewrite loses the way back when a loopback sender talks to another address:
  `ReplyReachesSender`.
- The Java codec accepts lengths 1025 to 1035, which Go and the router refuse: `CodecsAgree`.
- `post` and `parseHttpRequest` are inverse only when no user header is empty and none names another length first:
  `PostRoundTrip`.
- The text of a GET ends in one line break too many; a caller that writes `Content-Length: 2` makes it a body:
  `GetRoundTrip`.
- `parseHttpRequest` dereferences a nil request exactly on the texts without a header end, such as the empty text of an
  empty message: `NilPanicExactly`.

## Model

| member | source | states |
|---|---|---|
| `Safety.RefinesIdealExchange` | lab3/httpfs/httpfs.go:488-507 | in every run with loss, delay, reordering and retransmission, each action is invisible to the user or the next step of the ideal exchange: handle the request once, then return the handler's answer |
| `Safety.EndToEndIntegrity` | lab3/httpc/httpc.go:285-310 | in every reachable state handleRequest has been called at most once, on the client's own bytes, and a returned response is the handler's answer to them |
| `Safety.SlotAgreement` | lab3/httpfs/httpfs.go:197-205 | every packet in a receiver window, or about to be saved, is the very packet the peer wrote under that number |
| `Safety.StrayDataAccepted` | lab3/httpfs/httpfs.go:196-205 | any data packet left under way from before is taken although nobody in this session wrote it |
| `Safety.StrayDataExact` | lab3/httpfs/httpfs.go:179-205 | slots agree in every run if and only if no data packet was under way at the start |
| `Safety.AckMeansReceipt` | lab3/httpc/httpc.go:252-260 | an acknowledged sender slot's packet is in the peer's window, or its receive goroutine holds it between acknowledgement and save |
| `StrayAcks.AcksTrueExactly` | lab3/httpfs/httpfs.go:189-194 | with no stray data at the start, a side's acknowledgements are true in every run if and only if no stray ACK, or SYNACK for the client to echo, carries a number that side comes to use |
| `StrayAcks.AcksTrueKept` | lab3/httpc/httpc.go:235-260 | the truth of one side's acknowledgements is kept by every action, whatever else is under way |
| `Safety.ScansAreSound` | lab3/httpfs/httpfs.go:99-108 | a positive verdict of checkForDeliver or of the acknowledgement loop, each reading one slot per step, is true of all slots together |
| `Safety.AllAckedAllHeld` | lab3/httpfs/httpfs.go:259-268 | when every packet of a message is written and acknowledged the peer holds all of them |
| `Safety.ResetLosesNothing` | lab3/httpfs/httpfs.go:508-511 | when the server disconnects and resets, the client holds every response chunk and the DELIVER, and its window alone gives the response once its save is done |
| `StrayAcks.ResetLosesNothingExactly` | lab3/httpfs/httpfs.go:259-268 | with no stray data at the start, the client holds all of the response at every disconnect if and only if no stray packet can acknowledge a slot of the server, or the response is too long to be sent |
| `Safety.HandshakeSafety` | lab3/httpfs/httpfs.go:115-140 | connected implies the client handled a SYNACK, client established implies the server took a SYN, and only the answer to a SYNACK is an ACK numbered 0 |
| `Safety.DisconnectedServerSilent` | lab3/httpfs/httpfs.go:221-239 | a server that has disconnected writes and retransmits nothing more |
| `Safety.ResetStartsOnlyChecker` | lab3/httpfs/httpfs.go:209-218 | at reset the checkForDeliver that runs on the windows being replaced has returned and its token is taken, and reset's own starts at slot 0 |
| `DataPreservation.DataInvKept` | lab3/httpfs/httpfs.go:165-280 | the data invariant is kept by every action, whatever control packets are under way |
| `ControlPreservation.ControlInvKept` | lab3/httpfs/httpfs.go:115-280 | acknowledgement and handshake facts are kept by every action |
| `ControlPreservation.ReadAckKeeps` | lab3/httpfs/httpfs.go:261-268 | reading slots one at a time while acknowledgements arrive keeps what the loop knows about the slots it has read |
| `Reachability.InvReachable` | lab3/httpfs/httpfs.go:488-512 | both invariants hold in every reachable state |
| `Panics.ClientDiesExactly` | lab3/httpc/httpc.go:243-260 | the client panics if and only if an acknowledgement overtakes the registration of its packet or a number is beyond the window |
| `Panics.ServerDiesExactly` | lab3/httpfs/httpfs.go:188-205 | the server panics if and only if a number is beyond the window or reset overtook a retransmission |
| `Panics.AckHasSlot` | lab3/httpc/httpc.go:243-250 | an acknowledgement under way to the client has a registered slot unless its packet is the one between write and registration |
| `Panics.EarlyAckReachable` | lab3/httpc/httpc.go:243-246 | for every request a run exists in which the first acknowledgement kills the client |
| `Panics.FittingNeverOverflows` | lab3/httpc/httpc.go:313-321 | with messages within capacity no number beyond the window occurs |
| `Panics.RearmNeverBlocks` | lab3/httpc/httpc.go:277-278 | the receive from a fired timer's channel never waits |
| `Panics.GatherNeverPanics` | lab3/httpc/httpc.go:179-192 | getPackets never meets a nil slot when a program calls it |
| `Panics.SignalNeverBlocks` | lab3/httpfs/httpfs.go:107 | deliveryMessage is empty whenever a checker runs, so its send never waits |
| `Hazards.OverflowsExactly` | lab3/httpfs/httpfs.go:272-280 | some run indexes past a window if and only if the request or the response is longer than 1022 * 1013 bytes |
| `Hazards.ResetCatchesBoth` | lab3/httpfs/httpfs.go:209-239 | in every session whose messages fit a run exists in which reset catches a resend before its timer and a save after its acknowledgement, and the rearm then kills the server |
| `Hazards.CaughtPacketEntersNextSession` | lab3/httpfs/httpfs.go:199-218 | the packet caught between acknowledgement and save breaks slot agreement in a session that follows |
| `Monotone.RunsGrow` | lab3/httpfs/httpfs.go:188-205 | over every run receiver slots are written once, acknowledgements stay, and the main goroutines never go back a phase |
| `Progress.Confirm` | lab3/httpfs/httpfs.go:221-239 | from any live state one written slot can be retransmitted, saved by the peer and acknowledged |
| `Progress.CheckAll` | lab3/httpc/httpc.go:108-133 | checkForDeliver returns by finitely many reads once the window is full |
| `Progress.BlockThrough` | lab3/httpfs/httpfs.go:259-268 | the acknowledgement loop ends by finitely many reads once every slot is acknowledged |
| `Liveness.Handshake` | lab3/httpc/httpc.go:136-155 | from any live state both sides can get connected |
| `Liveness.NoStuckState` | lab3/httpfs/httpfs.go:488-512 | from every reachable state with both programs alive and messages within capacity a finite run completes the session, with exactly the request handled and exactly its answer returned |
| `Liveness.CompletesExactlyWhenFits` | lab3/httpc/httpc.go:285-321 | some run completes the session if and only if request and response have at most 1022 * 1013 bytes each |
| `Sessions.ResetRestoresInitial` | lab3/httpfs/httpfs.go:209-218 | disconnect and reset restore the initial state if and only if no receive or retransmission goroutine was caught in the middle of its step |
| `Sessions.TurnoverKeeps` | lab3/httpfs/httpfs.go:508-511 | the boundary between sessions keeps the record exact |
| `Sessions.EverySessionIsExact` | lab3/httpfs/httpfs.go:488-512 | over any number of sessions the k-th handled request and the k-th returned response are the k-th client's |
| `Sessions.EverySessionBeginsAnew` | lab3/httpfs/httpfs.go:488-512 | over any number of sessions that each begin with nothing but SYNs under way, the current one is a run of a session by itself, so every per-session result holds of it |
| `Sessions.NoSessionSticks` | lab3/httpfs/httpfs.go:488-512 | in every such world the current session can be completed with its own request and answer, and a server that has reset has left the client with all of the response |
| `Chunking.ChunksPartition` | lab3/httpc/httpc.go:285-300 | payloads are non-empty, at most 1013 bytes, all but the last full, and joined they give the message |
| `Chunking.CapacityExact` | lab3/httpc/httpc.go:285-321 | every number is below 1024 if and only if the message has at most 1022 * 1013 bytes |
| `DataInvariant.GatherFull` | lab3/httpc/httpc.go:179-192 | getPackets on a full window returns what the packets carry and stops at the DELIVER |
| `Reassembly.OrderIrrelevant` | lab3/httpc/httpc.go:252-260 | the window depends only on which packets arrived, not on order or repetition |
| `Reassembly.SignalsExactlyWhenComplete` | lab3/httpc/httpc.go:108-133 | for every arrival sequence checkForDeliver signals if and only if all of 1 to DELIVER arrived |
| `Reassembly.GatherExactlyWhenComplete` | lab3/httpc/httpc.go:179-192 | getPackets returns the message if everything arrived and dereferences a nil slot otherwise |
| `Reassembly.GatherExactly` | lab3/httpfs/httpfs.go:143-156 | on any window, whatever filled it, getPackets panics if and only if a slot before the first DELIVER is nil, and otherwise returns the data before it |
| `Windows.BurstIs` | lab3/httpc/httpc.go:285-300 | the first n packets of a message are exactly those numbered 1 to n, in number order, so the last of them is the DELIVER |
| `Windows.DuePacketsAre` | lab3/httpfs/httpfs.go:225 | a pass resends exactly the packets of slots that are filled, unacknowledged and expired |
| `Programs.SendIsTurns` | lab3/httpc/httpc.go:285-321 | the transition system's writes and registrations put under way exactly the datagrams, and leave the window and number, of the loop of send |
| `Programs.SendPanicsAtTurn` | lab3/httpc/httpc.go:313-320 | with a message too long packets 1 to 1024 are written, 1023 of them registered, and the last registration panics |
| `Programs.PassIsResends` | lab3/httpfs/httpfs.go:224-236 | one pass of retransmission puts under way exactly the datagrams, and leaves the window, of the transition system's resends and rearms in slot order, none of which blocks |
| `Windows.Peer.Send` | lab3/httpc/httpc.go:285-300 | writes and registers packets 1 to DELIVER in order, the DELIVER included, and panics after 1024 packets if and only if the message exceeds 1022 * 1013 bytes |
| `Windows.Peer.SendPacket` | lab3/httpc/httpc.go:313-321 | fills the next slot with an unacknowledged, armed element and advances the number, or panics at 1024 |
| `Windows.AcknowledgedIs` | lab3/httpfs/httpfs.go:190-194 | the slot gets its acknowledgement and its timer no longer runs, its packet and every other slot stay, and a second acknowledgement changes nothing |
| `Windows.Peer.Acknowledge` | lab3/httpfs/httpfs.go:190-194 | the array holds the window that AcknowledgedIs describes, and nothing else changes |
| `Windows.Peer.Save` | lab3/httpfs/httpfs.go:202-204 | the first packet stored under a number stays; a number beyond the window panics |
| `Windows.Peer.FindDeliver` | lab3/httpfs/httpfs.go:91-97 | finds the lowest DELIVER, or -1 if there is none |
| `Windows.Peer.ReadyUpTo` | lab3/httpfs/httpfs.go:99-104 | true if and only if slots 1 to the marker are all filled |
| `Windows.Peer.CheckForDeliver` | lab3/httpfs/httpfs.go:90-110 | one turn of the outer loop leaves what the single reads of the transition system's checker leave: the marker found or not, and the signal if and only if every slot up to it is filled |
| `Windows.Peer.GetPackets` | lab3/httpc/httpc.go:179-192 | the loop returns the joined payloads, or meets a nil slot |
| `Windows.Peer.RetransmitPass` | lab3/httpfs/httpfs.go:224-236 | resends exactly the unacknowledged expired slots, in slot order, and rearms exactly their timers |
| `Windows.Peer.Blocked` | lab3/httpfs/httpfs.go:262-267 | true if and only if some registered slot is unacknowledged |
| `Windows.Peer.Reset` | lab3/httpfs/httpfs.go:209-217 | the windows, number and token are those of a new endpoint, in new arrays |
| `Programs.HttpClient.Receive` | lab3/httpc/httpc.go:223-262 | one turn of the loop on the arrays is the client's receive action of the transition system, panic included |
| `Programs.HttpServer.Receive` | lab3/httpfs/httpfs.go:165-207 | one turn of the loop on the arrays is the server's receive action of the transition system, panic included |
| `Programs.HttpServer.Reset` | lab3/httpfs/httpfs.go:209-218 | reset on the arrays is the Reset action, and once disconnected the object represents the initial state |
| `Programs.ServerDataTurn` | lab3/httpfs/httpfs.go:196-205 | a data packet is acknowledged to its sender and saved once |
| `Programs.RoundIsReads` | lab3/httpfs/httpfs.go:260-268 | a whole round of single reads disconnects if and only if no slot is unacknowledged |
| `Transport.EveryDatagramTravels` | lab3/lib/packet.go:41-91 | every datagram of every run is accepted by the router, sent to its host and parsed there to the same type, number, payload and true sender |
| `Codec.LayoutInverse` | lab3/lib/packet.go:42-91 | laying out and reading back are inverse in both directions |
| `Codec.LayoutIs` | lab3/lib/packet.go:42-56 | the octet positions of type, number, address and port, numbers with the highest octet first, and the payload from octet 11 |
| `Codec.ParsesExactlyUpToMaxPayload` | lab3/lib/packet.go:63-70 | a packet parses back if and only if its payload has at most 1013 bytes, and is else refused as too long |
| `Codec.Raw` | lab3/lib/packet.go:42-56 | appending field by field gives the big-endian layout |
| `Codec.ParsePacket` | lab3/lib/packet.go:63-91 | exactly the lengths 11 to 1024 parse, to the fields whose layout the bytes are; shorter and longer inputs give their own error |
| `Codec.ThroughRouter` | handout/router/source/router.go:46-93 | type, number and payload survive the router and FromAddr becomes the true sender |
| `Codec.RouterOutputParses` | handout/router/source/router.go:67-93 | the router sends on exactly the lengths 11 to 1024 and all of it parses |
| `Codec.RewritesLoopbackOnly` | handout/router/source/router.go:86-88 | a packet to 127.x keeps its port and goes to the sender's host; any other goes where it is addressed |
| `Codec.ReplyReachesSender` | handout/router/source/router.go:86-89 | a reply to FromAddr returns to the sender if and only if a loopback sender talked to a loopback address or the sender is not loopback |
| `JavaCodec.WideningUndoesNarrowing` | handout/java/src/main/java/ca/concordia/Packet.java:109-114 | over all 8, 16 and 32-bit unsigned values the casts and the unsigned widenings undo each other |
| `JavaCodec.PutIntIsBigEndian` | handout/java/src/main/java/ca/concordia/Packet.java:70-76 | putInt after the cast writes the four octets of the unsigned number |
| `JavaCodec.ToBytes` | handout/java/src/main/java/ca/concordia/Packet.java:70-97 | writes the fields in order, or overflows the buffer if and only if the header with its 4 or 16 address bytes and the payload exceed 1035 bytes |
| `JavaCodec.FromBytes` | handout/java/src/main/java/ca/concordia/Packet.java:102-131 | reads the fields, or throws on too long and too short inputs |
| `JavaCodec.WritersAgree` | handout/java/src/main/java/ca/concordia/Packet.java:70-97 | for every value of the fields Java writes the octets Go writes |
| `JavaCodec.CodecsAgree` | handout/java/src/main/java/ca/concordia/Packet.java:102-131 | what Go accepts Java accepts with the same fields and writes back unchanged; Java alone accepts lengths 1025 to 1035 |
| `Router.RouterConserves` | handout/router/source/router.go:96-123 | over every list of events the packets sent and those scheduled are exactly the accepted datagrams whose own event does not drop them, queueSize counts the scheduled, and without delay all have left in arrival order |
| `Router.RouterProcess.Handle` | handout/router/source/router.go:192-205 | a datagram that is refused or dropped leaves nothing; any other leaves at once without a delay and is scheduled with one |
| `Router.RouterProcess.Fire` | handout/router/source/router.go:120-122 | a timer sends its own packet once and lowers the counter |
| `Framing.IndexIs` | lab1-2/httpfs/httpfs.go:92-93 | the position found is the first occurrence of the separator, and -1 means none |
| `Framing.HeaderEndStays` | lab1-2/httpfs/httpfs.go:92-105 | the first header end stays where it is as the buffer grows |
| `Framing.DecideAtPrefix` | lab1-2/httpfs/httpfs.go:103-110 | on a prefix of the stream the loop stops if and only if the prefix ends where Content-Length says |
| `Framing.HandleConn` | lab1-2/httpfs/httpfs.go:86-119 | the accumulating loop computes what becomes of the connection over its reads, failing and empty reads included |
| `Framing.DecidedByHeader` | lab1-2/httpfs/httpfs.go:92-104 | for every cut into reads, the read that completes the header end serves a block without Content-Length, with that header and no body, and ends the connection on a rejected block |
| `Framing.HeaderOnlyIndependent` | lab1-2/httpfs/httpfs.go:86-104 | whether such a stream is served or refused, and with which header, does not depend on how it is cut |
| `Framing.UnreadableLengthNeverServed` | lab1-2/httpfs/httpfs.go:103-118 | a Content-Length that is no number's decimal text is never met: the failing read closes the connection |
| `Framing.HeaderlessNeverServed` | lab1-2/httpfs/httpfs.go:92-118 | a stream without a header end is never served: the failing read closes the connection |
| `Framing.ServedExactlyOnBoundary` | lab1-2/httpfs/httpfs.go:86-119 | the body is served, and is right, if and only if its declared end is the end of some read; otherwise the read that fails closes the connection |
| `Framing.PipelinedNeverServed` | lab1-2/httpfs/httpfs.go:103-118 | a request whose last read brings more than its body is not served, and the next failing read closes the connection |
| `Framing.FragmentationIndependent` | lab1-2/httpfs/httpfs.go:86-119 | every cut of a header block and its declared body into reads, the last perhaps together with the end of the stream, yields that header and body, stopping with the last byte |
| `Requests.BuildPost` | lab3/httpc/httpc.go:206-212 | cut at its line breaks the text is the POST request line, the Host line, the user's headers in order, the client's Content-Length, an empty line and the data |
| `Requests.BuildGet` | lab3/httpc/httpc.go:163-168 | cut at its line breaks the text is the GET request line, the Host line and the user's headers in order, followed by a header end |
| `Requests.NilPanicExactly` | lab3/httpfs/httpfs.go:396-407 | the nil request is dereferenced if and only if the text has no header end, as the empty text has not |
| `Requests.ParsedExactly` | lab3/httpfs/httpfs.go:396-413 | a text with a header end is refused if and only if the library rejects its block; otherwise the header stands before the first header end, and the rest is the body if and only if its length is the Content-Length found |
| `Requests.GetRoundTrip` | lab3/httpfs/httpfs.go:392-414 | every GET the library accepts reaches the server with its header and no body, unless the caller's own Content-Length says 2 |
| `Requests.LengthFound` | lab3/httpfs/httpfs.go:407 | the Content-Length found is the first header of that name with its continuation lines, the client's own if the user gave none |
| `Requests.PostSplits` | lab3/httpfs/httpfs.go:396-397 | without empty header lines the server cuts where the client joined, whatever the data contains |
| `Requests.EmptyLineSplitsEarly` | lab3/httpfs/httpfs.go:396-397 | an empty header line moves the cut before the client's own Content-Length |
| `Requests.PostRoundTrip` | lab3/httpfs/httpfs.go:392-414 | the server recovers the data as the body if and only if the block is accepted, no header line is empty and the first Content-Length given, continuation lines included, is the right one |

## Left out

- Sockets, log files, flags, file reading and writing and directory walking.
- `http.ReadRequest`, `http.ReadResponse`, `url.Parse` and `net.ResolveUDPAddr` are library code: the request parser is a
  parameter, and a dotted quad with a port resolves to itself.
- `handleGet`, `handlePost`, `makeResponse`: handleRequest is an arbitrary function, so its own panics are not part of the model.
- Wall-clock time and probabilities: timeouts and drops are free choices. That handleConn's read deadline does pass is not
  part of the model; a passed one is a read that fails.
- Overlapping sessions and several clients at once: a session ends at reset, and what the old client still sends
  afterwards must be gone before the next one begins.
- Data races on slice headers and the Go memory model while reset runs.
- The unending outer loops of `checkForDeliver`, `retransmission` and `receive` are methods for one turn; their repetition is in the transition system, as are both `establishConnection` loops.
- The transition system merges the two hops through the router and its timers into one multiset of datagrams; arrival order under a non-positive delay is stated in `Router` only.
- The sequence number is unbounded in the transition system; `Transport` shows that no number above 1024 is ever written. The router's 32-bit queue counter is unbounded too.
- The router's write error after a send is counted as a send.
- The parsing of the response, which is library code.
- The redirect recursion of the lab 1-2 client, the echo and time programs, the Java UDP client and server, and the unused FIN constant.
- Liveness.NoStuckState: says that completion stays possible, not that a fair schedule forces it, because the source fixes no schedule or loss rate.
- Windows.Peer.CheckForDeliver: speaks of a window at rest during one turn; the read-by-read version under interference is `Safety.ScansAreSound`.
