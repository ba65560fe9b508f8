# Verified model of unbounded-rs

unbounded-rs keeps one long-lived QUIC server alive over replaceable WebRTC peer
paths, and relays packets between WebRTC peers and an egress. This project models its
own logic in Dafny and proves what holds over every run:

- the virtual UDP socket, its routing table and its paths, with a send cut in two so
  that a path can be dropped or replaced between its lookup and its push
  (`VirtualUdp`, `VirtualUdpObject`), and the loop that binds one peer transport to
  the socket (`ConsumerPath`);
- the QUIC connection broker and any number of dialling calls around one versioned
  watch cell (`QuicBroker`, `QuicBrokerTasks`);
- the retry supervisor and the pool that forwards its slots' events (`Supervisor`,
  `SupervisorPool`);
- the synthetic address allocator (`SyntheticPaths`) and the re-pairing loop, which runs
  its sessions' paths on the shared socket (`ConsumerTurns`, `ConsumerSession`,
  `Consumer`), among any number of consumers of one allocator (`SharedSocket`);
- the advertisement reader over an arbitrarily chunked body (`Advertisements`);
- the SOCKS5 client handshake over an arbitrarily fragmented stream (`Socks5`);
- the peer-session callbacks (`PeerSession`), the data-channel queue (`DataChannel`)
  and the relay (`Relay`);
- the egress subprotocol header (`Subprotocol`).

## How it is modelled

A component shared by several tasks is a state with a total step function: an event
that is not possible in a state leaves the state unchanged, so every sequence of
events is a run and a statement over all sequences is a statement over all
interleavings. Histories are fields of the state. The operations are also written as
methods on objects whose fields they update, each proved to make exactly its step.
Loops are methods over a sequence of turns; a turn gives what the loop observes at one
await point (steps of other tasks, cancellation, transport results) and `biased`
selections are taken in order. A send to a transport succeeds, fails, or is where the
future is dropped; when the turns run out, the future was dropped at an await point
between two turns. What each turn finds, does and decides is a function of the schedule,
and a loop is proved to end with the first turn that gives a reason to, and only then.

Assumed of the libraries, and nothing more:

- A bounded channel accepts a non-blocking send exactly when its receiver exists and it
  has room; a receive reports the end only when nothing is queued and no sender is
  left; room freed by a receive goes to waiting senders first, and a blocking send waits
  from its first poll on.
- A stream takes some number of bytes before its writes fail; a write that fails midway
  leaves the part that was taken.
- A watch receiver's clone copies the seen version, reading does not mark it seen, and
  waiting looks at the version before it looks for a dropped sender.
- A closed QUIC connection stays closed, and closing the endpoint closes all of its
  connections.
- JSON decoding is an arbitrary partial function of the bytes.
- Locks and atomics act as single steps; event and attempt counters do not wrap.

Every induction is written out; automatic induction is off throughout.

Durations are whole nanoseconds up to Rust's largest `Duration`; saturating and
truncating arithmetic is written out.

## Where the code does less than a plain reading promises

- Retry delays are described as jittered by at most 20 percent. `Supervisor.FullJitterRange`
  proves that the lower bound holds exactly when 80 percent of the backoff fits 64 bits
  of nanoseconds (about 584 years); `Supervisor.JitterTruncated` gives a backoff for
  which it fails.
- A disconnect is promised exactly once per connected session, and after its connect.
  Callbacks that run one after another keep both (`PeerSession.DisconnectReportedOnce`,
  `PeerSession.SerialisedRuns`); overlapping ones can break either.
  - It is missed when every terminal callback reads the connect flag before a connected
    one stores it (`PeerSession.MissedDisconnect` gives a run). `PeerSession.AtMostOnceInterleaved`
    proves that one disconnect is reported exactly when some terminal callback reads
    the flag after it was stored, and never more than one.
  - It comes first when a terminal callback reads, wins and sends between a store of the
    connect flag and the first connect sent (`PeerSession.OvertakenConnect` gives a run).
    `PeerSession.DisconnectFirstExactly` proves that this is exactly when.
- A pool slot drains its queue once its supervisor has returned, "without loss". A peer
  event that a callback queues after the last look and before the queue is dropped is
  lost (`SupervisorPool.LateEventLost` gives a run). `SupervisorPool.LeftBehindExactly`
  proves that exactly those events are: nothing is lost if and only if no callback
  queues an event in that gap.
- A header value other than a token may still come back from the list reader;
  `Subprotocol.HeaderRoundTrip` states exactly which ones do.

## Model

| member | source | states |
|---|---|---|
| VirtualUdp.RouteTable | src/virtual_udp.rs:72-91 | in every run, a remote has a route exactly when the path added last for it is alive, the route is that path, and the table has one entry per such remote |
| VirtualUdp.DropTouchesOnlyOwnRoute | src/virtual_udp.rs:141-154 | after any run, dropping a path removes its route only if it is the latest for its remote; a superseded path leaves its replacement's route in place |
| VirtualUdp.TrafficConservation | src/virtual_udp.rs:117-229 | in every run, what a path handed out plus its queue is a sub-list of what was sent to exactly its remote; delivered plus queued ingress equals accepted ingress in order, tagged with the injecting path's remote; queues within capacity, items within the MTU |
| VirtualUdp.EgressExactly | src/virtual_udp.rs:170-197 | in every run, a live path has handed out or still queues exactly the datagrams pushed to it while it was alive and had room, in order, a dead one the first part of them; without a push to it when dead or full, that is every push |
| VirtualUdp.LookupAims | src/virtual_udp.rs:170-187 | a lookup finds a route exactly for a fitting datagram to a routed destination, and then aims it at the live path the table has for it |
| VirtualUdp.ChurnNeverFatal | src/virtual_udp.rs:36-42 | in every run, while the socket exists its receive never sees a closed queue and injections never find it closed; a live path's queue never reports the end |
| VirtualUdp.ClosedExactlyWithoutSocket | src/virtual_udp.rs:125-133 | injection is refused as closed exactly when the socket is gone |
| VirtualUdp.InvStep | src/virtual_udp.rs:54-238 | every step keeps channel-end ownership, routing, egress and ingress invariants |
| VirtualUdp.InvRun | src/virtual_udp.rs:54-238 | the invariants hold after every run |
| VirtualUdp.RoutesAreLiveRemotes | src/virtual_udp.rs:89-91 | the table's keys are the remotes whose latest path is alive |
| VirtualUdp.HandedOut | src/virtual_udp.rs:136-138 | what a path handed out was sent to its remote, in order |
| VirtualUdp.ForeignStep | src/virtual_udp.rs:94-101 | no step of another caller changes an owned path's life, remote, hand-outs or accepted injections |
| VirtualUdpObject.VirtualUdpSocket.constructor | src/virtual_udp.rs:59-70 | a new socket is the fresh state with the invariant |
| VirtualUdpObject.VirtualUdpSocket.AddPath | src/virtual_udp.rs:72-87 | adds a live path with an empty queue of the given capacity, routes its remote to it, leaves all other queues alone and keeps the invariant |
| VirtualUdpObject.VirtualUdpSocket.PathCount | src/virtual_udp.rs:89-91 | counts the remotes whose latest path is alive |
| VirtualUdpObject.VirtualUdpSocket.DropPath | src/virtual_udp.rs:141-154 | the path is dead and unrouted; all other paths and the routes of all other remotes are unchanged |
| VirtualUdpObject.VirtualUdpSocket.TryReceive | src/virtual_udp.rs:117-134 | exactly when each error is returned, and that only success enters the accepted history |
| VirtualUdpObject.VirtualUdpSocket.NextOutgoing | src/virtual_udp.rs:136-138 | hands out the head of the path's queue, waits exactly when it is empty and never reports the end |
| VirtualUdpObject.VirtualUdpSocket.SendLookup | src/virtual_udp.rs:170-187 | refuses exactly oversize contents; finds exactly a routed destination, and then records these contents for the routed path |
| VirtualUdpObject.VirtualUdpSocket.SendPush | src/virtual_udp.rs:188-197 | the contents go to the end of the target's queue exactly if it is alive and has room; otherwise it is loss, never an error; no other path changes |
| VirtualUdpObject.VirtualUdpSocket.TrySend | src/virtual_udp.rs:170-197 | with arbitrary steps between its halves, a send fails only for oversize contents |
| VirtualUdpObject.VirtualUdpSocket.PollRecv | src/virtual_udp.rs:199-229 | delivers the oldest datagram with its remote, never a broken pipe; a buffer of at least the MTU is never truncated |
| VirtualUdpObject.VirtualUdpSocket.DropHandle | src/virtual_udp.rs:36-42 | the routes are forgotten exactly with the last handle, which also closes the ingress queue, and nothing else changes |
| ConsumerPath.RunConsumerPath | src/consumer_path.rs:71-122 | the loop ends with the first turn that gives a reason (cancellation, the peer's end or failure, a refused packet, a failed send), with that result, and never for a closed socket; exactly these steps happened to the socket; on every exit the installed route is gone; everything let in carries one non-empty source, in arrival order, and entered exactly if the socket's queue had room; what the peer was sent are the successful sends of packets for this remote, at most the last taken one missing |
| ConsumerPath.ReasonsHold | src/consumer_path.rs:84-120 | every result of a call exactly when its last turn gives that reason, from what the turn met and the packets let in; no earlier turn gives any |
| ConsumerPath.Explained | src/consumer_path.rs:84-120 | cancelled if and only if cancellation is set; otherwise peer closed exactly at the end of the stream, a transport error exactly for a failed receive or send, and each packet error exactly for its packets |
| ConsumerPath.OnlyTheLastIsLost | src/consumer_path.rs:114-119 | turns that go on deliver every packet they take |
| ConsumerPath.NeverSocketClosed | src/consumer_path.rs:106-117 | no turn of any schedule ends the loop for a closed socket |
| ConsumerPath.OtherRoutesUntouched | src/consumer_path.rs:81-121 | over the run of one call, no step of the call changes another remote's route |
| ConsumerPath.Turn | src/consumer_path.rs:84-120 | what one turn decides, does to the socket, lets in and delivers is what its schedule says; each result has its exact reason; it sends only when not cancelled and the peer has nothing |
| ConsumerPath.Deliver | src/consumer_path.rs:114-119 | takes the head of the path's queue; only a successful send counts as delivered |
| ConsumerPath.Ingest | src/consumer_path.rs:92-112 | exactly when a decoded packet is refused and with which error; it enters exactly if there is room |
| ConsumerPath.Leave | src/consumer_path.rs:81-121 | leaving drops the path and then the socket handle |
| QuicBroker.NoLostWakeup | src/consumer_quic.rs:127-149 | in every run, a parked call has inspected the newest published value, and that is empty or closed |
| QuicBroker.PublishWakes | src/consumer_quic.rs:142-148 | every publication, and the sender's drop, leaves no waiting call parked |
| QuicBroker.WakeBound | src/consumer_quic.rs:127-149 | a call wakes at most once more than the number of publications since it began |
| QuicBroker.PublishedValue | src/consumer_quic.rs:85-115 | in every run the value is empty while accepting and from the shutdown announcement on, and the served connection while serving |
| QuicBroker.ResultExactly | src/consumer_quic.rs:123-150 | in every run, a call ends as a stream on c exactly when the open connection c it had read gave one, as a stream error exactly when an open connection refused, as cancelled exactly when its cancellation was seen while opening or waiting, as stopped exactly when it waited with nothing new and the sender gone |
| QuicBroker.OpeningWasRead | src/consumer_quic.rs:129-130 | the connection a call opens a stream on is one it read as the newest value |
| QuicBroker.LeavesExactly | src/consumer_quic.rs:87-113 | in every run, the loop goes out as cancelled exactly when it saw a cancellation, with an error exactly when its endpoint ended without one; a failed handshake is neither |
| QuicBroker.OpenAfterShutdown | src/consumer_quic.rs:123-150 | a call begun after the loop returned always has a step, is done within five, wakes at most once, and ends as BrokerStopped or cancelled |
| QuicBroker.OpenAcrossShutdown | src/consumer_quic.rs:123-150 | a call open when the loop returns ends the same way within four more steps and one more wake-up |
| QuicBroker.InvStep | src/consumer_quic.rs:85-150 | every step of broker, environment and calls keeps the cell, broker and call invariants |
| QuicBrokerTasks.Cell.constructor | src/consumer_quic.rs:70-77 | a new cell holds the empty value at version zero |
| QuicBrokerTasks.Cell.Run | src/consumer_quic.rs:85-115 | the accept loop makes exactly its steps at each await point and returns at the first that finds a cancellation, or the endpoint gone while accepting, as cancelled or with an error; once it returns, the value is empty, every connection closed and the sender dropped |
| QuicBrokerTasks.Cell.Attend | src/consumer_quic.rs:87-113 | cancellation first, then the served connection, then the endpoint; what is published and served next, and exactly when it returns |
| QuicBrokerTasks.Cell.Shutdown | src/consumer_quic.rs:89-109 | closes the endpoint, publishes the empty value, returns |
| QuicBrokerTasks.Cell.OpenBi | src/consumer_quic.rs:123-150 | a call makes exactly its steps; each result exactly when its steps settle it so; its wake-ups are bounded, and after shutdown its result is one of two |
| QuicBrokerTasks.Cell.Borrow | src/consumer_quic.rs:129-130 | reads the newest value without marking it seen |
| QuicBrokerTasks.Cell.OpenStream | src/consumer_quic.rs:131-140 | cancellation first; an open connection's answer gives the stream or the error, a closed one's refusal goes on waiting |
| QuicBrokerTasks.Cell.Changed | src/consumer_quic.rs:142-148 | cancellation first; a newer version wakes before a dropped sender is noticed |
| Supervisor.SuperviseWith | src/supervisor.rs:162-256 | the loop's summary and own event log are those its schedule determines, with delays from unbounded exponential backoff |
| Supervisor.Conclude | src/supervisor.rs:198-241 | accounting, announced delay and next backoff of one attempt |
| Supervisor.BackoffDoubles | src/supervisor.rs:239-241 | saturating doubling and clamping is one more step of min(initial times 2^k, max) |
| Supervisor.NoWideSaturation | src/supervisor.rs:280-284 | the jitter product never reaches the 128-bit limit |
| Supervisor.RetryBounds | src/supervisor.rs:210-210 | each delay lies between min(80 percent, 2^64-1 ns) and min(max, 120 percent) of its backoff |
| Supervisor.FullJitterRange | src/supervisor.rs:280-284 | the 80 percent bound holds exactly when that share fits 64 bits of nanoseconds |
| Supervisor.JitterTruncated | src/supervisor.rs:280-284 | a backoff of 1000 years is delayed by less than 80 percent of it |
| Supervisor.StoppedLogIsComplete | src/supervisor.rs:181-255 | every stopped supervisor's own events are attempts 1, 2, 3 and so on, each start followed by its ending, closed by one Stopped with the counts of the log |
| Supervisor.Accounting | src/supervisor.rs:186-236 | attempts minus completed minus failed is 0 or 1, and 1 exactly when the last session failed with cancellation set |
| Supervisor.AnnouncedDelays | src/supervisor.rs:202-237 | each ending announces the delay of its streak of unstable attempts, a stable one retrying from the initial backoff, within the bounds |
| Supervisor.DelayFromSessions | src/supervisor.rs:202-241 | from the sessions alone: the kth attempt in a row that fell short of the stable time waits on the initial backoff (1 ms if zero) doubled k-1 times, one that lasted on the initial backoff; the announced delay is that times 80 to 120 percent, capped, in a session-ended or attempt-failed event |
| Supervisor.StopsAt | src/supervisor.rs:181-255 | the length of the log and the number of attempts of a run, by where its first cancelled turn is cancelled |
| SupervisorPool.ForwardingLosesNothing | src/supervisor.rs:101-138 | in every interleaving a slot's forwarded events plus its queue are its queued events in order; after the last look all own events are forwarded, Stopped included, and only peer events can be left |
| SupervisorPool.ServeForwards | src/supervisor.rs:118-134 | a forwarder's turn on a slot with something queued, its supervisor running or returned, moves exactly the oldest event to the log |
| SupervisorPool.ForwardedExactly | src/supervisor.rs:118-134 | in every run a slot's part of the log grows by exactly the heads its forwarder's turns found |
| SupervisorPool.ForwardingKeepsUp | src/supervisor.rs:118-134 | n turns forward the first n queued events, or all, if nothing more is queued meanwhile, whether or not the supervisor has returned |
| SupervisorPool.EmitQueues | src/supervisor.rs:106-111 | an own event is queued while the supervisor runs, a peer event until the queue is dropped |
| SupervisorPool.LastLookForwardsAll | src/supervisor.rs:121-128 | everything queued before the last look has been forwarded, and nothing is forwarded later |
| SupervisorPool.LeftBehindExactly | src/supervisor.rs:121-136 | a slot leaves behind exactly the peer events queued after its last look, in order; it loses nothing if and only if there are none |
| SupervisorPool.LateEventLost | src/supervisor.rs:121-136 | a run that loses a peer event queued after the last look |
| SupervisorPool.ShutdownIsBounded | src/supervisor.rs:112-127 | whatever senders are still around, a slot whose supervisor has returned always has a turn and, with nothing more queued, is finished exactly from the turn after its queue's length plus one |
| SupervisorPool.PoolTotals | src/supervisor.rs:75-93 | the pool's totals are the counts of started, ended and failed attempts in the forwarded log, over max(1, slots) entries |
| SupervisorPool.SortPlacesSlots | src/supervisor.rs:139-143 | in whatever order the workers' results come, sorting by slot and dropping the slots gives the pool's summaries, that of slot i at position i |
| SupervisorPool.SupervisorCanReturn | src/supervisor.rs:112-128 | a supervisor that ran to its stop has queued a complete log before it returns |
| SupervisorPool.Pool.ForwardSlot | src/supervisor.rs:118-136 | the forwarding loop makes exactly its steps, one turn each, forwards an event in every turn that finds one, and ends with every own event forwarded and only late peer events left |
| SyntheticPaths.AllocationsAreFresh | src/consumer_path.rs:34-45 | exactly 2^22-2 calls succeed, then errors forever; addresses lie in 100.64.0.0/10 with host at least 2 and strictly increase |
| SyntheticPaths.AddressHost | src/consumer_path.rs:41-44 | the octets of an allocated address carry its host number |
| SyntheticPaths.SyntheticPathAllocator.Allocate | src/consumer_path.rs:34-45 | the nth call gives the nth address or exhaustion, with no 32-bit overflow |
| Consumer.MaintainConsumer | src/consumer.rs:322-370 | exit turn, summary and log are those its turns determine; each turn is what its attempt amounted to on the shared socket as the earlier attempts left it; a path that ended as cancelled met a cancellation; the socket's whole history is given step by step, and every path that the loop's own steps added is dead and has the address of an own allocator call, later ones of later calls; no run logs a path ended by a closed socket |
| Consumer.TakeAttempt | src/consumer.rs:332-361 | one attempt's accounting, log and exit, exactly what it did to the socket, and that the path it added is dead |
| ConsumerSession.RunSession | src/consumer.rs:296-320 | a session allocates only once it has a channel, fails on exhaustion, and otherwise ends as the path loop does on the shared socket as other tasks have left it, with exactly that loop's steps; the path it added is dead |
| ConsumerSession.RunPath | src/consumer.rs:302-309 | the path loop runs on the shared socket with a new clone of its handle, and nothing else happens to the socket |
| ConsumerSession.EndsForAReason | src/consumer.rs:302-310 | a session's path that ended as cancelled met a cancellation, one that ended with its peer met the peer's end |
| ConsumerSession.WentAddsAtMost | src/consumer.rs:301-309 | a session adds at most one path, with the allocated address |
| Consumer.GoneIsUnrouted | src/consumer.rs:302-310 | a path that a consumer's own step added has no route after its session |
| Consumer.DroppedLeaves | src/consumer.rs:313-338 | a session dropped on cancellation leaves the loop |
| ConsumerTurns.RemotesStrictlyIncrease | src/consumer.rs:301-310 | the remotes of one consumer's successive paths strictly increase |
| ConsumerTurns.RemotesNeverShared | src/consumer.rs:301-301 | no path of a run has an address that another consumer of the allocator is given, before, during or after the run |
| SharedSocket.PairingSupersedesNothing | src/consumer.rs:301-310 | in every run whose added paths have addresses of distinct allocator calls, made and added in any order by any consumers: no addition supersedes a route, a path is routed exactly while it lives, and the table has one entry per live path |
| SharedSocket.LiveIsRouted | src/virtual_udp.rs:72-91 | with all remotes distinct, a path is routed exactly while it lives |
| SharedSocket.ConsumerSupersedesNothing | src/consumer.rs:301-310 | over the whole history of a pairing loop on a new socket, if other tasks' paths have addresses of other consumers' calls: no addition supersedes a route, a path is routed exactly while it lives, and the table has one entry per live path |
| ConsumerTurns.ConsumerAccounting | src/consumer.rs:327-369 | completed plus failed is attempts, or one less exactly when the last attempt was cut short |
| ConsumerTurns.TurnLogged | src/consumer.rs:334-354 | each attempt is logged as started and then as ended, with its address and its path's end, exactly if it had a channel, an address and an end, and otherwise as failed |
| ConsumerTurns.StaysExactly | src/consumer.rs:329-361 | when a turn stays in the loop, from its flags and its session |
| ConsumerTurns.SummaryCountsLog | src/consumer.rs:327-369 | the summary, returned and in the last event, counts the endings and failures of the log |
| Advertisements.AdvertisementStream.Next | src/signaling.rs:182-202 | one read takes exactly the first non-blank line of the remaining body and gives its message or the decoding error; at the end it keeps saying so |
| Advertisements.AdvertisementStream.ReadMany | src/signaling.rs:182-202 | any number of reads give what the whole body determines, whatever its chunks |
| Advertisements.CutAnywhere | src/signaling.rs:193-194 | cutting a chunk in two anywhere changes no reading |
| Advertisements.LineTaken | src/signaling.rs:184-191 | a terminated line is taken off alone, blank lines silently |
| Advertisements.LastPiece | src/signaling.rs:193-199 | the unterminated last piece counts unless the body breaks off |
| Advertisements.PendingAreLines | src/signaling.rs:184-199 | what a reader is given are lines without a line feed that hold something other than ASCII white space |
| Advertisements.BlankExactly | src/signaling.rs:187-195 | blank means only space, tab, line feed, form feed and carriage return |
| Socks5.ExactConsumption | src/consumer_socks5.rs:52-110 | over a stream with room for the request, the handshake succeeds exactly when the server's bytes start with an accepting greeting and a well-formed success reply, and leaves exactly what follows |
| Socks5.ErrorsExactly | src/consumer_socks5.rs:53-109 | each protocol error exactly for the greeting or reply bytes that cause it, the first wrong byte deciding |
| Socks5.DomainErrors | src/consumer_socks5.rs:74-80 | exactly an empty and an over-long domain are refused, each with its error |
| Socks5.BrokenWrites | src/consumer_socks5.rs:52-85 | writes or reads that break off are I/O errors |
| Socks5.RequestRoundTrip | src/consumer_socks5.rs:62-85 | a server reading a request recovers every encodable target, whatever follows |
| Socks5.RequestBytes | src/consumer_socks5.rs:62-85 | the bytes of a request for every kind of target, port high byte first |
| Socks5.RequestsPrefixFree | src/consumer_socks5.rs:62-85 | no request is a proper beginning of another |
| Socks5.NoRequestForUnencodable | src/consumer_socks5.rs:74-83 | an empty or over-long domain puts no byte of a request on the wire; a success has put all of it there |
| Socks5.ReadsWhatIsWritten | src/consumer_socks5.rs:98-109 | the address reader undoes the address writer |
| Socks5.WritesWhatIsRead | src/consumer_socks5.rs:98-109 | whatever the address reader accepts is a written address |
| Socks5.Stream.Connect | src/consumer_socks5.rs:45-111 | result, bytes written and bytes left over, for every server stream, fragmentation and point at which writes fail |
| Socks5.Stream.WriteAll | src/consumer_socks5.rs:52-85 | a write that fails midway leaves exactly what the stream took |
| Socks5.Stream.ReadExact | src/consumer_socks5.rs:87-88 | takes exactly the requested bytes off any fragmentation, or fails at the end |
| Socks5.Stream.ReadReply | src/consumer_socks5.rs:87-110 | consumes exactly the variable-length reply or gives its error |
| Socks5.BuildRequest | src/consumer_socks5.rs:62-84 | the request bytes, or the error of an unencodable domain |
| PeerSession.DisconnectReportedOnce | src/peer_proxy.rs:200-248 | for every sequence of states and publication time, one disconnect if a terminal state follows a connect seen with the ID known, none otherwise; a connect comes first; every ID is the gated one |
| PeerSession.ReportsExactly | src/peer_proxy.rs:200-248 | the reports are exactly a connect for every connected state with the ID known and a disconnect for the first of the three terminal states after one |
| PeerSession.TerminalExactly | src/peer_proxy.rs:368-381 | the terminal states are disconnected, failed and closed |
| PeerSession.WaitIsOneShot | src/peer_proxy.rs:249-263 | the wait ends with the first channel opening or terminal state, for good |
| PeerSession.AtMostOnceInterleaved | src/peer_proxy.rs:207-247 | however callbacks overlap, at most one disconnect and only the gated ID; once none is under way, exactly one if and only if some terminal callback read the connect flag after it was stored |
| PeerSession.FlagsOfSchedule | src/peer_proxy.rs:224-241 | what the two flags say about the schedule of any overlapping run |
| PeerSession.DisconnectFirstExactly | src/peer_proxy.rs:225-244 | the first report is a disconnect if and only if a terminal callback reads, wins and sends between a store of the connect flag and the first connect sent |
| PeerSession.MissedDisconnect | src/peer_proxy.rs:225-241 | an overlap in which a connected session's disconnect is never reported |
| PeerSession.SerialisedRuns | src/peer_proxy.rs:200-248 | callbacks run one after another are the serialised machine |
| PeerSession.OvertakenConnect | src/peer_proxy.rs:225-244 | an overlap in which the disconnect is reported before the connect |
| PeerSession.KnownIdIsToken | src/peer_proxy.rs:312-324 | only a valid token is ever published |
| PeerSession.Callbacks.PublishId | src/peer_proxy.rs:312-324 | publishes exactly the IDs that pass the gate, with the error of those that do not |
| PeerSession.Callbacks.OnStateChange | src/peer_proxy.rs:200-248 | one state change, as the serialised machine has it |
| PeerSession.Callbacks.FailDataChannelWait | src/peer_proxy.rs:417-423 | a terminal state takes the waiting sender, once |
| PeerSession.Callbacks.OnOpen | src/peer_proxy.rs:253-260 | an opened channel takes the waiting sender, once |
| DataChannel.CloseIsDelivered | src/rtc.rs:107-120 | after a close and without new messages the receiver ends within capacity plus one receives, full queue or not, whenever the detached task is first polled, and is never stuck before |
| DataChannel.ReceivedIsSubsequence | src/rtc.rs:94-106 | packets received are a sub-list of the binary messages that arrived |
| DataChannel.ThroughExactly | src/rtc.rs:94-120 | in every run, what the reader took plus what is queued is exactly what found room, in order; received packets are those taken, and the first text or close signal taken ends the reader |
| DataChannel.InvStep | src/rtc.rs:90-122 | every step keeps the capacity, the waiting order and the sub-list property |
| DataChannel.WebRtcDatagrams.OnMessage | src/rtc.rs:94-106 | queues the message if there is room, loses it otherwise |
| DataChannel.WebRtcDatagrams.OnClose | src/rtc.rs:107-120 | queues the close signal or spawns a detached task for it |
| DataChannel.WebRtcDatagrams.PollDetached | src/rtc.rs:115-117 | the detached task's first poll sends at once if there is room and waits otherwise |
| DataChannel.WebRtcDatagrams.RecvPacket | src/rtc.rs:154-162 | packet, text error or end, as the oldest queued event says; the end also when nothing is queued and no sender is left |
| Relay.RunRelay | src/relay.rs:28-49 | the relay ends with the first turn that gives a reason, with that result, and only then; either side was sent exactly the successful sends, in order, at most the packet whose send ended the relay missing; what reached the egress is a sub-list of the channel's messages |
| Relay.Explained | src/relay.rs:34-47 | each result of a relay exactly for the receives and sends that cause it |
| Relay.GoesOnExactly | src/relay.rs:34-47 | a turn goes on exactly if it gives no reason to end and drops no packet |
| Relay.LagHolds | src/relay.rs:35-46 | of all packets taken from either side, only one whose send ended the relay is not delivered |
| Relay.FromPeerSide | src/relay.rs:35-40 | the peer side's turn, for every receive and send outcome |
| Relay.FromEgressSide | src/relay.rs:41-46 | the egress side's turn, for every receive and send outcome |
| Relay.RelayEndsAfterClose | src/relay.rs:33-48 | after the peer's close the relay's peer receives are bounded by capacity plus one, however the sides are picked |
| Relay.RelayEndsByClose | src/relay.rs:33-48 | after the peer's close, with no new messages, an egress that neither ends nor fails and successful sends, the relay ends only as its peer's end or failure, has ended once capacity plus one peer receives are made, and is never stuck before |
| Subprotocol.HeaderRoundTrip | src/protocol.rs:91-104 | the header gives the same ID and version back exactly when neither has a comma or surrounding white space |
| Subprotocol.TokensRoundTrip | src/protocol.rs:106-116 | every token ID and version come back as exactly three values headed by the cookie |
| Subprotocol.TokenSurvives | src/protocol.rs:111-116 | a token survives the list reader |
| Subprotocol.TokenExactly | src/protocol.rs:111-116 | a token is non-empty visible ASCII without commas |
| Subprotocol.HeaderBytes | src/egress.rs:60-63 | the header is the cookie, the session ID and the version, joined by a comma and a space |
| Subprotocol.HeaderPieces | src/egress.rs:60-63 | the joined header splits at commas into exactly three pieces |

## Left out

- WebRTC, ICE, SDP and DTLS set-up and the ClientHello shuffle: library behaviour; only the callbacks appear, as inputs.
- Quinn internals and QUIC path validation: accept, open, closed and close reason are inputs over a per-connection closed flag.
- HTTP status mapping, WebSocket dialling, the egress tunnel's frame loop and TLS: single-branch plumbing.
- JSON and base64 encodings: decoding is an arbitrary partial function.
- Real time and entropy: durations, sleeps and entropy are inputs of each turn.
- `select_genesis`, `connect_socks5` and the binaries: they would add only easy members.
- Poisoned locks, memory ordering and counter wrap-around: steps are atomic and counters unbounded.
- Advertisements.AdvertisementStream.Next: a broken body fails every later read; a transport that recovers after an error is not modelled.
- VirtualUdpObject.VirtualUdpSocket.PollRecv: the `ecn` and `dst_ip` fields of the metadata are constants of the socket and omitted.
