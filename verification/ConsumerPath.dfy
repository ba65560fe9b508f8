/** The loop that binds one peer transport to the virtual socket.

    The first part says, from the schedule alone, what each turn finds, what it must
    do and whether it ends the loop; the second is the loop, proved to do that. */
module ConsumerPath {
  import opened Prelude
  import opened Subsequences
  import opened Channels
  import opened Transports
  import opened VirtualUdpObject
  import M = VirtualUdp

  datatype UnboundedPacket = UnboundedPacket(source: string, payload: Bytes)

  type Decoder = Bytes -> Option<UnboundedPacket>

  /** What one turn of the loop observes: the steps other tasks took meanwhile,
      whether cancellation is set, what the peer transport has, and how a send to the
      peer goes. */
  datatype Tick = Tick(others: seq<M.Event>, cancelled: bool, peer: Poll, send: Delivery)

  datatype End = PeerClosed | SocketClosed | Cancelled

  datatype PathError =
    | Transport
    | Decode
    | SourceChanged(expected: string, actual: string)
    | EmptySource
    | Receive(error: PathReceiveError)

  type Outcome = Result<End, PathError>

  /** A packet that passed the checks, and whether it entered the socket. */
  datatype Arrival = Arrival(packet: UnboundedPacket, entered: bool)

  /** A step of this call, or one of another task in between. */
  datatype Move = Own(event: M.Event) | Other(event: M.Event)

  function Events(trace: seq<Move>): seq<M.Event> {
    seq(|trace|, i requires 0 <= i < |trace| => trace[i].event)
  }

  function Tagged(es: seq<M.Event>): seq<Move> {
    seq(|es|, i requires 0 <= i < |es| => Other(es[i]))
  }

  function Owned(es: seq<M.Event>): seq<Move> {
    seq(|es|, i requires 0 <= i < |es| => Own(es[i]))
  }

  // --------------------------------------------------------------- one turn's duty

  /** The packet a turn receives, if it gets to receive one and can decode it. */
  function Received(decode: Decoder, t: Tick): Option<UnboundedPacket> {
    if !t.cancelled && t.peer.Packet? then decode(t.peer.bytes) else None
  }

  predicate WrongSource(pinned: Option<string>, packet: UnboundedPacket) {
    packet.source == "" || (pinned.Some? && pinned.value != packet.source)
  }

  /** Why a decoded packet ends the loop, if it does. A full queue is no reason. */
  function Refusal(mtu: nat, pinned: Option<string>, packet: UnboundedPacket): Option<PathError> {
    if packet.source == "" then Some(EmptySource)
    else if pinned.Some? && pinned.value != packet.source then Some(SourceChanged(pinned.value, packet.source))
    else if |packet.payload| > mtu then Some(Receive(Oversize(|packet.payload|, mtu)))
    else None
  }

  /** Whether a turn ends the loop, and how: cancellation comes first, then the peer,
      then the path's own queue. A closed socket is never a reason. */
  function VerdictOf(decode: Decoder, mtu: nat, pinned: Option<string>, t: Tick, queued: bool): Verdict<Outcome> {
    if t.cancelled then Stops(Ok(Cancelled)) else
    match t.peer
    case EndOfStream => Stops(Ok(PeerClosed))
    case Failed => Stops(Err(Transport))
    case Packet(bytes) =>
      if decode(bytes).None? then Stops(Err(Decode))
      else if Refusal(mtu, pinned, decode(bytes).value).None? then GoesOn
      else Stops(Err(Refusal(mtu, pinned, decode(bytes).value).value))
    case NothingYet =>
      if !queued || t.send.Delivered? then GoesOn else if t.send.SendFailed? then Stops(Err(Transport)) else Abandoned
  }

  /** What a turn itself does to the socket. */
  function Duty(decode: Decoder, pinned: Option<string>, t: Tick, p: nat): seq<M.Event> {
    if t.cancelled then [] else
    match t.peer
    case Packet(bytes) =>
      if decode(bytes).Some? && !WrongSource(pinned, decode(bytes).value)
      then [M.TryReceive(p, decode(bytes).value.payload)] else []
    case NothingYet => [M.NextOutgoing(p)]
    case _ => []
  }

  predicate Queued(at: M.State, p: nat) { p < |at.paths| && at.paths[p].egress.items != [] }

  /** The packet a turn takes off the path's queue. */
  function Taken(at: M.State, p: nat, t: Tick): seq<Bytes> {
    if !t.cancelled && t.peer.NothingYet? && Queued(at, p) then [at.paths[p].egress.items[0]] else []
  }

  /** The packet a turn delivers to the peer. */
  function Sent(at: M.State, p: nat, t: Tick): seq<Bytes> { if t.send.Delivered? then Taken(at, p, t) else [] }

  /** The packet a turn lets in, entered exactly if the socket's queue has room. */
  function Arrived(decode: Decoder, pinned: Option<string>, at: M.State, t: Tick): seq<Arrival> {
    var packet := Received(decode, t);
    if packet.Some? && Refusal(at.mtu, pinned, packet.value).None?
    then [Arrival(packet.value, |at.ingress.items| < at.ingress.capacity)] else []
  }

  // --------------------------------------------------------------- over a schedule

  /** One call of the loop: the socket with its path `p` added, and the turns. */
  datatype Call = Call(start: M.State, path: nat, decode: Decoder, ticks: seq<Tick>)

  function CallOf(s: M.State, remote: SocketAddr, capacity: nat, decode: Decoder, ticks: seq<Tick>): Call {
    Call(M.Step(s, M.AddPath(remote, capacity)), |s.paths|, decode, ticks)
  }

  /** The source of the first decodable packet of the first `n` turns. */
  function PinnedBy(c: Call, n: nat): Option<string>
    requires n <= |c.ticks|
  {
    if n == 0 then None
    else if PinnedBy(c, n - 1).Some? then PinnedBy(c, n - 1)
    else if Received(c.decode, c.ticks[n - 1]).Some? then Some(Received(c.decode, c.ticks[n - 1]).value.source)
    else None
  }

  /** Everything that happens to the socket during the first `n` turns. */
  function Plan(c: Call, n: nat): seq<Move>
    requires n <= |c.ticks|
  {
    if n == 0 then []
    else
      var t := c.ticks[n - 1];
      Plan(c, n - 1) + Tagged(t.others) + Owned(Duty(c.decode, PinnedBy(c, n - 1), t, c.path))
  }

  /** Everything that happens to the socket in a call of `n` turns: the path is added,
      the turns are taken, the path and then the handle `h` are dropped. */
  function TraceOf(c: Call, n: nat, remote: SocketAddr, capacity: nat, h: nat): seq<Move>
    requires n <= |c.ticks|
  {
    [Own(M.AddPath(remote, capacity))] + Plan(c, n) + [Own(M.DropPath(c.path)), Own(M.DropHandle(h))]
  }

  /** The socket as turn `i` finds it. */
  function Found(c: Call, i: nat): M.State
    requires i < |c.ticks|
  {
    M.Run(M.Run(c.start, Events(Plan(c, i))), c.ticks[i].others)
  }

  function VerdictAt(c: Call, i: nat): Verdict<Outcome>
    requires i < |c.ticks|
  {
    VerdictOf(c.decode, c.start.mtu, PinnedBy(c, i), c.ticks[i], Queued(Found(c, i), c.path))
  }

  function LogBy(c: Call, n: nat): seq<Arrival>
    requires n <= |c.ticks|
  {
    if n == 0 then [] else LogBy(c, n - 1) + Arrived(c.decode, PinnedBy(c, n - 1), Found(c, n - 1), c.ticks[n - 1])
  }

  /** What the first `n` turns take off the path's queue, and what they deliver. */
  function TakenBy(c: Call, n: nat): seq<Bytes>
    requires n <= |c.ticks|
  {
    if n == 0 then [] else TakenBy(c, n - 1) + Taken(Found(c, n - 1), c.path, c.ticks[n - 1])
  }

  function SentBy(c: Call, n: nat): seq<Bytes>
    requires n <= |c.ticks|
  {
    if n == 0 then [] else SentBy(c, n - 1) + Sent(Found(c, n - 1), c.path, c.ticks[n - 1])
  }

  /** The loop takes turns for as long as they go on: `n` of them, the last of which
      may have ended it. When the turns run out, the call was dropped between two. */
  ghost predicate EndsAfter(c: Call, n: nat, r: Option<Outcome>) {
    && n <= |c.ticks|
    && (forall i :: 0 <= i < n - 1 ==> VerdictAt(c, i) == GoesOn)
    && (n < |c.ticks| ==> n > 0 && VerdictAt(c, n - 1) != GoesOn)
    && r == (if n == 0 then None else ResultOf(VerdictAt(c, n - 1)))
  }

  /** Why a loop whose last turn met `t`, with `log` let in and `queued` saying whether
      the path had a packet to send, has the result `r`: each result exactly when the
      turn gives its reason. */
  ghost predicate Explains(t: Tick, decode: Decoder, mtu: nat, log: seq<Arrival>, queued: bool, r: Option<Outcome>) {
    && (r == Some(Ok(Cancelled)) <==> t.cancelled)
    && (r == Some(Ok(PeerClosed)) <==> !t.cancelled && t.peer == EndOfStream)
    && r != Some(Ok(SocketClosed))
    && (r == Some(Err(Transport)) <==>
          !t.cancelled && (t.peer == Failed || (t.peer == NothingYet && queued && t.send == SendFailed)))
    && (r == Some(Err(Decode)) <==> !t.cancelled && t.peer.Packet? && decode(t.peer.bytes) == None)
    && (r == Some(Err(EmptySource)) <==>
          !t.cancelled && t.peer.Packet? && decode(t.peer.bytes).Some? && decode(t.peer.bytes).value.source == "")
    && (forall expected, actual :: r == Some(Err(SourceChanged(expected, actual))) <==>
          && !t.cancelled && t.peer.Packet? && decode(t.peer.bytes).Some?
          && decode(t.peer.bytes).value.source == actual != ""
          && log != [] && log[0].packet.source == expected != actual)
    && (forall error :: r == Some(Err(Receive(error))) <==>
          && !t.cancelled && t.peer.Packet? && decode(t.peer.bytes).Some?
          && decode(t.peer.bytes).value.source != ""
          && (log != [] ==> log[0].packet.source == decode(t.peer.bytes).value.source)
          && |decode(t.peer.bytes).value.payload| > mtu
          && error == Oversize(|decode(t.peer.bytes).value.payload|, mtu))
  }

  /** A turn that gives no reason to end: nothing is cancelled, ended or failed, a packet
      decodes, fits and comes from the one source, and a packet to send is delivered. */
  ghost predicate Uneventful(t: Tick, decode: Decoder, mtu: nat, log: seq<Arrival>, queued: bool) {
    && !t.cancelled && t.peer != EndOfStream && t.peer != Failed
    && (t.peer == NothingYet && queued ==> t.send == Delivered)
    && (t.peer.Packet? ==>
          && decode(t.peer.bytes).Some? && |decode(t.peer.bytes).value.payload| <= mtu
          && log != [] && log[0].packet.source == decode(t.peer.bytes).value.source != "")
  }

  /** Every verdict has its reason in what the turn met. */
  lemma {:induction false} Explained(decode: Decoder, log: seq<Arrival>, at: M.State, t: Tick, queued: bool)
    ensures
      var v := VerdictOf(decode, at.mtu, Pinned(log), t, queued);
      var log' := log + Arrived(decode, Pinned(log), at, t);
      && Explains(t, decode, at.mtu, log', queued, ResultOf(v))
      && (v == GoesOn ==> Uneventful(t, decode, at.mtu, log', queued))
  {
    assert log + [] == log;
  }

  /** The payloads of the arrivals that entered the socket. */
  ghost function Entered(log: seq<Arrival>): seq<Bytes> {
    if log == [] then []
    else Entered(Init(log)) + (if Last(log).entered then [Last(log).packet.payload] else [])
  }

  ghost predicate SingleSource(log: seq<Arrival>) {
    forall i :: 0 <= i < |log| ==> log[i].packet.source == log[0].packet.source && log[i].packet.source != ""
  }

  /** The source identity the path is pinned to. */
  function Pinned(log: seq<Arrival>): Option<string> {
    if log == [] then None else Some(log[0].packet.source)
  }

  lemma {:induction false} EnteredSnoc(log: seq<Arrival>, a: Arrival)
    ensures Entered(log + [a]) == if a.entered then Entered(log) + [a.packet.payload] else Entered(log)
  {
    assert Init(log + [a]) == log;
  }

  lemma {:induction false} SourceExtended(log: seq<Arrival>, a: Arrival)
    requires SingleSource(log) && !WrongSource(Pinned(log), a.packet)
    ensures SingleSource(log + [a])
  {
  }

  /** At most one packet is taken and not delivered, and only by the turn that ends
      the loop. */
  lemma {:induction false} OnlyTheLastIsLost(c: Call, n: nat)
    requires n <= |c.ticks| && forall i :: 0 <= i < n ==> VerdictAt(c, i) == GoesOn
    ensures TakenBy(c, n) == SentBy(c, n)
  {
    hide *;
    if n == 0 {
      NothingAtFirst(c);
    } else {
      OnlyTheLastIsLost(c, n - 1);
      DeliversAll(c, n - 1);
      QueueNext(c, n - 1);
    }
  }

  lemma {:induction false} NothingAtFirst(c: Call)
    ensures TakenBy(c, 0) == [] == SentBy(c, 0)
  {
  }

  lemma {:induction false} QueueNext(c: Call, i: nat)
    requires i < |c.ticks|
    ensures TakenBy(c, i + 1) == TakenBy(c, i) + Taken(Found(c, i), c.path, c.ticks[i])
    ensures SentBy(c, i + 1) == SentBy(c, i) + Sent(Found(c, i), c.path, c.ticks[i])
  {
    hide Found, Taken, Sent;
  }

  lemma {:induction false} DeliversAll(c: Call, i: nat)
    requires i < |c.ticks| && VerdictAt(c, i) == GoesOn
    ensures Taken(Found(c, i), c.path, c.ticks[i]) == Sent(Found(c, i), c.path, c.ticks[i])
  {
    hide Found, Refusal;
  }

  /** The only steps this call takes on the shared socket. */
  predicate OwnMove(e: M.Event, p: nat, h: nat, remote: SocketAddr, capacity: nat) {
    match e
    case AddPath(r, c) => r == remote && c == capacity
    case TryReceive(q, _) => q == p
    case NextOutgoing(q) => q == p
    case DropPath(q) => q == p
    case DropHandle(g) => g == h
    case _ => false
  }

  /** No step of this call touches the route of another remote, as long as
      somebody else still holds the socket when the call lets go of it. */
  lemma {:induction false} OwnMoveKeepsOtherRoutes(s: M.State, e: M.Event, p: nat, h: nat, remote: SocketAddr,
                                                   capacity: nat)
    requires OwnMove(e, p, h, remote, capacity) && (p < |s.paths| ==> s.paths[p].remote == remote)
    requires M.Alive(M.Step(s, e))
    ensures M.Step(s, e).routes - {remote} == s.routes - {remote}
  {
    if M.Enabled(s, e) && e.AddPath? {
      assert s.routes[remote := |s.paths|] - {remote} == s.routes - {remote};
    }
  }

  /** A trace continued by other tasks' steps and then by this call's. */
  lemma {:induction false} TraceContinued(s: M.State, trace: seq<Move>, others: seq<M.Event>, own: seq<M.Event>)
    ensures M.Run(s, Events(trace + Tagged(others) + Owned(own))) == M.Run(M.Run(M.Run(s, Events(trace)), others), own)
  {
    assert Events(trace + Tagged(others) + Owned(own)) == Events(trace) + others + own;
    M.RunAppend(s, Events(trace), others);
    M.RunAppend(s, Events(trace) + others, own);
  }

  /** A trace preceded and followed by steps of this call. */
  lemma {:induction false} TraceEnclosed(s: M.State, first: M.Event, trace: seq<Move>, last: seq<M.Event>)
    ensures M.Run(s, Events([Own(first)] + trace + Owned(last))) == M.Run(M.Run(M.Step(s, first), Events(trace)), last)
  {
    assert Events([Own(first)] + trace + Owned(last)) == [first] + Events(trace) + last;
    M.RunOne(s, first);
    M.RunAppend(s, [first], Events(trace));
    M.RunAppend(s, [first] + Events(trace), last);
  }

  ghost predicate OwnSteps(es: seq<M.Event>, p: nat, h: nat, remote: SocketAddr, capacity: nat) {
    forall i :: 0 <= i < |es| ==> OwnMove(es[i], p, h, remote, capacity)
  }

  lemma {:induction false} OwnMovesContinued(trace: seq<Move>, others: seq<M.Event>, own: seq<M.Event>, p: nat,
                                             h: nat, remote: SocketAddr, capacity: nat)
    requires OwnMoves(trace, p, h, remote, capacity) && OwnSteps(own, p, h, remote, capacity)
    requires forall i :: 0 <= i < |others| ==> M.Foreign(others[i], p, h)
    ensures OwnMoves(trace + Tagged(others) + Owned(own), p, h, remote, capacity)
  {
  }

  lemma {:induction false} OwnMovesEnclosed(first: M.Event, trace: seq<Move>, last: seq<M.Event>, p: nat, h: nat,
                                            remote: SocketAddr, capacity: nat)
    requires OwnMove(first, p, h, remote, capacity) && OwnMoves(trace, p, h, remote, capacity)
    requires OwnSteps(last, p, h, remote, capacity)
    ensures OwnMoves([Own(first)] + trace + Owned(last), p, h, remote, capacity)
  {
  }

  ghost predicate OwnMoves(trace: seq<Move>, p: nat, h: nat, remote: SocketAddr, capacity: nat) {
    forall i :: 0 <= i < |trace| ==>
      if trace[i].Own? then OwnMove(trace[i].event, p, h, remote, capacity) else M.Foreign(trace[i].event, p, h)
  }

  lemma {:induction false} PathKeepsRemote(s: M.State, es: seq<M.Event>, p: nat)
    requires p < |s.paths|
    ensures p < |M.Run(s, es).paths| && M.Run(s, es).paths[p].remote == s.paths[p].remote
    decreases |es|
  {
    hide M.Step;
    if es == [] {
    } else {
      PathKeepsRemote(s, Init(es), p);
      M.PathsStay(M.Run(s, Init(es)), Last(es));
    }
  }

  lemma {:induction false} AddsFirst(s: M.State, h: nat, remote: SocketAddr, capacity: nat)
    requires h in s.handles && capacity > 0
    ensures
      var t := M.Step(s, M.AddPath(remote, capacity));
      |s.paths| < |t.paths| && t.paths[|s.paths|].remote == remote
  {
  }

  /** In the run of one path call, no step of the call changes the route of any other
      remote; only other tasks do. */
  lemma {:induction false} OtherRoutesUntouched(s: M.State, trace: seq<Move>, h: nat, remote: SocketAddr,
                                                capacity: nat, i: nat)
    requires h in s.handles && capacity > 0 && 0 < |trace| && trace[0] == Own(M.AddPath(remote, capacity))
    requires OwnMoves(trace, |s.paths|, h, remote, capacity)
    requires i < |trace| && trace[i].Own? && M.Alive(M.Run(s, Events(trace[..i + 1])))
    ensures M.Run(s, Events(trace[..i + 1])).routes - {remote} == M.Run(s, Events(trace[..i])).routes - {remote}
  {
    var before := Events(trace[..i]);
    var at := M.Run(s, before);
    assert Events(trace[..i + 1]) == before + [trace[i].event];
    M.RunAppend(s, before, [trace[i].event]);
    M.RunOne(at, trace[i].event);
    M.RunNone(s);
    AddsFirst(s, h, remote, capacity);
    hide M.Run, M.Step;
    if i > 0 {
      var first := [trace[0].event];
      assert before == first + Events(trace[1..i]);
      M.RunAppend(s, first, Events(trace[1..i]));
      M.RunOne(s, trace[0].event);
      PathKeepsRemote(M.Run(s, first), Events(trace[1..i]), |s.paths|);
    } else {
      assert before == [];
    }
    OwnMoveKeepsOtherRoutes(at, trace[i].event, |s.paths|, h, remote, capacity);
  }

  /** No other task uses this call's path or handle. */
  ghost predicate KeepOff(ticks: seq<Tick>, p: nat, h: nat) {
    forall k, i :: 0 <= k < |ticks| && 0 <= i < |ticks[k].others| ==> M.Foreign(ticks[k].others[i], p, h)
  }

  /** What the loop knows of the socket between turns. */
  ghost predicate Holding(socket: VirtualUdpSocket, p: nat, h: nat, remote: SocketAddr, log: seq<Arrival>,
                          handed: seq<Bytes>)
    reads socket
  {
    && socket.Valid() && M.LivePath(socket.View(), p) && h in socket.handles
    && socket.paths[p].remote == remote
    && socket.paths[p].handed == handed
    && M.AcceptedFrom(socket.accepted, p) == Entered(log)
    && SingleSource(log)
  }

  /** Offers one decoded packet to the socket, as the receiving branch does. */
  method Ingest(socket: VirtualUdpSocket, p: nat, h: nat, remote: SocketAddr, packet: UnboundedPacket,
                log: seq<Arrival>, ghost handed: seq<Bytes>)
    returns (v: Verdict<Outcome>, log': seq<Arrival>)
    requires Holding(socket, p, h, remote, log, handed)
    modifies socket
    ensures Holding(socket, p, h, remote, log', handed)
    ensures socket.View()
         == if WrongSource(Pinned(log), packet) then old(socket.View())
            else M.Step(old(socket.View()), M.TryReceive(p, packet.payload))
    ensures
      var refusal := Refusal(socket.mtu, Pinned(log), packet);
      var room := old(|socket.ingress.items|) < old(socket.ingress.capacity);
      && v == (if refusal.None? then GoesOn else Stops(Err(refusal.value)))
      && log' == log + (if refusal.None? then [Arrival(packet, room)] else [])
  {
    hide M.Inv, M.Step, M.AcceptedFrom, Entered, SingleSource;
    v, log' := GoesOn, log;
    assert log + [] == log;
    if packet.source == "" {
      return Stops(Err(EmptySource)), log;
    }
    match Pinned(log) {
      case Some(expected) =>
        if expected != packet.source {
          return Stops(Err(SourceChanged(expected, packet.source))), log;
        }
      case None =>
    }
    M.AcceptedSnoc(socket.accepted, (p, M.Datagram(remote, packet.payload)), p);
    EnteredSnoc(log, Arrival(packet, true));
    EnteredSnoc(log, Arrival(packet, false));
    SourceExtended(log, Arrival(packet, true));
    SourceExtended(log, Arrival(packet, false));
    var received := socket.TryReceive(p, packet.payload);
    match received {
      case Ok(_) => log' := log + [Arrival(packet, true)];
      case Err(QueueFull) => log' := log + [Arrival(packet, false)];
      case Err(Closed) => v := Stops(Ok(SocketClosed));
      case Err(error) => v := Stops(Err(Receive(error)));
    }
  }

  /** Takes one packet off the path's queue and sends it to the peer. */
  method Deliver(socket: VirtualUdpSocket, p: nat, h: nat, remote: SocketAddr, send: Delivery,
                 log: seq<Arrival>, forwarded: seq<Bytes>)
    returns (v: Verdict<Outcome>, forwarded': seq<Bytes>)
    requires Holding(socket, p, h, remote, log, forwarded)
    modifies socket
    ensures socket.View() == M.Step(old(socket.View()), M.NextOutgoing(p))
    ensures
      var tick := Tick([], false, NothingYet, send);
      var at := old(socket.View());
      && Holding(socket, p, h, remote, log, forwarded + Taken(at, p, tick))
      && forwarded' == forwarded + Sent(at, p, tick)
      && v == if !Queued(at, p) || send.Delivered? then GoesOn
              else if send.SendFailed? then Stops(Err(Transport)) else Abandoned
    ensures
      var items := old(socket.paths[p].egress.items);
      && forwarded' == (if items != [] && send == Delivered then forwarded + [items[0]] else forwarded)
      && socket.paths[p].handed == (if items != [] then forwarded + [items[0]] else forwarded)
  {
    hide M.Inv, M.Step, M.AcceptedFrom, Entered, SingleSource;
    v, forwarded' := GoesOn, forwarded;
    assert forwarded + [] == forwarded;
    var polled := socket.NextOutgoing(p);
    match polled {
      case Ended => v := Stops(Ok(SocketClosed));
      case Pending =>
      case Item(packet) =>
        match send {
          case Delivered => forwarded' := forwarded + [packet];
          case SendFailed => v := Stops(Err(Transport));
          case Dropped => v := Abandoned;
        }
    }
  }

  /** One turn of the loop. */
  method Turn(socket: VirtualUdpSocket, p: nat, h: nat, remote: SocketAddr, decode: Decoder, tick: Tick,
              log: seq<Arrival>, forwarded: seq<Bytes>)
    returns (v: Verdict<Outcome>, log': seq<Arrival>, forwarded': seq<Bytes>)
    requires Holding(socket, p, h, remote, log, forwarded)
    requires forall i :: 0 <= i < |tick.others| ==> M.Foreign(tick.others[i], p, h)
    modifies socket
    ensures
      var at := M.Run(old(socket.View()), tick.others);
      && socket.View() == M.Run(at, Duty(decode, Pinned(log), tick, p))
      && v == VerdictOf(decode, socket.mtu, Pinned(log), tick, Queued(at, p))
      && Holding(socket, p, h, remote, log', forwarded + Taken(at, p, tick))
      && log' == log + Arrived(decode, Pinned(log), at, tick)
      && forwarded' == forwarded + Sent(at, p, tick)
      && Explains(tick, decode, socket.mtu, log', Queued(at, p), ResultOf(v))
      && (v == GoesOn ==> Uneventful(tick, decode, socket.mtu, log', Queued(at, p)))
    // A turn sends only when it is not cancelled and the peer has nothing, and lets a
    // packet into the socket only when it received one.
    ensures tick.cancelled || tick.peer != NothingYet ==>
      forwarded' == forwarded && socket.paths[p].handed == forwarded
    ensures tick.cancelled || !tick.peer.Packet? ==> log' == log
    ensures log' != log ==> log' == log + [Last(log')] && Some(Last(log').packet) == decode(tick.peer.bytes)
  {
    hide M.Inv, M.Step, M.Run, M.AcceptedFrom, Entered, SingleSource, Refusal, WrongSource;
    hide Explains, Uneventful;
    v, log', forwarded' := GoesOn, log, forwarded;
    assert log + [] == log && forwarded + [] == forwarded;
    M.OptionsKept(socket.View(), tick.others);
    socket.Others(tick.others, p, h);
    Explained(decode, log, socket.View(), tick, Queued(socket.View(), p));
    M.RunNone(socket.View());
    if tick.cancelled {
      v := Stops(Ok(Cancelled));
      return;
    }
    match tick.peer {
      case EndOfStream => v := Stops(Ok(PeerClosed));
      case Failed => v := Stops(Err(Transport));
      case Packet(bytes) =>
        match decode(bytes) {
          case None => v := Stops(Err(Decode));
          case Some(packet) =>
            M.RunOne(socket.View(), M.TryReceive(p, packet.payload));
            v, log' := Ingest(socket, p, h, remote, packet, log, forwarded);
        }
      case NothingYet =>
        M.RunOne(socket.View(), M.NextOutgoing(p));
        v, forwarded' := Deliver(socket, p, h, remote, tick.send, log, forwarded);
    }
  }

  /** Leaving the loop drops the path first and the socket handle after it. */
  method Leave(socket: VirtualUdpSocket, p: nat, h: nat, remote: SocketAddr, log: seq<Arrival>,
               ghost handed: seq<Bytes>)
    requires Holding(socket, p, h, remote, log, handed)
    modifies socket
    ensures socket.Valid() && p < |socket.paths| && socket.paths[p].remote == remote
    ensures !M.LivePath(socket.View(), p) && !M.Routed(socket.View(), p)
    ensures socket.View() == M.Run(old(socket.View()), [M.DropPath(p), M.DropHandle(h)])
    ensures M.AcceptedFrom(socket.accepted, p) == Entered(log)
    ensures socket.paths[p].handed == handed && IsSubseq(handed, M.SentTo(socket.sent, remote))
  {
    hide M.Inv, M.Step, M.Run, IsSubseq;
    M.HandedOut(socket.View(), p);
    M.RunAppend(socket.View(), [M.DropPath(p)], [M.DropHandle(h)]);
    M.RunOne(socket.View(), M.DropPath(p));
    M.RunOne(M.Step(socket.View(), M.DropPath(p)), M.DropHandle(h));
    assert [M.DropPath(p)] + [M.DropHandle(h)] == [M.DropPath(p), M.DropHandle(h)];
    socket.DropPath(p);
    socket.DropHandle(h);
  }

  method Enter(socket: VirtualUdpSocket, h: nat, remote: SocketAddr, capacity: nat) returns (p: nat)
    requires socket.Valid() && h in socket.handles && capacity > 0
    modifies socket
    ensures p == old(|socket.paths|) && Holding(socket, p, h, remote, [], [])
    ensures socket.View() == M.Step(old(socket.View()), M.AddPath(remote, capacity)) && socket.View().mtu == socket.mtu
  {
    M.AcceptedFromNew(socket.accepted, |socket.paths|);
    p := socket.AddPath(remote, capacity);
  }

  /** Where the loop stands after `used` turns, the last of which gave `v`. */
  ghost predicate Standing(c: Call, t: M.State, used: nat, v: Verdict<Outcome>, log: seq<Arrival>,
                           forwarded: seq<Bytes>) {
    && used <= |c.ticks| && t == M.Run(c.start, Events(Plan(c, used)))
    && (forall i :: 0 <= i < used - 1 ==> VerdictAt(c, i) == GoesOn)
    && v == (if used == 0 then GoesOn else VerdictAt(c, used - 1))
    && log == LogBy(c, used) && forwarded == SentBy(c, used)
    && (v == GoesOn ==> Pinned(log) == PinnedBy(c, used))
  }

  lemma {:induction false} StandsAtFirst(c: Call)
    ensures Standing(c, c.start, 0, GoesOn, [], []) && TakenBy(c, 0) == []
  {
    hide M.Run;
    assert Events(Plan(c, 0)) == [];
    M.RunNone(c.start);
  }

  /** One more turn, on a loop that stands and goes on. */
  lemma {:induction false} StandsOn(c: Call, s: M.State, t: M.State, i: nat, v: Verdict<Outcome>, log: seq<Arrival>,
                                    forwarded: seq<Bytes>)
    requires i < |c.ticks| && Standing(c, s, i, GoesOn, log, forwarded)
    requires
      var at := M.Run(s, c.ticks[i].others);
      && t == M.Run(at, Duty(c.decode, Pinned(log), c.ticks[i], c.path))
      && v == VerdictOf(c.decode, c.start.mtu, Pinned(log), c.ticks[i], Queued(at, c.path))
      && at.mtu == c.start.mtu
    ensures
      var at := M.Run(s, c.ticks[i].others);
      && at == Found(c, i)
      && Standing(c, t, i + 1, v, log + Arrived(c.decode, Pinned(log), at, c.ticks[i]),
                  forwarded + Sent(at, c.path, c.ticks[i]))
  {
    hide M.Run, Events, Duty, Queued, Sent, Tagged, Owned;
    var others, own := c.ticks[i].others, Duty(c.decode, Pinned(log), c.ticks[i], c.path);
    TraceContinued(c.start, Plan(c, i), others, own);
    assert Plan(c, i + 1) == Plan(c, i) + Tagged(others) + Owned(own);
    assert Found(c, i) == M.Run(s, others);
    if v == GoesOn {
      PinnedNext(c, i, log);
    }
  }

  lemma {:induction false} PinnedNext(c: Call, i: nat, log: seq<Arrival>)
    requires i < |c.ticks| && Pinned(log) == PinnedBy(c, i)
    requires VerdictAt(c, i) == GoesOn && Found(c, i).mtu == c.start.mtu
    ensures Pinned(log + Arrived(c.decode, Pinned(log), Found(c, i), c.ticks[i])) == PinnedBy(c, i + 1)
  {
    hide Found;
  }

  method PumpTurn(ghost c: Call, socket: VirtualUdpSocket, p: nat, h: nat, remote: SocketAddr, decode: Decoder,
                  ticks: seq<Tick>, i: nat, log: seq<Arrival>, forwarded: seq<Bytes>)
    returns (v: Verdict<Outcome>, log': seq<Arrival>, forwarded': seq<Bytes>)
    requires i < |ticks| && KeepOff(ticks, p, h)
    requires c == Call(c.start, p, decode, ticks) && c.start.mtu == socket.mtu
    requires Holding(socket, p, h, remote, log, TakenBy(c, i)) && forwarded == TakenBy(c, i)
    requires Standing(c, socket.View(), i, GoesOn, log, forwarded)
    modifies socket
    ensures Holding(socket, p, h, remote, log', TakenBy(c, i + 1)) && (v == GoesOn ==> forwarded' == TakenBy(c, i + 1))
    ensures Standing(c, socket.View(), i + 1, v, log', forwarded')
  {
    hide M.Run, Events, Plan, M.Inv, Arrived, Duty, Holding, M.Foreign, LogBy, PinnedBy, Standing;
    ghost var s := socket.View();
    M.OptionsKept(s, ticks[i].others);
    v, log', forwarded' := Turn(socket, p, h, remote, decode, ticks[i], log, forwarded);
    StandsOn(c, s, socket.View(), i, v, log, forwarded);
  }

  /** The loop itself, over a path that is already in the table. */
  method Pump(ghost c: Call, socket: VirtualUdpSocket, p: nat, h: nat, remote: SocketAddr, decode: Decoder,
              ticks: seq<Tick>)
    returns (v: Verdict<Outcome>, used: nat, log: seq<Arrival>, forwarded: seq<Bytes>)
    requires c == Call(socket.View(), p, decode, ticks) && c.start.mtu == socket.mtu
    requires Holding(socket, p, h, remote, [], [])
    requires KeepOff(ticks, p, h)
    modifies socket
    ensures used <= |ticks| && Holding(socket, p, h, remote, log, TakenBy(c, used))
    ensures Standing(c, socket.View(), used, v, log, forwarded) && (v == GoesOn ==> used == |ticks|)
  {
    hide *;
    v, used, log, forwarded := GoesOn, 0, [], [];
    StandsAtFirst(c);
    while used < |ticks| && v == GoesOn
      invariant used <= |ticks| && Holding(socket, p, h, remote, log, TakenBy(c, used))
      invariant Standing(c, socket.View(), used, v, log, forwarded) && (v == GoesOn ==> forwarded == TakenBy(c, used))
    {
      v, log, forwarded := PumpTurn(c, socket, p, h, remote, decode, ticks, used, log, forwarded);
      used := used + 1;
    }
  }

  lemma {:induction false} OwnEnds(p: nat, h: nat, remote: SocketAddr, capacity: nat)
    ensures OwnMove(M.AddPath(remote, capacity), p, h, remote, capacity)
    ensures OwnSteps([M.DropPath(p), M.DropHandle(h)], p, h, remote, capacity)
  {
  }

  lemma {:induction false} PlanIsOwn(c: Call, n: nat, h: nat, remote: SocketAddr, capacity: nat)
    requires n <= |c.ticks|
    requires KeepOff(c.ticks, c.path, h)
    ensures OwnMoves(Plan(c, n), c.path, h, remote, capacity)
  {
    if n == 0 {
    } else {
      PlanIsOwn(c, n - 1, h, remote, capacity);
      var own := Duty(c.decode, PinnedBy(c, n - 1), c.ticks[n - 1], c.path);
      assert OwnSteps(own, c.path, h, remote, capacity);
      OwnMovesContinued(Plan(c, n - 1), c.ticks[n - 1].others, own, c.path, h, remote, capacity);
    }
  }

  /** What has been taken and not delivered when the loop is over: nothing, or the
      one packet whose send ended it. */
  ghost predicate Lag(handed: seq<Bytes>, forwarded: seq<Bytes>, c: Call, used: nat)
    requires used <= |c.ticks|
  {
    if used > 0 && VerdictAt(c, used - 1) != GoesOn
    then handed == forwarded + Taken(Found(c, used - 1), c.path, c.ticks[used - 1])
    else handed == forwarded
  }

  lemma {:induction false} LagHolds(c: Call, t: M.State, used: nat, v: Verdict<Outcome>, log: seq<Arrival>,
                                    forwarded: seq<Bytes>)
    requires Standing(c, t, used, v, log, forwarded)
    ensures Lag(TakenBy(c, used), forwarded, c, used)
  {
    hide Found, Taken, Sent, VerdictAt, TakenBy, SentBy, LogBy, PinnedBy, Plan, M.Run;
    if used == 0 || v == GoesOn {
      OnlyTheLastIsLost(c, used);
    } else {
      OnlyTheLastIsLost(c, used - 1);
      QueueNext(c, used - 1);
      NotDelivered(Found(c, used - 1), c, used - 1);
    }
  }

  /** A turn that ends the loop delivers nothing. */
  lemma {:induction false} NotDelivered(at: M.State, c: Call, i: nat)
    requires i < |c.ticks| && at == Found(c, i) && VerdictAt(c, i) != GoesOn
    ensures Sent(at, c.path, c.ticks[i]) == [] && SentBy(c, i + 1) == SentBy(c, i)
  {
  }

  /** Runs one peer path. `used` turns were taken; no result means that the call was
      dropped, between two turns or during a send. */
  method RunConsumerPath(socket: VirtualUdpSocket, h: nat, remote: SocketAddr, capacity: nat, decode: Decoder,
                         ticks: seq<Tick>)
    returns (r: Option<Outcome>, used: nat, log: seq<Arrival>, forwarded: seq<Bytes>,
             ghost c: Call, ghost trace: seq<Move>)
    requires socket.Valid() && h in socket.handles && capacity > 0
    requires KeepOff(ticks, |socket.paths|, h)
    modifies socket
    ensures socket.Valid() && c == CallOf(old(socket.View()), remote, capacity, decode, ticks)
    // The loop ends with the first turn that gives a reason, and only then.
    ensures used <= |ticks| && EndsAfter(c, used, r) && r != Some(Ok(SocketClosed))
    ensures used > 0 ==>
      Explains(ticks[used - 1], decode, socket.mtu, log, Queued(Found(c, used - 1), c.path), r)
    ensures forall i :: 0 <= i < used - 1 ==>
      Uneventful(ticks[i], decode, socket.mtu, log, Queued(Found(c, i), c.path))
    ensures used < |ticks| && r == None ==>
      Queued(Found(c, used - 1), c.path) && ticks[used - 1].send == Dropped
    // Exactly these steps, of this call and of others, happened to the socket.
    ensures trace == TraceOf(c, used, remote, capacity, h)
    ensures socket.View() == M.Run(old(socket.View()), Events(trace)) && OwnMoves(trace, c.path, h, remote, capacity)
    // Whatever ended the call, its route is gone.
    ensures c.path < |socket.paths| && socket.paths[c.path].remote == remote
    ensures !M.LivePath(socket.View(), c.path) && !M.Routed(socket.View(), c.path)
    // One non-empty source, in arrival order, losing only what met a full queue.
    ensures log == LogBy(c, used) && SingleSource(log)
    ensures M.AcceptedFrom(socket.accepted, c.path) == Entered(log)
    // What the peer was sent came out of this path's queue, for this remote.
    ensures forwarded == SentBy(c, used) && IsSubseq(forwarded, M.SentTo(socket.sent, remote))
    ensures Lag(socket.paths[c.path].handed, forwarded, c, used)
  {
    ghost var s := socket.View();
    assert |s.paths| == |socket.paths| && s.mtu == socket.mtu;
    hide *;
    c := CallOf(s, remote, capacity, decode, ticks);
    CallIs(s, remote, capacity, decode, ticks);
    var p := Enter(socket, h, remote, capacity);
    var v;
    v, used, log, forwarded := Pump(c, socket, p, h, remote, decode, ticks);
    r := ResultOf(v);
    LagHolds(c, socket.View(), used, v, log, forwarded);
    StandsThenEnds(c, socket.View(), used, v, log, forwarded);
    ReasonsHold(c, used, r);
    HoldsSource(socket, p, h, remote, log, TakenBy(c, used));
    Leave(socket, p, h, remote, log, TakenBy(c, used));
    LagIsPrefix(TakenBy(c, used), forwarded, c, used, M.SentTo(socket.sent, remote));
    ghost var last := [M.DropPath(p), M.DropHandle(h)];
    PlanIsOwn(c, used, h, remote, capacity);
    OwnEnds(p, h, remote, capacity);
    OwnMovesEnclosed(M.AddPath(remote, capacity), Plan(c, used), last, p, h, remote, capacity);
    TraceEnclosed(s, M.AddPath(remote, capacity), Plan(c, used), last);
    TraceIs(c, used, remote, capacity, h);
    trace := [Own(M.AddPath(remote, capacity))] + Plan(c, used) + Owned(last);
  }

  lemma {:induction false} CallIs(s: M.State, remote: SocketAddr, capacity: nat, decode: Decoder, ticks: seq<Tick>)
    ensures M.Step(s, M.AddPath(remote, capacity)).mtu == s.mtu
    ensures CallOf(s, remote, capacity, decode, ticks)
         == Call(M.Step(s, M.AddPath(remote, capacity)), |s.paths|, decode, ticks)
  {
  }

  lemma {:induction false} TraceIs(c: Call, n: nat, remote: SocketAddr, capacity: nat, h: nat)
    requires n <= |c.ticks|
    ensures TraceOf(c, n, remote, capacity, h)
         == [Own(M.AddPath(remote, capacity))] + Plan(c, n) + Owned([M.DropPath(c.path), M.DropHandle(h)])
  {
  }

  lemma {:induction false} StandsThenEnds(c: Call, t: M.State, used: nat, v: Verdict<Outcome>, log: seq<Arrival>,
                                          forwarded: seq<Bytes>)
    requires Standing(c, t, used, v, log, forwarded) && (v == GoesOn ==> used == |c.ticks|)
    ensures used <= |c.ticks| && EndsAfter(c, used, ResultOf(v)) && ResultOf(v) != Some(Ok(SocketClosed))
    ensures t == M.Run(c.start, Events(Plan(c, used)))
    ensures log == LogBy(c, used) && forwarded == SentBy(c, used)
  {
    hide VerdictAt, LogBy, SentBy, M.Run, Plan, PinnedBy;
    if used > 0 {
      NeverSocketClosed(c, used - 1);
    }
  }

  lemma {:induction false} NeverSocketClosed(c: Call, i: nat)
    requires i < |c.ticks|
    ensures VerdictAt(c, i) != Stops(Ok(SocketClosed))
  {
    hide Found;
  }

  /** The source of the first packet let in is the one the path is pinned to, and it
      stays so. */
  lemma {:induction false} PinnedIsFirst(c: Call, n: nat)
    requires n <= |c.ticks| && forall i :: 0 <= i < n ==> VerdictAt(c, i) == GoesOn
    requires forall i :: 0 <= i < n ==> Found(c, i).mtu == c.start.mtu
    ensures Pinned(LogBy(c, n)) == PinnedBy(c, n)
  {
    hide Found, VerdictAt, Arrived;
    if n == 0 {
    } else {
      PinnedIsFirst(c, n - 1);
      assert VerdictAt(c, n - 1) == GoesOn && Found(c, n - 1).mtu == c.start.mtu;
      PinnedNext(c, n - 1, LogBy(c, n - 1));
    }
  }

  lemma {:induction false} FoundMtu(c: Call, i: nat)
    requires i < |c.ticks|
    ensures Found(c, i).mtu == c.start.mtu
  {
    hide M.Run;
    M.OptionsKept(c.start, Events(Plan(c, i)));
    M.OptionsKept(M.Run(c.start, Events(Plan(c, i))), c.ticks[i].others);
  }

  /** The first packet let in stays the first. */
  lemma {:induction false} LogGrows(c: Call, m: nat, n: nat)
    requires m <= n <= |c.ticks|
    ensures LogBy(c, m) <= LogBy(c, n)
    decreases n - m
  {
    hide Found, Arrived;
    if m == n {
    } else {
      LogGrows(c, m, n - 1);
    }
  }

  lemma {:induction false} LastExplains(c: Call, i: nat)
    requires i < |c.ticks| && Pinned(LogBy(c, i)) == PinnedBy(c, i) && Found(c, i).mtu == c.start.mtu
    ensures Explains(c.ticks[i], c.decode, c.start.mtu, LogBy(c, i + 1), Queued(Found(c, i), c.path),
                     ResultOf(VerdictAt(c, i)))
  {
    hide Found, LogBy, Arrived, VerdictAt, Queued, Explains;
    LogNext(c, i);
    VerdictIs(c, i);
    Explained(c.decode, LogBy(c, i), Found(c, i), c.ticks[i], Queued(Found(c, i), c.path));
  }

  lemma {:induction false} LogNext(c: Call, i: nat)
    requires i < |c.ticks|
    ensures LogBy(c, i + 1) == LogBy(c, i) + Arrived(c.decode, PinnedBy(c, i), Found(c, i), c.ticks[i])
  {
    hide Found, Arrived;
  }

  lemma {:induction false} GoesOnUneventfully(c: Call, i: nat, n: nat)
    requires i < n <= |c.ticks| && VerdictAt(c, i) == GoesOn
    requires Pinned(LogBy(c, i)) == PinnedBy(c, i) && Found(c, i).mtu == c.start.mtu
    ensures Uneventful(c.ticks[i], c.decode, c.start.mtu, LogBy(c, n), Queued(Found(c, i), c.path))
  {
    hide Found, LogBy, Arrived, VerdictAt, Queued;
    LogGrows(c, i + 1, n);
    LogNext(c, i);
    var at, t := Found(c, i), c.ticks[i];
    VerdictIs(c, i);
    Explained(c.decode, LogBy(c, i), at, t, Queued(at, c.path));
  }

  lemma {:induction false} VerdictIs(c: Call, i: nat)
    requires i < |c.ticks|
    ensures VerdictAt(c, i) == VerdictOf(c.decode, c.start.mtu, PinnedBy(c, i), c.ticks[i], Queued(Found(c, i), c.path))
  {
  }

  /** The results and their reasons over a whole call. */
  lemma {:induction false} ReasonsHold(c: Call, n: nat, r: Option<Outcome>)
    requires n <= |c.ticks| && EndsAfter(c, n, r)
    ensures n > 0 ==>
      Explains(c.ticks[n - 1], c.decode, c.start.mtu, LogBy(c, n), Queued(Found(c, n - 1), c.path), r)
    ensures forall i :: 0 <= i < n - 1 ==>
      Uneventful(c.ticks[i], c.decode, c.start.mtu, LogBy(c, n), Queued(Found(c, i), c.path))
    ensures n < |c.ticks| && r == None ==> Queued(Found(c, n - 1), c.path) && c.ticks[n - 1].send == Dropped
  {
    hide Found, VerdictAt, LogBy, PinnedBy, Explains, Uneventful, Queued;
    forall i | 0 <= i < |c.ticks| ensures Found(c, i).mtu == c.start.mtu {
      FoundMtu(c, i);
    }
    if n > 0 {
      PinnedIsFirst(c, n - 1);
      LastExplains(c, n - 1);
      if n < |c.ticks| && r == None {
        AbandonedWasDropped(c, n - 1);
      }
    }
    forall i | 0 <= i < n - 1
      ensures Uneventful(c.ticks[i], c.decode, c.start.mtu, LogBy(c, n), Queued(Found(c, i), c.path))
    {
      PinnedIsFirst(c, i);
      GoesOnUneventfully(c, i, n);
    }
  }

  lemma {:induction false} AbandonedWasDropped(c: Call, i: nat)
    requires i < |c.ticks| && VerdictAt(c, i) == Abandoned
    ensures Queued(Found(c, i), c.path) && c.ticks[i].send == Dropped
  {
    hide Found;
  }

  lemma {:induction false} HoldsSource(socket: VirtualUdpSocket, p: nat, h: nat, remote: SocketAddr,
                                       log: seq<Arrival>, handed: seq<Bytes>)
    requires Holding(socket, p, h, remote, log, handed)
    ensures SingleSource(log)
  {
  }

  lemma {:induction false} LagIsPrefix(handed: seq<Bytes>, forwarded: seq<Bytes>, c: Call, used: nat, sent: seq<Bytes>)
    requires used <= |c.ticks| && Lag(handed, forwarded, c, used) && IsSubseq(handed, sent)
    ensures IsSubseq(forwarded, sent)
  {
    hide IsSubseq, Found;
    if used > 0 && VerdictAt(c, used - 1) != GoesOn {
      SubseqPrefix(forwarded, Taken(Found(c, used - 1), c.path, c.ticks[used - 1]), sent);
    }
  }

  /** A call drops no handle but its own. */
  lemma {:induction false} SparesHandle(c: Call, n: nat, g: nat)
    requires n <= |c.ticks| && forall k :: 0 <= k < |c.ticks| ==> M.DropHandle(g) !in c.ticks[k].others
    ensures M.DropHandle(g) !in Events(Plan(c, n))
  {
    if n == 0 {
    } else {
      SparesHandle(c, n - 1, g);
      var t := c.ticks[n - 1];
      var own := Duty(c.decode, PinnedBy(c, n - 1), t, c.path);
      assert M.DropHandle(g) !in own;
      assert Events(Plan(c, n)) == Events(Plan(c, n - 1)) + t.others + own;
    }
  }

  lemma {:induction false} TraceSparesHandle(c: Call, n: nat, remote: SocketAddr, capacity: nat, h: nat, g: nat)
    requires n <= |c.ticks| && g != h && forall k :: 0 <= k < |c.ticks| ==> M.DropHandle(g) !in c.ticks[k].others
    ensures M.DropHandle(g) !in Events(TraceOf(c, n, remote, capacity, h))
  {
    SparesHandle(c, n, g);
    assert Events(TraceOf(c, n, remote, capacity, h))
        == [M.AddPath(remote, capacity)] + Events(Plan(c, n)) + [M.DropPath(c.path), M.DropHandle(h)];
  }

  predicate AddsOwn(m: Move) { m.Own? && m.event.AddPath? }

  predicate AddsOther(m: Move) { m.Other? && m.event.AddPath? }

  lemma {:induction false} PlanAddsNothing(c: Call, n: nat)
    requires n <= |c.ticks|
    ensures forall k :: 0 <= k < |Plan(c, n)| ==> !AddsOwn(Plan(c, n)[k])
  {
    if n == 0 {
    } else {
      PlanAddsNothing(c, n - 1);
    }
  }

  /** A call adds one path, with its first step. */
  lemma {:induction false} TraceAddsOnce(c: Call, n: nat, remote: SocketAddr, capacity: nat, h: nat)
    requires n <= |c.ticks|
    ensures
      var trace := TraceOf(c, n, remote, capacity, h);
      trace[0] == Own(M.AddPath(remote, capacity)) && forall k :: 1 <= k < |trace| ==> !AddsOwn(trace[k])
  {
    PlanAddsNothing(c, n);
    hide Plan;
  }
}
