/** The virtual UDP socket with its replaceable peer paths, as a state machine
    whose steps may interleave in any order.

    A send is two steps, a lookup under the routing lock and then a push, so that
    a path can be dropped or replaced in between. An event that is not possible in
    a state leaves the state unchanged, so every event sequence is a run. */
module VirtualUdp {
  import opened Prelude
  import opened Subsequences
  import opened Channels

  datatype Datagram = Datagram(remote: SocketAddr, payload: Bytes)

  /** A path handle and its egress queue. `handed` is the history of what
      `next_outgoing` has returned. */
  datatype Path = Path(remote: SocketAddr, alive: bool, egress: Channel<Bytes>, handed: seq<Bytes>)

  /** A send that found a route and has not pushed yet. */
  datatype Flight = Flight(dest: SocketAddr, contents: Bytes, target: nat)

  /** `paths` only grows, so a position in it names a path and orders additions.
      `sent` is the history of completed sends that returned success, `accepted`
      of datagrams that entered the ingress queue together with the path that
      injected them, `delivered` of datagrams handed to the QUIC endpoint. */
  datatype State = State(
    mtu: nat,
    handles: set<nat>,
    routes: map<SocketAddr, nat>,
    ingress: Channel<Datagram>,
    paths: seq<Path>,
    flights: map<nat, Flight>,
    sent: seq<Datagram>,
    accepted: seq<(nat, Datagram)>,
    delivered: seq<Datagram>)

  datatype Event =
    | AddPath(remote: SocketAddr, capacity: nat)
    | DropPath(path: nat)
    | SendLookup(call: nat, dest: SocketAddr, contents: Bytes)
    | SendPush(call: nat)
    | TryReceive(path: nat, payload: Bytes)
    | NextOutgoing(path: nat)
    | PollRecv
    | CloneHandle(handle: nat)
    | DropHandle(handle: nat)

  /** The socket exists while someone holds a strong handle on it. */
  predicate Alive(s: State) { s.handles != {} }

  predicate LivePath(s: State, p: nat) { p < |s.paths| && s.paths[p].alive }

  /** The route a path owns in the table, if the table still points at it. */
  predicate Routed(s: State, p: nat)
    requires p < |s.paths|
  {
    s.paths[p].remote in s.routes && s.routes[s.paths[p].remote] == p
  }

  predicate Enabled(s: State, e: Event) {
    match e
    case AddPath(_, capacity) => Alive(s) && capacity > 0
    case DropPath(p) => LivePath(s, p)
    case SendLookup(call, _, _) => Alive(s) && call !in s.flights
    case SendPush(call) => call in s.flights && s.flights[call].target < |s.paths|
    case TryReceive(p, _) => LivePath(s, p)
    case NextOutgoing(p) => LivePath(s, p)
    case PollRecv => Alive(s)
    case CloneHandle(h) => Alive(s) && h !in s.handles
    case DropHandle(h) => h in s.handles
  }

  function MapEgress(paths: seq<Path>, p: nat, c: Channel<Bytes>): seq<Path>
    requires p < |paths|
  {
    paths[p := paths[p].(egress := c)]
  }

  function DoAddPath(s: State, remote: SocketAddr, capacity: nat): State {
    var p := |s.paths|;
    var replaced :=
      if remote in s.routes && s.routes[remote] < p then
        MapEgress(s.paths, s.routes[remote], s.paths[s.routes[remote]].egress.DropSender(RouteEntry))
      else s.paths;
    s.(routes := s.routes[remote := p],
       ingress := s.ingress.Clone(PathEnd(p)),
       paths := replaced + [Path(remote, true, Channel(capacity, [], {PathEnd(p), RouteEntry}, true), [])])
  }

  function DoDropPath(s: State, p: nat): State
    requires p < |s.paths|
  {
    var owns := Alive(s) && Routed(s, p);
    var path := s.paths[p];
    var unrouted := if owns then path.egress.DropSender(RouteEntry) else path.egress;
    s.(routes := if owns then s.routes - {path.remote} else s.routes,
       ingress := s.ingress.DropSender(PathEnd(p)),
       paths := s.paths[p := path.(alive := false, egress := unrouted.DropSender(PathEnd(p)).DropReceiver())])
  }

  function DoSendLookup(s: State, call: nat, dest: SocketAddr, contents: Bytes): State {
    if |contents| > s.mtu then s
    else if dest in s.routes && s.routes[dest] < |s.paths| then
      var p := s.routes[dest];
      s.(flights := s.flights[call := Flight(dest, contents, p)],
         paths := MapEgress(s.paths, p, s.paths[p].egress.Clone(InFlight(call))))
    else s.(sent := s.sent + [Datagram(dest, contents)])
  }

  function DoSendPush(s: State, call: nat): State
    requires call in s.flights && s.flights[call].target < |s.paths|
  {
    var f := s.flights[call];
    s.(flights := s.flights - {call},
       sent := s.sent + [Datagram(f.dest, f.contents)],
       paths := MapEgress(s.paths, f.target, s.paths[f.target].egress.Push(f.contents).DropSender(InFlight(call))))
  }

  function DoTryReceive(s: State, p: nat, payload: Bytes): State
    requires p < |s.paths|
  {
    var d := Datagram(s.paths[p].remote, payload);
    if |payload| > s.mtu || !s.ingress.SendResult().Sent? then s
    else s.(ingress := s.ingress.Push(d), accepted := s.accepted + [(p, d)])
  }

  function DoNextOutgoing(s: State, p: nat): State
    requires p < |s.paths|
  {
    var path := s.paths[p];
    if path.egress.items == [] then s
    else s.(paths := s.paths[p := path.(egress := path.egress.Pop(), handed := path.handed + [path.egress.items[0]])])
  }

  function DoPollRecv(s: State): State {
    if s.ingress.items == [] then s
    else s.(ingress := s.ingress.Pop(), delivered := s.delivered + [s.ingress.items[0]])
  }

  /** Dropping the last handle destroys the socket: its receiver, its own ingress
      sender and every routing entry go with it. */
  function DoDropHandle(s: State, h: nat): State {
    if s.handles - {h} != {} then s.(handles := s.handles - {h})
    else
      s.(handles := {},
         routes := map[],
         ingress := s.ingress.DropSender(Socket).DropReceiver(),
         paths := seq(|s.paths|, i requires 0 <= i < |s.paths| =>
           s.paths[i].(egress := s.paths[i].egress.DropSender(RouteEntry))))
  }

  function Step(s: State, e: Event): State {
    if !Enabled(s, e) then s else
    match e
    case AddPath(remote, capacity) => DoAddPath(s, remote, capacity)
    case DropPath(p) => DoDropPath(s, p)
    case SendLookup(call, dest, contents) => DoSendLookup(s, call, dest, contents)
    case SendPush(call) => DoSendPush(s, call)
    case TryReceive(p, payload) => DoTryReceive(s, p, payload)
    case NextOutgoing(p) => DoNextOutgoing(s, p)
    case PollRecv => DoPollRecv(s)
    case CloneHandle(h) => s.(handles := s.handles + {h})
    case DropHandle(h) => DoDropHandle(s, h)
  }

  function Run(s: State, es: seq<Event>): State {
    if es == [] then s else Step(Run(s, Init(es)), Last(es))
  }

  /** A new socket held once, by handle 0. */
  function Fresh(mtu: nat, capacity: nat): State {
    State(mtu, {0}, map[], Channel(capacity, [], {Socket}, true), [], map[], [], [], [])
  }

  // ------------------------------------------------------------ the invariant

  /** No path added later carries the same remote address. */
  ghost predicate IsLatest(s: State, p: nat)
    requires p < |s.paths|
  {
    forall q :: p < q < |s.paths| ==> s.paths[q].remote != s.paths[p].remote
  }

  /** Exactly who holds which channel end. */
  ghost predicate PathOwnership(s: State, p: nat)
    requires p < |s.paths|
  {
    var path := s.paths[p];
    && (path.alive <==> path.egress.open)
    && (path.alive <==> PathEnd(p) in path.egress.senders)
    && (path.alive <==> PathEnd(p) in s.ingress.senders)
    && (RouteEntry in path.egress.senders <==> Routed(s, p))
    && (forall call: nat :: InFlight(call) in path.egress.senders <==> call in s.flights && s.flights[call].target == p)
  }

  ghost predicate Ownership(s: State) {
    && (Alive(s) <==> s.ingress.open)
    && (Alive(s) <==> Socket in s.ingress.senders)
    && (forall p :: 0 <= p < |s.paths| ==> PathOwnership(s, p))
    && (forall call :: call in s.flights ==> s.flights[call].target < |s.paths|)
    && (forall p: nat :: PathEnd(p) in s.ingress.senders ==> p < |s.paths|)
  }

  /** The routing table lists the live path added last for each remote, and
      nothing else. */
  ghost predicate Routing(s: State) {
    && (forall r :: r in s.routes ==> s.routes[r] < |s.paths| && s.paths[s.routes[r]].remote == r)
    && (Alive(s) ==> forall p :: 0 <= p < |s.paths| ==> (Routed(s, p) <==> s.paths[p].alive && IsLatest(s, p)))
    && (!Alive(s) ==> s.routes == map[])
  }

  /** The payloads of completed sends to one destination, in completion order. */
  ghost function SentTo(sent: seq<Datagram>, r: SocketAddr): seq<Bytes> {
    if sent == [] then []
    else SentTo(Init(sent), r) + (if Last(sent).remote == r then [Last(sent).payload] else [])
  }

  ghost predicate EgressTraffic(s: State, p: nat)
    requires p < |s.paths|
  {
    var path := s.paths[p];
    && IsSubseq(path.handed + path.egress.items, SentTo(s.sent, path.remote))
    && |path.egress.items| <= path.egress.capacity
    && (forall i :: 0 <= i < |path.egress.items| ==> |path.egress.items[i]| <= s.mtu)
    && (!path.alive ==> path.egress.items == [])
  }

  /** A send in flight aims at a path of the destination it was given. */
  ghost predicate Flights(s: State) {
    forall call :: call in s.flights ==>
      && s.flights[call].target < |s.paths|
      && s.paths[s.flights[call].target].remote == s.flights[call].dest
      && |s.flights[call].contents| <= s.mtu
  }

  ghost predicate Egress(s: State) {
    (forall p :: 0 <= p < |s.paths| ==> EgressTraffic(s, p)) && Flights(s)
  }

  /** The datagrams of an acceptance history, without the injecting paths. */
  ghost function Datagrams(accepted: seq<(nat, Datagram)>): (ds: seq<Datagram>)
    ensures |ds| == |accepted|
  {
    seq(|accepted|, i requires 0 <= i < |accepted| => accepted[i].1)
  }

  ghost predicate Ingress(s: State) {
    && s.delivered + s.ingress.items <= Datagrams(s.accepted)
    && (Alive(s) ==> s.delivered + s.ingress.items == Datagrams(s.accepted))
    && |s.ingress.items| <= s.ingress.capacity
    && (forall i :: 0 <= i < |s.accepted| ==>
          && s.accepted[i].0 < |s.paths|
          && s.accepted[i].1.remote == s.paths[s.accepted[i].0].remote
          && |s.accepted[i].1.payload| <= s.mtu)
  }

  ghost predicate Inv(s: State) {
    Ownership(s) && Routing(s) && Egress(s) && Ingress(s)
  }

  // ------------------------------------------------------- each step keeps it

  lemma {:induction false} AddPathOwnership(s: State, remote: SocketAddr, capacity: nat)
    requires Ownership(s) && Routing(s) && Alive(s)
    ensures Ownership(DoAddPath(s, remote, capacity))
  {
    var t := DoAddPath(s, remote, capacity);
    forall p | 0 <= p < |t.paths| ensures PathOwnership(t, p) {
      if p < |s.paths| {
        assert PathOwnership(s, p);
      }
    }
  }

  lemma {:induction false} DropPathOwnership(s: State, p: nat)
    requires Ownership(s) && Routing(s) && LivePath(s, p)
    ensures Ownership(DoDropPath(s, p))
  {
    var t := DoDropPath(s, p);
    forall q | 0 <= q < |t.paths| ensures PathOwnership(t, q) {
      assert PathOwnership(s, q);
    }
  }

  lemma {:induction false} LookupOwnership(s: State, call: nat, dest: SocketAddr, contents: Bytes)
    requires Ownership(s) && Routing(s) && Alive(s) && call !in s.flights
    ensures Ownership(DoSendLookup(s, call, dest, contents))
  {
    var t := DoSendLookup(s, call, dest, contents);
    forall q | 0 <= q < |t.paths| ensures PathOwnership(t, q) {
      assert PathOwnership(s, q);
    }
  }

  lemma {:induction false} PushOwnership(s: State, call: nat)
    requires Ownership(s) && call in s.flights
    ensures Ownership(DoSendPush(s, call))
  {
    var t := DoSendPush(s, call);
    forall q | 0 <= q < |t.paths| ensures PathOwnership(t, q) {
      assert PathOwnership(s, q);
    }
  }

  lemma {:induction false} DropHandleOwnership(s: State, h: nat)
    requires Ownership(s) && Routing(s)
    ensures Ownership(DoDropHandle(s, h))
  {
    var t := DoDropHandle(s, h);
    forall q | 0 <= q < |t.paths| ensures PathOwnership(t, q) {
      assert PathOwnership(s, q);
    }
  }

  /** Ownership speaks only of who lives, who holds what, and what is in flight. */
  lemma {:induction false} OwnershipKept(s: State, t: State)
    requires Ownership(s) && (Alive(t) <==> Alive(s)) && t.routes == s.routes && t.flights == s.flights
    requires t.ingress.senders == s.ingress.senders && t.ingress.open == s.ingress.open && |t.paths| == |s.paths|
    requires forall p :: 0 <= p < |s.paths| ==>
      && t.paths[p].remote == s.paths[p].remote && t.paths[p].alive == s.paths[p].alive
      && t.paths[p].egress.senders == s.paths[p].egress.senders && t.paths[p].egress.open == s.paths[p].egress.open
    ensures Ownership(t)
  {
    forall q | 0 <= q < |t.paths| ensures PathOwnership(t, q) {
      assert PathOwnership(s, q);
    }
  }

  lemma {:induction false} OwnershipStep(s: State, e: Event)
    requires Ownership(s) && Routing(s)
    ensures Ownership(Step(s, e))
  {
    hide Ownership, Routing, DoAddPath, DoDropPath, DoSendLookup, DoSendPush, DoDropHandle;
    if Enabled(s, e) {
      match e
      case AddPath(remote, capacity) => AddPathOwnership(s, remote, capacity);
      case DropPath(p) => DropPathOwnership(s, p);
      case SendLookup(call, dest, contents) => LookupOwnership(s, call, dest, contents);
      case SendPush(call) => PushOwnership(s, call);
      case DropHandle(h) => DropHandleOwnership(s, h);
      case _ => OwnershipKept(s, Step(s, e));
    }
  }

  lemma {:induction false} AddPathRouting(s: State, remote: SocketAddr, capacity: nat)
    requires Routing(s) && Alive(s)
    ensures Routing(DoAddPath(s, remote, capacity))
  {
    var t := DoAddPath(s, remote, capacity);
    assert t.paths[|s.paths|].remote == remote;
    forall p | 0 <= p < |s.paths| ensures Routed(t, p) <==> t.paths[p].alive && IsLatest(t, p) {
      assert Routed(s, p) <==> s.paths[p].alive && IsLatest(s, p);
      assert forall q :: 0 <= q < |s.paths| ==> t.paths[q].remote == s.paths[q].remote;
      if s.paths[p].remote != remote && IsLatest(s, p) {
        assert IsLatest(t, p);
      }
    }
  }

  /** Routing speaks only of the table, of which paths live, and of remotes. */
  lemma {:induction false} RoutingKept(s: State, t: State)
    requires Routing(s)
    requires t.routes == s.routes && (Alive(t) <==> Alive(s)) && |t.paths| == |s.paths|
    requires forall p :: 0 <= p < |s.paths| ==>
      t.paths[p].remote == s.paths[p].remote && t.paths[p].alive == s.paths[p].alive
    ensures Routing(t)
  {
    forall p | Alive(t) && 0 <= p < |t.paths|
      ensures Routed(t, p) <==> t.paths[p].alive && IsLatest(t, p)
    {
      assert Routed(s, p) <==> s.paths[p].alive && IsLatest(s, p);
    }
  }

  lemma {:induction false} DropPathRouting(s: State, p: nat)
    requires Routing(s) && LivePath(s, p)
    ensures Routing(DoDropPath(s, p))
  {
    var t := DoDropPath(s, p);
    forall q | Alive(t) && 0 <= q < |t.paths|
      ensures Routed(t, q) <==> t.paths[q].alive && IsLatest(t, q)
    {
      assert Routed(s, q) <==> s.paths[q].alive && IsLatest(s, q);
      assert forall k :: 0 <= k < |s.paths| ==> t.paths[k].remote == s.paths[k].remote;
    }
  }

  lemma {:induction false} NoRoutes(s: State)
    requires !Alive(s) && s.routes == map[]
    ensures Routing(s)
  {
  }

  lemma {:induction false} RoutingStep(s: State, e: Event)
    requires Routing(s)
    ensures Routing(Step(s, e))
  {
    hide Routing, DoAddPath, DoDropPath;
    if Enabled(s, e) {
      match e
      case AddPath(remote, capacity) => AddPathRouting(s, remote, capacity);
      case DropPath(p) => DropPathRouting(s, p);
      case DropHandle(h) =>
        if s.handles - {h} != {} {
          RoutingKept(s, Step(s, e));
        } else {
          NoRoutes(DoDropHandle(s, h));
        }
      case _ => RoutingKept(s, Step(s, e));
    }
  }

  // -------------------------------------------------------------------- traffic

  lemma {:induction false} SentSnoc(sent: seq<Datagram>, d: Datagram, r: SocketAddr)
    ensures SentTo(sent + [d], r) == if d.remote == r then SentTo(sent, r) + [d.payload] else SentTo(sent, r)
  {
    assert Init(sent + [d]) == sent;
  }

  lemma {:induction false} EgressKept(s: State, t: State, p: nat)
    requires p < |s.paths| && p < |t.paths| && EgressTraffic(s, p)
    requires t.mtu == s.mtu
    requires t.paths[p].remote == s.paths[p].remote && t.paths[p].handed == s.paths[p].handed
    requires t.paths[p].egress.items == s.paths[p].egress.items
    requires t.paths[p].egress.capacity == s.paths[p].egress.capacity
    requires t.paths[p].alive == s.paths[p].alive
    requires t.sent == s.sent || exists d :: t.sent == s.sent + [d]
    ensures EgressTraffic(t, p)
  {
    if t.sent != s.sent {
      var d :| t.sent == s.sent + [d];
      SentSnoc(s.sent, d, s.paths[p].remote);
      if d.remote == s.paths[p].remote {
        SubseqSkip(s.paths[p].handed + s.paths[p].egress.items, SentTo(s.sent, d.remote), d.payload);
      }
    }
  }

  lemma {:induction false} PushTraffic(s: State, call: nat)
    requires Ownership(s) && Egress(s) && call in s.flights
    ensures EgressTraffic(DoSendPush(s, call), s.flights[call].target)
  {
    var f := s.flights[call];
    var t := DoSendPush(s, call);
    var path := s.paths[f.target];
    assert EgressTraffic(s, f.target) && PathOwnership(s, f.target);
    SentSnoc(s.sent, Datagram(f.dest, f.contents), f.dest);
    var before := path.handed + path.egress.items;
    if path.egress.SendResult().Sent? {
      SubseqTake(before, SentTo(s.sent, f.dest), f.contents);
      assert path.handed + (path.egress.items + [f.contents]) == before + [f.contents];
    } else {
      SubseqSkip(before, SentTo(s.sent, f.dest), f.contents);
    }
  }

  lemma {:induction false} DropTraffic(s: State, p: nat)
    requires Egress(s) && LivePath(s, p)
    ensures EgressTraffic(DoDropPath(s, p), p)
  {
    var path := s.paths[p];
    assert EgressTraffic(s, p);
    SubseqPrefix(path.handed, path.egress.items, SentTo(s.sent, path.remote));
    assert path.handed + [] == path.handed;
  }

  lemma {:induction false} OutgoingTraffic(s: State, p: nat)
    requires Egress(s) && LivePath(s, p)
    ensures EgressTraffic(DoNextOutgoing(s, p), p)
  {
    var path := s.paths[p];
    assert EgressTraffic(s, p);
    if path.egress.items != [] {
      assert (path.handed + [path.egress.items[0]]) + path.egress.items[1..] == path.handed + path.egress.items;
    }
  }

  /** The two halves of a send, seen from one path. */
  lemma {:induction false} SendTraffic(s: State, e: Event, p: nat)
    requires Ownership(s) && Egress(s) && Enabled(s, e) && p < |s.paths| && (e.SendLookup? || e.SendPush?)
    ensures p < |Step(s, e).paths| && EgressTraffic(Step(s, e), p)
  {
    assert EgressTraffic(s, p);
    hide Ownership, Egress, EgressTraffic;
    match e
    case SendLookup(call, dest, contents) => EgressKept(s, DoSendLookup(s, call, dest, contents), p);
    case SendPush(call) =>
      if s.flights[call].target == p {
        PushTraffic(s, call);
      } else {
        assert DoSendPush(s, call).sent == s.sent + [Datagram(s.flights[call].dest, s.flights[call].contents)];
        EgressKept(s, DoSendPush(s, call), p);
      }
  }

  /** The steps of a path's owner, seen from one path. */
  lemma {:induction false} OwnerTraffic(s: State, e: Event, p: nat)
    requires Egress(s) && Enabled(s, e) && p < |s.paths| && (e.DropPath? || e.NextOutgoing? || e.TryReceive?)
    ensures p < |Step(s, e).paths| && EgressTraffic(Step(s, e), p)
  {
    assert EgressTraffic(s, p);
    hide Egress, EgressTraffic;
    match e
    case DropPath(q) => if q == p { DropTraffic(s, p); } else { EgressKept(s, DoDropPath(s, q), p); }
    case NextOutgoing(q) => if q == p { OutgoingTraffic(s, p); } else { EgressKept(s, DoNextOutgoing(s, q), p); }
    case TryReceive(q, payload) => EgressKept(s, DoTryReceive(s, q, payload), p);
  }

  lemma {:induction false} EgressPathStep(s: State, e: Event, p: nat)
    requires Ownership(s) && Routing(s) && Egress(s) && Enabled(s, e) && p < |s.paths|
    ensures p < |Step(s, e).paths| && EgressTraffic(Step(s, e), p)
  {
    if e.SendLookup? || e.SendPush? {
      SendTraffic(s, e, p);
    } else if e.DropPath? || e.NextOutgoing? || e.TryReceive? {
      OwnerTraffic(s, e, p);
    } else {
      assert EgressTraffic(s, p);
      hide Ownership, Routing, Egress, EgressTraffic;
      EgressKept(s, Step(s, e), p);
    }
  }

  /** Paths are never forgotten and never change their remote. */
  lemma {:induction false} PathsStay(s: State, e: Event)
    ensures |s.paths| <= |Step(s, e).paths|
    ensures forall p :: 0 <= p < |s.paths| ==> Step(s, e).paths[p].remote == s.paths[p].remote
  {
  }

  lemma {:induction false} FlightsStep(s: State, e: Event)
    requires Routing(s) && Flights(s)
    ensures Flights(Step(s, e))
  {
    PathsStay(s, e);
    var t := Step(s, e);
    if e.SendLookup? && Enabled(s, e) {
      var r := e.dest;
      assert r in s.routes ==> s.paths[s.routes[r]].remote == r;
    }
    assert t.mtu == s.mtu;
    assert forall call :: call in t.flights ==>
      || (call in s.flights && t.flights[call] == s.flights[call])
      || (&& e.SendLookup? && call == e.call && Enabled(s, e) && e.dest in s.routes
          && t.flights[call] == Flight(e.dest, e.contents, s.routes[e.dest]) && |e.contents| <= s.mtu);
  }

  lemma {:induction false} EgressStep(s: State, e: Event)
    requires Ownership(s) && Routing(s) && Egress(s)
    ensures Egress(Step(s, e))
  {
    FlightsStep(s, e);
    var t := Step(s, e);
    forall p | Enabled(s, e) && 0 <= p < |t.paths| ensures EgressTraffic(t, p) {
      if p < |s.paths| {
        EgressPathStep(s, e, p);
      } else {
        assert t.paths[p].handed + t.paths[p].egress.items == [];
      }
    }
  }

  /** Ingress speaks only of the ingress side, the socket's life and the remotes. */
  lemma {:induction false} IngressKept(s: State, t: State)
    requires Ingress(s) && t.mtu == s.mtu && (Alive(t) ==> Alive(s)) && |s.paths| <= |t.paths|
    requires forall p :: 0 <= p < |s.paths| ==> t.paths[p].remote == s.paths[p].remote
    requires t.ingress.items == s.ingress.items && t.ingress.capacity == s.ingress.capacity
    requires t.accepted == s.accepted && t.delivered == s.delivered
    ensures Ingress(t)
  {
  }

  lemma {:induction false} ReceiveIngress(s: State, p: nat, payload: Bytes)
    requires Ownership(s) && Ingress(s) && LivePath(s, p)
    ensures Ingress(DoTryReceive(s, p, payload))
  {
    var t := DoTryReceive(s, p, payload);
    var d := Datagram(s.paths[p].remote, payload);
    if |payload| <= s.mtu && s.ingress.SendResult().Sent? {
      assert t.delivered + t.ingress.items == (s.delivered + s.ingress.items) + [d];
      assert Datagrams(t.accepted) == Datagrams(s.accepted) + [d];
    }
  }

  lemma {:induction false} PollIngress(s: State)
    requires Ingress(s)
    ensures Ingress(DoPollRecv(s))
  {
    assert DoPollRecv(s).delivered + DoPollRecv(s).ingress.items == s.delivered + s.ingress.items;
  }

  lemma {:induction false} IngressStep(s: State, e: Event)
    requires Ownership(s) && Ingress(s)
    ensures Ingress(Step(s, e))
  {
    PathsStay(s, e);
    if Enabled(s, e) {
      match e
      case TryReceive(p, payload) => ReceiveIngress(s, p, payload);
      case PollRecv => PollIngress(s);
      case DropHandle(h) =>
        if s.handles - {h} == {} {
          assert s.delivered + [] <= Datagrams(s.accepted);
        }
      case _ => IngressKept(s, Step(s, e));
    }
  }

  lemma {:induction false} InvStep(s: State, e: Event)
    requires Inv(s)
    ensures Inv(Step(s, e))
  {
    OwnershipStep(s, e);
    RoutingStep(s, e);
    EgressStep(s, e);
    IngressStep(s, e);
  }

  lemma {:induction false} InvRun(s: State, es: seq<Event>)
    requires Inv(s)
    ensures Inv(Run(s, es))
    decreases |es|
  {
    if es == [] {
    } else {
      InvRun(s, Init(es));
      InvStep(Run(s, Init(es)), Last(es));
    }
  }

  lemma {:induction false} RunNext(s: State, es: seq<Event>, i: nat)
    requires i < |es|
    ensures Run(s, es[..i + 1]) == Step(Run(s, es[..i]), es[i])
  {
    assert Init(es[..i + 1]) == es[..i];
  }

  lemma {:induction false} RunAppend(s: State, es: seq<Event>, fs: seq<Event>)
    ensures Run(s, es + fs) == Run(Run(s, es), fs)
    decreases |fs|
  {
    hide Step;
    if fs == [] {
      assert es + fs == es;
    } else {
      assert Init(es + fs) == es + Init(fs) && Last(es + fs) == Last(fs);
      RunAppend(s, es, Init(fs));
    }
  }

  lemma {:induction false} RunNone(s: State)
    ensures Run(s, []) == s
  {
  }

  lemma {:induction false} RunOne(s: State, e: Event)
    ensures Run(s, [e]) == Step(s, e)
  {
    assert Init([e]) == [];
  }

  /** Only its own push completes a send in flight. */
  lemma {:induction false} FlightKept(s: State, e: Event, call: nat)
    requires call in s.flights && e != SendPush(call)
    ensures call in Step(s, e).flights
  {
  }

  lemma {:induction false} InvFresh(mtu: nat, capacity: nat)
    ensures Inv(Fresh(mtu, capacity))
  {
  }

  // ------------------------------------------------------------ over whole runs

  /** The remotes whose most recently added path is still alive. */
  ghost function LiveRemotes(s: State): set<SocketAddr> {
    set p | 0 <= p < |s.paths| && s.paths[p].alive && IsLatest(s, p) :: s.paths[p].remote
  }

  lemma {:induction false} RoutesAreLiveRemotes(s: State)
    requires Routing(s) && Alive(s)
    ensures s.routes.Keys == LiveRemotes(s) && |s.routes| == |LiveRemotes(s)|
  {
    forall r | r in s.routes ensures r in LiveRemotes(s) {
      assert Routed(s, s.routes[r]);
    }
    forall r | r in LiveRemotes(s) ensures r in s.routes {
      var p :| 0 <= p < |s.paths| && s.paths[p].alive && IsLatest(s, p) && s.paths[p].remote == r;
      assert Routed(s, p);
    }
    assert |s.routes| == |s.routes.Keys|;
  }

  /** In every run, a remote has a route exactly when the path added last for it
      is alive, the route is that path, and the table has one entry for each such
      remote. */
  lemma {:induction false} RouteTable(mtu: nat, capacity: nat, es: seq<Event>)
    ensures
      var s := Run(Fresh(mtu, capacity), es);
      Alive(s) ==>
        && (forall p :: 0 <= p < |s.paths| ==> (Routed(s, p) <==> s.paths[p].alive && IsLatest(s, p)))
        && (forall r :: r in s.routes ==>
              && s.routes[r] < |s.paths| && s.paths[s.routes[r]].remote == r
              && s.paths[s.routes[r]].alive && IsLatest(s, s.routes[r]))
        && |s.routes| == |LiveRemotes(s)|
  {
    InvFresh(mtu, capacity);
    InvRun(Fresh(mtu, capacity), es);
    var s := Run(Fresh(mtu, capacity), es);
    if Alive(s) {
      RoutesAreLiveRemotes(s);
      forall r | r in s.routes ensures s.paths[s.routes[r]].alive && IsLatest(s, s.routes[r]) {
        assert Routed(s, s.routes[r]);
      }
    }
  }

  /** Dropping a path takes its own route away, if it still has it, and no other:
      a superseded path leaves its replacement in place. */
  lemma {:induction false} DropTouchesOnlyOwnRoute(mtu: nat, capacity: nat, es: seq<Event>, p: nat)
    requires LivePath(Run(Fresh(mtu, capacity), es), p)
    ensures
      var s := Run(Fresh(mtu, capacity), es);
      var t := Run(Fresh(mtu, capacity), es + [DropPath(p)]);
      && t.routes == (if Alive(s) && IsLatest(s, p) then s.routes - {s.paths[p].remote} else s.routes)
      && !Routed(t, p)
  {
    assert Init(es + [DropPath(p)]) == es;
    InvFresh(mtu, capacity);
    InvRun(Fresh(mtu, capacity), es);
    var s := Run(Fresh(mtu, capacity), es);
    assert Alive(s) ==> (Routed(s, p) <==> s.paths[p].alive && IsLatest(s, p));
  }

  /** In every run: what a path handed out followed by what it still queues is a
      sub-list of the datagrams sent to exactly its remote; the datagrams delivered
      to the endpoint followed by those queued are those accepted, in order, each
      tagged with the remote of the path that injected it; queues stay within their
      capacity and every datagram within the path MTU. */
  lemma {:induction false} TrafficConservation(mtu: nat, capacity: nat, es: seq<Event>)
    ensures
      var s := Run(Fresh(mtu, capacity), es);
      Egress(s) && Ingress(s) && s.mtu == mtu && s.ingress.capacity == capacity
  {
    InvFresh(mtu, capacity);
    InvRun(Fresh(mtu, capacity), es);
    OptionsKept(Fresh(mtu, capacity), es);
  }

  lemma {:induction false} OptionsKept(s: State, es: seq<Event>)
    ensures Run(s, es).mtu == s.mtu && Run(s, es).ingress.capacity == s.ingress.capacity
    decreases |es|
  {
    if es == [] {
    } else {
      OptionsKept(s, Init(es));
    }
  }

  /** Peer churn is never fatal. In every run, while the socket exists its receive
      never finds the ingress queue closed and a live path's injection never finds
      it closed either; a live path's own queue never reports the end. */
  lemma {:induction false} ChurnNeverFatal(mtu: nat, capacity: nat, es: seq<Event>)
    ensures
      var s := Run(Fresh(mtu, capacity), es);
      && (Alive(s) ==> !s.ingress.Poll().Ended? && !s.ingress.SendResult().Disconnected?)
      && (forall p: nat :: LivePath(s, p) ==> !s.paths[p].egress.Poll().Ended?)
  {
    InvFresh(mtu, capacity);
    InvRun(Fresh(mtu, capacity), es);
    var s := Run(Fresh(mtu, capacity), es);
    forall p: nat | LivePath(s, p) ensures !s.paths[p].egress.Poll().Ended? {
      assert PathOwnership(s, p);
    }
  }

  /** A path that outlived the socket is told so: its injections are refused as
      closed, and only then. */
  lemma {:induction false} ClosedExactlyWithoutSocket(mtu: nat, capacity: nat, es: seq<Event>)
    ensures
      var s := Run(Fresh(mtu, capacity), es);
      s.ingress.SendResult().Disconnected? <==> !Alive(s)
  {
    InvFresh(mtu, capacity);
    InvRun(Fresh(mtu, capacity), es);
  }

  lemma {:induction false} HandedOut(s: State, p: nat)
    requires Inv(s) && p < |s.paths|
    ensures IsSubseq(s.paths[p].handed, SentTo(s.sent, s.paths[p].remote))
  {
    assert EgressTraffic(s, p);
    SubseqPrefix(s.paths[p].handed, s.paths[p].egress.items, SentTo(s.sent, s.paths[p].remote));
  }

  // ------------------------------------------------- what enters a path's queue

  /** Step `j` of a run pushes a datagram that was looked up to path `p`. */
  ghost predicate PushesTo(s: State, es: seq<Event>, j: nat, p: nat) {
    && j < |es| && es[j].SendPush? && es[j].call in Run(s, es[..j]).flights
    && Run(s, es[..j]).flights[es[j].call].target == p
  }

  /** At step `j` path `p` is alive and its queue has room. */
  ghost predicate HasRoom(s: State, es: seq<Event>, j: nat, p: nat)
    requires j <= |es|
  {
    var t := Run(s, es[..j]);
    p < |t.paths| && t.paths[p].alive && |t.paths[p].egress.items| < t.paths[p].egress.capacity
  }

  /** The contents of the pushes to a path, all of them or those that found it alive
      and with room, in order. */
  ghost function Pushed(s: State, es: seq<Event>, p: nat, withRoom: bool): seq<Bytes> {
    if es == [] then []
    else
      var j := |es| - 1;
      Pushed(s, Init(es), p, withRoom)
      + if PushesTo(s, es, j, p) && (withRoom ==> HasRoom(s, es, j, p))
        then [Run(s, es[..j]).flights[es[j].call].contents] else []
  }

  /** A live path has handed out or still queues exactly what was pushed to it with
      room, in order; a dead one has handed out the first part of that. */
  ghost predicate Holds(s: State, p: nat, entered: seq<Bytes>) {
    if p >= |s.paths| then entered == []
    else if s.paths[p].alive then s.paths[p].handed + s.paths[p].egress.items == entered
    else s.paths[p].handed <= entered
  }

  lemma {:induction false} HoldsPush(s: State, call: nat, p: nat, entered: seq<Bytes>)
    requires Ownership(s) && call in s.flights && Holds(s, p, entered)
    ensures
      var f := s.flights[call];
      var room := p < |s.paths| && s.paths[p].alive && |s.paths[p].egress.items| < s.paths[p].egress.capacity;
      Holds(DoSendPush(s, call), p, entered + if f.target == p && room then [f.contents] else [])
  {
    var f := s.flights[call];
    assert PathOwnership(s, f.target);
    assert entered + [] == entered;
    if f.target == p {
      assert s.paths[p].handed + (s.paths[p].egress.items + [f.contents])
          == (s.paths[p].handed + s.paths[p].egress.items) + [f.contents];
    }
  }

  lemma {:induction false} HoldsOther(s: State, e: Event, p: nat, entered: seq<Bytes>)
    requires Routing(s) && Holds(s, p, entered) && !e.SendPush?
    ensures Holds(Step(s, e), p, entered)
  {
    if Enabled(s, e) && e == NextOutgoing(p) && s.paths[p].egress.items != [] {
      var items := s.paths[p].egress.items;
      assert (s.paths[p].handed + [items[0]]) + items[1..] == s.paths[p].handed + items;
    }
  }

  /** In every run from a new socket: a live path has handed out or still queues exactly
      the datagrams pushed to it while it had room, in order, and a dead one has handed
      out the first part of them; so a path that never met a push when dead or full has
      lost none of them, and every other push left it as it was. */
  lemma {:induction false} EgressExactly(mtu: nat, capacity: nat, es: seq<Event>, p: nat)
    ensures
      var s := Run(Fresh(mtu, capacity), es);
      Holds(s, p, Pushed(Fresh(mtu, capacity), es, p, true))
    ensures (forall j: nat :: PushesTo(Fresh(mtu, capacity), es, j, p) ==> HasRoom(Fresh(mtu, capacity), es, j, p)) ==>
      Pushed(Fresh(mtu, capacity), es, p, true) == Pushed(Fresh(mtu, capacity), es, p, false)
  {
    InvFresh(mtu, capacity);
    HoldsRun(Fresh(mtu, capacity), es, p);
    if forall j: nat :: PushesTo(Fresh(mtu, capacity), es, j, p) ==> HasRoom(Fresh(mtu, capacity), es, j, p) {
      AllHadRoom(Fresh(mtu, capacity), es, p);
    }
  }

  lemma {:induction false} HoldsRun(s: State, es: seq<Event>, p: nat)
    requires Inv(s) && s.paths == []
    ensures Holds(Run(s, es), p, Pushed(s, es, p, true))
    decreases |es|
  {
    if es == [] {
    } else {
      var t, e := Run(s, Init(es)), Last(es);
      HoldsRun(s, Init(es), p);
      InvRun(s, Init(es));
      assert es[..|es| - 1] == Init(es);
      if e.SendPush? && e.call in t.flights {
        HoldsPush(t, e.call, p, Pushed(s, Init(es), p, true));
      } else if e.SendPush? {
        assert Step(t, e) == t;
      } else {
        HoldsOther(t, e, p, Pushed(s, Init(es), p, true));
      }
      hide Holds, Inv;
      assert Pushed(s, Init(es), p, true) + [] == Pushed(s, Init(es), p, true);
    }
  }

  lemma {:induction false} AllHadRoom(s: State, es: seq<Event>, p: nat)
    requires forall j: nat :: PushesTo(s, es, j, p) ==> HasRoom(s, es, j, p)
    ensures Pushed(s, es, p, true) == Pushed(s, es, p, false)
    decreases |es|
  {
    if es == [] {
    } else {
      forall j: nat | PushesTo(s, Init(es), j, p) ensures HasRoom(s, Init(es), j, p) {
        assert Init(es)[..j] == es[..j] && Init(es)[j] == es[j];
        assert PushesTo(s, es, j, p);
      }
      AllHadRoom(s, Init(es), p);
      hide Run, HasRoom, PushesTo;
    }
  }

  /** A lookup that finds a route aims at the path the table has for that destination. */
  lemma {:induction false} LookupAims(s: State, call: nat, dest: SocketAddr, contents: Bytes)
    requires Inv(s) && Alive(s) && call !in s.flights
    ensures
      var t := Step(s, SendLookup(call, dest, contents));
      && (call in t.flights <==> |contents| <= s.mtu && dest in s.routes)
      && (call in t.flights ==>
            && t.flights[call] == Flight(dest, contents, s.routes[dest])
            && s.paths[s.routes[dest]].remote == dest && s.paths[s.routes[dest]].alive)
  {
    if dest in s.routes {
      assert Routed(s, s.routes[dest]);
    }
  }

  // ------------------------------------------- one caller that owns path and handle

  /** A step that others can take while a caller owns path `p` and the
      strong handle `h`. */
  predicate Foreign(e: Event, p: nat, h: nat) {
    match e
    case DropPath(q) => q != p
    case TryReceive(q, _) => q != p
    case NextOutgoing(q) => q != p
    case DropHandle(g) => g != h
    case _ => true
  }

  /** The payloads that entered the socket through one path, in order. */
  ghost function AcceptedFrom(accepted: seq<(nat, Datagram)>, p: nat): seq<Bytes> {
    if accepted == [] then []
    else AcceptedFrom(Init(accepted), p) + (if Last(accepted).0 == p then [Last(accepted).1.payload] else [])
  }

  lemma {:induction false} AcceptedSnoc(accepted: seq<(nat, Datagram)>, a: (nat, Datagram), p: nat)
    ensures AcceptedFrom(accepted + [a], p)
         == if a.0 == p then AcceptedFrom(accepted, p) + [a.1.payload] else AcceptedFrom(accepted, p)
  {
    assert Init(accepted + [a]) == accepted;
  }

  /** Nothing has been accepted yet from a path that does not exist. */
  lemma {:induction false} AcceptedFromNew(accepted: seq<(nat, Datagram)>, p: nat)
    requires forall i :: 0 <= i < |accepted| ==> accepted[i].0 < p
    ensures AcceptedFrom(accepted, p) == []
    decreases |accepted|
  {
    if accepted == [] {
    } else {
      AcceptedFromNew(Init(accepted), p);
    }
  }

  /** What a step of another task leaves alone. */
  ghost predicate SameForOwner(s: State, t: State, p: nat, h: nat)
    requires p < |s.paths|
  {
    && p < |t.paths| && t.paths[p].remote == s.paths[p].remote && t.paths[p].alive == s.paths[p].alive
    && t.paths[p].handed == s.paths[p].handed
    && (h in s.handles ==> h in t.handles)
    && AcceptedFrom(t.accepted, p) == AcceptedFrom(s.accepted, p)
  }

  lemma {:induction false} ForeignKeepsAccepted(s: State, e: Event, p: nat, h: nat)
    requires p < |s.paths| && Foreign(e, p, h)
    ensures AcceptedFrom(Step(s, e).accepted, p) == AcceptedFrom(s.accepted, p)
  {
    if e.TryReceive? && LivePath(s, e.path) {
      AcceptedSnoc(s.accepted, (e.path, Datagram(s.paths[e.path].remote, e.payload)), p);
    } else {
      assert Step(s, e).accepted == s.accepted;
    }
  }

  lemma {:induction false} ForeignKeepsPath(s: State, e: Event, p: nat, h: nat)
    requires p < |s.paths| && Foreign(e, p, h)
    ensures
      var t := Step(s, e);
      && p < |t.paths| && t.paths[p].remote == s.paths[p].remote && t.paths[p].alive == s.paths[p].alive
      && t.paths[p].handed == s.paths[p].handed
      && (h in s.handles ==> h in t.handles)
  {
  }

  lemma {:induction false} ForeignStep(s: State, e: Event, p: nat, h: nat)
    requires p < |s.paths| && Foreign(e, p, h)
    ensures SameForOwner(s, Step(s, e), p, h)
  {
    ForeignKeepsAccepted(s, e, p, h);
    ForeignKeepsPath(s, e, p, h);
    hide Step, AcceptedFrom;
  }

  // ---------------------------------------------------- what a long-lived owner keeps

  lemma {:induction false} HandleKept(s: State, es: seq<Event>, h: nat)
    requires h in s.handles && DropHandle(h) !in es
    ensures h in Run(s, es).handles
    decreases |es|
  {
    if es == [] {
    } else {
      assert Last(es) in es;
      HandleKept(s, Init(es), h);
      HandleStays(Run(s, Init(es)), Last(es), h);
      hide Step;
    }
  }

  lemma {:induction false} HandleStays(s: State, e: Event, h: nat)
    requires h in s.handles && e != DropHandle(h)
    ensures h in Step(s, e).handles
  {
  }

  /** Paths stay what they are, and the dead ones dead. */
  ghost predicate DeadStay(s: State, t: State) {
    && |s.paths| <= |t.paths|
    && forall p :: 0 <= p < |s.paths| ==>
         t.paths[p].remote == s.paths[p].remote && (!s.paths[p].alive ==> !t.paths[p].alive)
  }

  lemma {:induction false} DeadStayStep(s: State, e: Event)
    ensures DeadStay(s, Step(s, e))
  {
  }

  lemma {:induction false} DeadStayRun(s: State, es: seq<Event>)
    ensures DeadStay(s, Run(s, es))
    decreases |es|
  {
    if es == [] {
    } else {
      DeadStayRun(s, Init(es));
      DeadStayStep(Run(s, Init(es)), Last(es));
      hide Step;
    }
  }

  /** A dead path has no route. */
  lemma {:induction false} DeadIsUnrouted(s: State, p: nat)
    requires Routing(s) && p < |s.paths| && !s.paths[p].alive
    ensures !Routed(s, p)
  {
  }
}
