/** The socket and its paths as the object whose fields the operations update.
    Paths live in one growing table, so that a path's position stands for the
    identity of its queue. */
module VirtualUdpObject {
  import opened Prelude
  import opened Channels
  import M = VirtualUdp

  datatype SendError = OversizeSend(actual: nat, mtu: nat)

  datatype PathReceiveError = Oversize(actual: nat, mtu: nat) | QueueFull | Closed

  datatype RecvMeta = RecvMeta(addr: SocketAddr, len: nat, stride: nat)

  datatype PollOutcome = Ready(count: nat) | BrokenPipe | NotReady

  /** What the lookup half of a send decided. */
  datatype Lookup = Refused(error: SendError) | NoRoute | Found

  class VirtualUdpSocket {
    const mtu: nat
    var handles: set<nat>
    var routes: map<SocketAddr, nat>
    var ingress: Channel<M.Datagram>
    var paths: seq<M.Path>
    var flights: map<nat, M.Flight>
    ghost var sent: seq<M.Datagram>
    ghost var accepted: seq<(nat, M.Datagram)>
    ghost var delivered: seq<M.Datagram>

    ghost function View(): M.State
      reads this
    {
      M.State(mtu, handles, routes, ingress, paths, flights, sent, accepted, delivered)
    }

    ghost predicate Valid()
      reads this
    {
      M.Inv(View())
    }

    constructor (mtu: nat, capacity: nat)
      requires mtu > 0 && capacity > 0
      ensures Valid() && View() == M.Fresh(mtu, capacity)
    {
      this.mtu := mtu;
      handles := {0};
      routes := map[];
      ingress := Channel(capacity, [], {Socket}, true);
      paths := [];
      flights := map[];
      sent, accepted, delivered := [], [], [];
      new;
      M.InvFresh(mtu, capacity);
    }

    method AddPath(remote: SocketAddr, capacity: nat) returns (p: nat)
      requires Valid() && handles != {} && capacity > 0
      modifies this
      ensures Valid() && View() == M.Step(old(View()), M.AddPath(remote, capacity))
      ensures p == old(|paths|) && M.LivePath(View(), p) && paths[p].remote == remote
      ensures remote in routes && routes[remote] == p
      ensures |paths| == p + 1 && paths[p].egress.capacity == capacity && paths[p].egress.items == [] == paths[p].handed
      ensures forall q :: 0 <= q < p ==>
        && paths[q].remote == old(paths)[q].remote && paths[q].alive == old(paths)[q].alive
        && paths[q].handed == old(paths)[q].handed && paths[q].egress.items == old(paths)[q].egress.items
    {
      M.InvStep(View(), M.AddPath(remote, capacity));
      p := |paths|;
      if remote in routes {
        var prior := routes[remote];
        paths := paths[prior := paths[prior].(egress := paths[prior].egress.DropSender(RouteEntry))];
      }
      routes := routes[remote := p];
      ingress := ingress.Clone(PathEnd(p));
      paths := paths + [M.Path(remote, true, Channel(capacity, [], {PathEnd(p), RouteEntry}, true), [])];
    }

    method PathCount() returns (n: nat)
      requires Valid() && handles != {}
      ensures n == |M.LiveRemotes(View())|
    {
      M.RoutesAreLiveRemotes(View());
      n := |routes|;
    }

    /** The destructor of a path, then of its fields. */
    method DropPath(p: nat)
      requires Valid() && M.LivePath(View(), p)
      modifies this
      ensures Valid() && View() == M.Step(old(View()), M.DropPath(p))
      ensures !M.LivePath(View(), p) && !M.Routed(View(), p)
      ensures |paths| == old(|paths|)
      ensures paths[p].handed == old(paths[p].handed) && paths[p].remote == old(paths[p].remote)
      ensures handles == old(handles) && sent == old(sent) && accepted == old(accepted)
      ensures ingress.capacity == old(ingress.capacity)
      ensures forall q :: 0 <= q < |paths| && q != p ==> paths[q] == old(paths)[q]
      ensures forall r :: r != paths[p].remote ==>
        (r in routes <==> r in old(routes)) && (r in routes ==> routes[r] == old(routes)[r])
    {
      M.InvStep(View(), M.DropPath(p));
      var path := paths[p];
      if handles != {} {
        if path.remote in routes && routes[path.remote] == p {
          routes := routes - {path.remote};
          path := path.(egress := path.egress.DropSender(RouteEntry));
        }
      }
      ingress := ingress.DropSender(PathEnd(p));
      paths := paths[p := path.(alive := false, egress := path.egress.DropSender(PathEnd(p)).DropReceiver())];
    }

    method TryReceive(p: nat, payload: Bytes) returns (r: Result<(), PathReceiveError>)
      requires Valid() && M.LivePath(View(), p)
      modifies this
      ensures Valid() && View() == M.Step(old(View()), M.TryReceive(p, payload))
      ensures old(|ingress.items|) <= ingress.capacity
      ensures r == if |payload| > mtu then Err(Oversize(|payload|, mtu))
                   else if handles == {} then Err(Closed)
                   else if old(|ingress.items|) == ingress.capacity then Err(QueueFull)
                   else Ok(())
      ensures paths == old(paths) && handles == old(handles) && ingress.capacity == old(ingress.capacity)
      ensures r.Ok? ==> accepted == old(accepted) + [(p, M.Datagram(paths[p].remote, payload))]
      ensures r.Err? ==> accepted == old(accepted)
    {
      M.InvStep(View(), M.TryReceive(p, payload));
      if |payload| > mtu {
        return Err(Oversize(|payload|, mtu));
      }
      var d := M.Datagram(paths[p].remote, payload);
      match ingress.SendResult() {
        case Sent =>
          ingress := ingress.Push(d);
          accepted := accepted + [(p, d)];
          r := Ok(());
        case Full => r := Err(QueueFull);
        case Disconnected => r := Err(Closed);
      }
    }

    method NextOutgoing(p: nat) returns (r: Polled<Bytes>)
      requires Valid() && M.LivePath(View(), p)
      modifies this
      ensures Valid() && View() == M.Step(old(View()), M.NextOutgoing(p))
      ensures !r.Ended? && M.LivePath(View(), p) && paths[p].remote == old(paths[p].remote)
      ensures handles == old(handles) && accepted == old(accepted) && ingress == old(ingress)
      ensures r.Item? ==>
        && paths[p].handed == old(paths[p].handed) + [r.value]
        && old(paths[p].egress.items) == [r.value] + paths[p].egress.items
      ensures r.Pending? <==> old(paths[p].egress.items) == []
      ensures r.Pending? ==> View() == old(View())
    {
      M.InvStep(View(), M.NextOutgoing(p));
      assert M.PathOwnership(View(), p);
      var path := paths[p];
      r := path.egress.Poll();
      if r.Item? {
        paths := paths[p := path.(egress := path.egress.Pop(), handed := path.handed + [r.value])];
      }
    }

    method SendLookup(call: nat, dest: SocketAddr, contents: Bytes) returns (r: Lookup)
      requires Valid() && handles != {} && call !in flights
      modifies this
      ensures Valid() && View() == M.Step(old(View()), M.SendLookup(call, dest, contents))
      ensures r.Refused? <==> |contents| > mtu
      ensures r.Refused? ==> r.error == OversizeSend(|contents|, mtu)
      ensures r.Found? <==> call in flights
      ensures r.Found? <==> |contents| <= mtu && dest in routes
      ensures r.Found? ==> flights[call] == M.Flight(dest, contents, routes[dest])
      ensures routes == old(routes) && |paths| == old(|paths|)
      ensures forall q :: 0 <= q < |paths| ==>
        paths[q].alive == old(paths)[q].alive && paths[q].egress.items == old(paths)[q].egress.items
    {
      M.InvStep(View(), M.SendLookup(call, dest, contents));
      if |contents| > mtu {
        return Refused(OversizeSend(|contents|, mtu));
      }
      if dest in routes {
        var p := routes[dest];
        flights := flights[call := M.Flight(dest, contents, p)];
        paths := paths[p := paths[p].(egress := paths[p].egress.Clone(InFlight(call)))];
        r := Found;
      } else {
        sent := sent + [M.Datagram(dest, contents)];
        r := NoRoute;
      }
    }

    /** The push half: a full or closed queue is packet loss, never an error. */
    method SendPush(call: nat)
      requires Valid() && call in flights
      modifies this
      ensures Valid() && View() == M.Step(old(View()), M.SendPush(call))
      ensures call !in flights && old(flights[call].target) < |paths| == |old(paths)|
      ensures
        var p := old(flights[call].target);
        var before := old(paths)[p];
        paths[p].egress.items
          == if before.alive && |before.egress.items| < before.egress.capacity
             then before.egress.items + [old(flights[call].contents)] else before.egress.items
      ensures forall q :: 0 <= q < |paths| && q != old(flights[call].target) ==> paths[q] == old(paths)[q]
    {
      M.InvStep(View(), M.SendPush(call));
      assert M.PathOwnership(View(), flights[call].target);
      var f := flights[call];
      var path := paths[f.target];
      flights := flights - {call};
      sent := sent + [M.Datagram(f.dest, f.contents)];
      paths := paths[f.target := path.(egress := path.egress.Push(f.contents).DropSender(InFlight(call)))];
    }

    /** One whole send; the other tasks' steps `between` its two halves are
        arbitrary, except that they do not complete this call. */
    method TrySend(call: nat, dest: SocketAddr, contents: Bytes, between: seq<M.Event>)
      returns (r: Result<(), SendError>)
      requires Valid() && handles != {} && call !in flights
      requires M.SendPush(call) !in between
      modifies this
      ensures Valid()
      ensures r == if |contents| > mtu then Err(OversizeSend(|contents|, mtu)) else Ok(())
      ensures
        var rest := if |contents| <= mtu && dest in old(routes) then between + [M.SendPush(call)] else [];
        View() == M.Run(old(View()), [M.SendLookup(call, dest, contents)] + rest)
      ensures |contents| > mtu ==> View() == old(View())
    {
      ghost var lookup := [M.SendLookup(call, dest, contents)];
      assert lookup + [] == lookup && lookup[..0] == [];
      M.RunAppend(View(), [], lookup);
      var found := SendLookup(call, dest, contents);
      match found {
        case Refused(error) => return Err(error);
        case NoRoute =>
        case Found =>
          M.RunAppend(old(View()), lookup, between);
          M.RunAppend(old(View()), lookup + between, [M.SendPush(call)]);
          assert lookup + between + [M.SendPush(call)] == lookup + (between + [M.SendPush(call)]);
          Interfere(between, call);
          SendPush(call);
      }
      r := Ok(());
    }

    /** Steps of other tasks that leave the send `call` in flight. */
    method Interfere(es: seq<M.Event>, call: nat)
      requires Valid() && call in flights && M.SendPush(call) !in es
      modifies this
      ensures Valid() && View() == M.Run(old(View()), es) && call in flights
    {
      var i := 0;
      while i < |es|
        invariant 0 <= i <= |es|
        invariant Valid() && View() == M.Run(old(View()), es[..i]) && call in flights
      {
        M.FlightKept(View(), es[i], call);
        M.RunNext(old(View()), es, i);
        Apply(es[i]);
        i := i + 1;
      }
      assert es[..i] == es;
    }

    /** Steps of other tasks while the caller owns path `p` and handle `h`. */
    method Others(es: seq<M.Event>, p: nat, h: nat)
      requires Valid() && M.LivePath(View(), p) && h in handles
      requires forall i :: 0 <= i < |es| ==> M.Foreign(es[i], p, h)
      modifies this
      ensures Valid() && View() == M.Run(old(View()), es)
      ensures M.SameForOwner(old(View()), View(), p, h)
    {
      var i := 0;
      while i < |es|
        invariant 0 <= i <= |es|
        invariant Valid() && View() == M.Run(old(View()), es[..i])
        invariant M.SameForOwner(old(View()), View(), p, h)
      {
        M.ForeignStep(View(), es[i], p, h);
        M.RunNext(old(View()), es, i);
        Apply(es[i]);
        i := i + 1;
      }
      assert es[..i] == es;
    }

    method PollRecv(bufs: seq<array<u8>>, metas: array<RecvMeta>) returns (r: PollOutcome)
      requires Valid() && handles != {}
      modifies this, metas, set b | b in bufs
      ensures Valid()
      ensures !r.BrokenPipe?
      ensures |bufs| == 0 || metas.Length == 0 ==> r == Ready(0) && View() == old(View())
      ensures |bufs| != 0 && metas.Length != 0 ==> View() == M.Step(old(View()), M.PollRecv)
      ensures |bufs| != 0 && metas.Length != 0 ==>
        (r == Ready(1) <==> old(ingress.items) != []) && (r.Ready? || r.NotReady?)
      ensures r == Ready(1) && |bufs| != 0 && metas.Length != 0 && old(ingress.items) != [] ==>
        var d := old(ingress.items)[0];
        var len := Min(|d.payload|, bufs[0].Length);
        && delivered == old(delivered) + [d]
        && bufs[0][..len] == d.payload[..len] && bufs[0][len..] == old(bufs[0][len..])
        && metas[0] == RecvMeta(d.remote, len, len)
        && (bufs[0].Length >= mtu ==> len == |d.payload|)
    {
      if |bufs| == 0 || metas.Length == 0 {
        return Ready(0);
      }
      M.InvStep(View(), M.PollRecv);
      match ingress.Poll() {
        case Item(d) =>
          assert (delivered + ingress.items)[|delivered|] == d;
          assert M.Datagrams(accepted)[|delivered|] == d;
          ingress := ingress.Pop();
          delivered := delivered + [d];
          var len := Min(|d.payload|, bufs[0].Length);
          forall i | 0 <= i < len {
            bufs[0][i] := d.payload[i];
          }
          metas[0] := RecvMeta(d.remote, len, len);
          r := Ready(1);
        case Ended => r := BrokenPipe;
        case Pending => r := NotReady;
      }
    }

    method CloneHandle(h: nat)
      requires Valid() && handles != {} && h !in handles
      modifies this
      ensures Valid() && View() == M.Step(old(View()), M.CloneHandle(h)) && handles == old(handles) + {h}
    {
      M.InvStep(View(), M.CloneHandle(h));
      handles := handles + {h};
    }

    method DropHandle(h: nat)
      requires Valid() && h in handles
      modifies this
      ensures Valid() && View() == M.Step(old(View()), M.DropHandle(h))
      ensures handles == old(handles) - {h} && |paths| == old(|paths|)
      ensures routes == if handles == {} then map[] else old(routes)
      ensures forall q :: 0 <= q < |paths| ==>
        && paths[q].handed == old(paths)[q].handed && paths[q].remote == old(paths)[q].remote
        && paths[q].alive == old(paths)[q].alive
      ensures sent == old(sent) && accepted == old(accepted) && ingress.capacity == old(ingress.capacity)
    {
      M.InvStep(View(), M.DropHandle(h));
      handles := handles - {h};
      if handles == {} {
        routes := map[];
        ingress := ingress.DropSender(Socket).DropReceiver();
        var before := paths;
        paths := seq(|before|, i requires 0 <= i < |before| =>
          before[i].(egress := before[i].egress.DropSender(RouteEntry)));
        assert paths == M.Step(old(View()), M.DropHandle(h)).paths;
      }
    }

    /** One step of another task; a step that is not possible does nothing. */
    method Apply(e: M.Event)
      requires Valid()
      modifies this
      ensures Valid() && View() == M.Step(old(View()), e)
    {
      match e
      case AddPath(remote, capacity) =>
        if handles != {} && capacity > 0 { var _ := AddPath(remote, capacity); }
      case DropPath(p) =>
        if p < |paths| && paths[p].alive { DropPath(p); }
      case SendLookup(call, dest, contents) =>
        if handles != {} && call !in flights { var _ := SendLookup(call, dest, contents); }
      case SendPush(call) =>
        if call in flights { SendPush(call); }
      case TryReceive(p, payload) =>
        if p < |paths| && paths[p].alive { var _ := TryReceive(p, payload); }
      case NextOutgoing(p) =>
        if p < |paths| && paths[p].alive { var _ := NextOutgoing(p); }
      case PollRecv =>
        if handles != {} {
          var buf := new u8[mtu];
          var metas := new RecvMeta[1](_ => RecvMeta(V4([0, 0, 0, 0], 0), 0, 0));
          var _ := PollRecv([buf], metas);
        }
      case CloneHandle(h) =>
        if handles != {} && h !in handles { CloneHandle(h); }
      case DropHandle(h) =>
        if h in handles { DropHandle(h); }
    }
  }
}
