/** One socket among any number of consumers that share an allocator. */
module SharedSocket {
  import opened Prelude
  import opened Subsequences
  import opened SyntheticPaths
  import opened ConsumerTurns
  import opened Consumer
  import M = VirtualUdp
  import P = ConsumerPath

  /** Every path that these steps add has the address of an allocator call of its own;
      `calls` gives the call for each step. Calls and additions may come in any order. */
  ghost predicate OwnCalls(es: seq<M.Event>, calls: seq<nat>) {
    && |calls| == |es|
    && (forall i :: 0 <= i < |es| && es[i].AddPath? ==> NthAllocation(calls[i]) == Ok(es[i].remote))
    && (forall i, j :: 0 <= i < j < |es| && es[i].AddPath? && es[j].AddPath? ==> calls[i] != calls[j])
  }

  ghost predicate DistinctRemotes(s: M.State) {
    forall p, q :: 0 <= p < q < |s.paths| ==> s.paths[p].remote != s.paths[q].remote
  }

  /** Every path was added by one of these steps. */
  ghost predicate AddedBy(s: M.State, es: seq<M.Event>) {
    forall p :: 0 <= p < |s.paths| ==> AddsRemote(es, s.paths[p].remote)
  }

  ghost predicate AddsRemote(es: seq<M.Event>, remote: SocketAddr) {
    exists i :: 0 <= i < |es| && es[i].AddPath? && es[i].remote == remote
  }

  lemma {:induction false} AddsRemoteKept(es: seq<M.Event>, remote: SocketAddr)
    requires es != [] && AddsRemote(Init(es), remote)
    ensures AddsRemote(es, remote)
  {
    var i :| 0 <= i < |Init(es)| && Init(es)[i].AddPath? && Init(es)[i].remote == remote;
    assert es[i].AddPath? && es[i].remote == remote;
  }

  /** The last step's address is none that an earlier step added. */
  lemma {:induction false} LastIsNew(es: seq<M.Event>, calls: seq<nat>)
    requires es != [] && OwnCalls(es, calls) && Last(es).AddPath?
    ensures !AddsRemote(Init(es), Last(es).remote) && AddsRemote(es, Last(es).remote)
  {
    hide NthAllocation;
    var n := |es| - 1;
    assert es[n].AddPath?;
    if AddsRemote(Init(es), Last(es).remote) {
      var i :| 0 <= i < |Init(es)| && Init(es)[i].AddPath? && Init(es)[i].remote == Last(es).remote;
      assert es[i].AddPath?;
      DistinctCalls(calls[i], calls[n]);
    }
  }

  /** What a step does to the list of paths. */
  lemma {:induction false} PathsAfter(s: M.State, e: M.Event)
    ensures
      var t := M.Step(s, e);
      if e.AddPath? && M.Enabled(s, e) then |t.paths| == |s.paths| + 1 && t.paths[|s.paths|].remote == e.remote
      else |t.paths| == |s.paths|
  {
  }

  lemma {:induction false} RemotesOfRun(s: M.State, es: seq<M.Event>, calls: seq<nat>)
    requires s.paths == [] && OwnCalls(es, calls)
    ensures DistinctRemotes(M.Run(s, es)) && AddedBy(M.Run(s, es), es)
    decreases |es|
  {
    hide M.Step, NthAllocation, AddsRemote;
    if es == [] {
    } else {
      var before, t := M.Run(s, Init(es)), M.Run(s, es);
      OwnCallsInit(es, calls);
      RemotesOfRun(s, Init(es), Init(calls));
      M.PathsStay(before, Last(es));
      PathsAfter(before, Last(es));
      if Last(es).AddPath? {
        LastIsNew(es, calls);
      }
      forall p | 0 <= p < |t.paths| ensures AddsRemote(es, t.paths[p].remote) {
        if p < |before.paths| {
          AddsRemoteKept(es, before.paths[p].remote);
        }
      }
    }
  }

  lemma {:induction false} OwnCallsInit(es: seq<M.Event>, calls: seq<nat>)
    requires es != [] && OwnCalls(es, calls)
    ensures OwnCalls(Init(es), Init(calls))
  {
    hide NthAllocation;
  }

  ghost function LivePaths(s: M.State): set<nat> { set p: nat | p < |s.paths| && s.paths[p].alive }

  /** With remotes all distinct, a path is routed exactly while it lives. */
  lemma {:induction false} LiveIsRouted(s: M.State)
    requires M.Routing(s) && M.Alive(s) && DistinctRemotes(s)
    ensures forall p :: 0 <= p < |s.paths| ==> (M.Routed(s, p) <==> s.paths[p].alive)
    ensures |s.routes| == |LivePaths(s)|
  {
    forall p | 0 <= p < |s.paths| ensures M.Routed(s, p) <==> s.paths[p].alive {
      assert M.IsLatest(s, p);
    }
    forall r | r in s.routes ensures s.routes[r] in LivePaths(s) {
      assert M.Routed(s, s.routes[r]);
    }
    SameSize(s, s.routes, LivePaths(s));
  }

  lemma {:induction false} SameSize(s: M.State, routes: map<SocketAddr, nat>, live: set<nat>)
    requires forall p :: p in live ==> p < |s.paths| && s.paths[p].remote in routes && routes[s.paths[p].remote] == p
    requires forall r :: r in routes ==> routes[r] in live && s.paths[routes[r]].remote == r
    ensures |routes| == |live|
    decreases |live|
  {
    if live == {} {
      assert routes.Keys == {};
      assert |routes| == |routes.Keys|;
    } else {
      var p :| p in live;
      var r := s.paths[p].remote;
      var rest := routes - {r};
      assert rest.Keys == routes.Keys - {r};
      assert |rest| == |rest.Keys| && |routes| == |routes.Keys|;
      SameSize(s, rest, live - {p});
    }
  }

  /** With every remote from an allocator call of its own, whichever consumers make
      the calls and in whatever order they then add their paths, no addition
      supersedes a route, a path is routed exactly while it lives, and the table has
      one entry for each live path. */
  lemma {:induction false} PairingSupersedesNothing(mtu: nat, capacity: nat, es: seq<M.Event>, calls: seq<nat>)
    requires OwnCalls(es, calls)
    ensures
      var s := M.Run(M.Fresh(mtu, capacity), es);
      M.Alive(s) ==>
        && (forall p :: 0 <= p < |s.paths| ==> (M.Routed(s, p) <==> s.paths[p].alive))
        && |s.routes| == |LivePaths(s)|
    ensures forall i :: 0 <= i < |es| && es[i].AddPath? ==>
      es[i].remote !in M.Run(M.Fresh(mtu, capacity), es[..i]).routes
  {
    hide NthAllocation, M.Step;
    var start := M.Fresh(mtu, capacity);
    var s := M.Run(start, es);
    M.InvFresh(mtu, capacity);
    M.InvRun(start, es);
    RemotesOfRun(start, es, calls);
    if M.Alive(s) {
      LiveIsRouted(s);
    }
    forall i | 0 <= i < |es| && es[i].AddPath? ensures es[i].remote !in M.Run(start, es[..i]).routes {
      AddsWithoutRoute(start, es, calls, i);
    }
  }

  lemma {:induction false} AddsWithoutRoute(start: M.State, es: seq<M.Event>, calls: seq<nat>, i: nat)
    requires M.Inv(start) && start.paths == [] && OwnCalls(es, calls) && i < |es| && es[i].AddPath?
    ensures es[i].remote !in M.Run(start, es[..i]).routes
  {
    hide NthAllocation, M.Step, AddsRemote;
    var s := M.Run(start, es[..i]);
    M.InvRun(start, es[..i]);
    RemotesOfRun(start, es[..i], calls[..i]);
    assert Init(es[..i + 1]) == es[..i] && Last(es[..i + 1]) == es[i];
    LastIsNew(es[..i + 1], calls[..i + 1]);
  }

  /** The additions of other tasks have addresses of other consumers' calls, one each. */
  ghost predicate OtherAdditions(history: seq<P.Move>, calls: seq<nat>, turns: seq<Turn>, base: nat) {
    && |calls| == |history|
    && (forall k :: 0 <= k < |history| && P.AddsOther(history[k]) ==>
          && NthAllocation(calls[k]) == Ok(history[k].event.remote)
          && (OthersCall(turns, base, calls[k]) || calls[k] >= Calls(turns, base)))
    && (forall k, l :: 0 <= k < l < |history| && P.AddsOther(history[k]) && P.AddsOther(history[l]) ==>
          calls[k] != calls[l])
  }

  /** The whole history of a consumer on a new socket, among other consumers of its
      allocator: no path it adds supersedes a route or loses its own to another's, and
      the table has one entry for each live path. */
  lemma {:induction false} ConsumerSupersedesNothing(mtu: nat, capacity: nat, history: seq<P.Move>, calls: seq<nat>,
                                                     turns: seq<Turn>, base: nat)
    requires OwnAdditions(history, calls, turns, base) && OtherAdditions(history, calls, turns, base)
    ensures
      var s := M.Run(M.Fresh(mtu, capacity), P.Events(history));
      M.Alive(s) ==>
        && (forall p :: 0 <= p < |s.paths| ==> (M.Routed(s, p) <==> s.paths[p].alive))
        && |s.routes| == |LivePaths(s)|
    ensures forall k :: 0 <= k < |history| && history[k].event.AddPath? ==>
      history[k].event.remote !in M.Run(M.Fresh(mtu, capacity), P.Events(history[..k])).routes
  {
    hide NthAllocation, Calls, OwnCall, OthersCall, M.Run, M.Routed, LivePaths;
    var es := P.Events(history);
    forall i, j | 0 <= i < j < |es| && es[i].AddPath? && es[j].AddPath? ensures calls[i] != calls[j] {
      if history[i].Own? && history[j].Other? {
        OwnIsNotOthers(turns, base, calls[i]);
      } else if history[i].Other? && history[j].Own? {
        OwnIsNotOthers(turns, base, calls[j]);
      }
    }
    forall i | 0 <= i < |es| && es[i].AddPath? ensures NthAllocation(calls[i]) == Ok(es[i].remote) {
      assert history[i].Own? ==> P.AddsOwn(history[i]);
    }
    PairingSupersedesNothing(mtu, capacity, es, calls);
    forall k | 0 <= k < |history| && history[k].event.AddPath?
      ensures history[k].event.remote !in M.Run(M.Fresh(mtu, capacity), P.Events(history[..k])).routes
    {
      assert P.Events(history[..k]) == es[..k] && es[k].AddPath?;
    }
  }
}
