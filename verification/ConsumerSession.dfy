/** One session of a consumer: its path, run on the shared socket with an address of
    the shared allocator. */
module ConsumerSession {
  import opened Prelude
  import opened Subsequences
  import opened SyntheticPaths
  import opened ConsumerTurns
  import opened VirtualUdpObject
  import M = VirtualUdp
  import P = ConsumerPath

  /** What stays the same over a run: the allocator's calls so far, the queue capacity,
      the decoder and the consumer's own socket handle. */
  datatype Setting = Setting(base: nat, capacity: nat, decode: P.Decoder, own: nat)

  /** What an attempt meets: steps of other tasks before it, and a session that gets
      no channel, or gets one and runs its path. */
  datatype Attempt =
    Attempt(before: bool, others: nat, meanwhile: seq<M.Event>, ticks: Option<seq<P.Tick>>, during: bool, asleep: bool)

  /** The steps other tasks can take: not on a path or handle that is not theirs, and
      never dropping the consumer's own handle `own`. */
  function Spared(es: seq<M.Event>, own: nat): seq<M.Event> {
    if es == [] then [] else Spared(Init(es), own) + if Last(es) == M.DropHandle(own) then [] else [Last(es)]
  }

  function Legal(es: seq<M.Event>, p: nat, h: nat): seq<M.Event> {
    if es == [] then [] else Legal(Init(es), p, h) + if M.Foreign(Last(es), p, h) then [Last(es)] else []
  }

  function LegalTicks(ticks: seq<P.Tick>, p: nat, h: nat, own: nat): (legal: seq<P.Tick>)
    ensures |legal| == |ticks|
  {
    seq(|ticks|, i requires 0 <= i < |ticks| => ticks[i].(others := Spared(Legal(ticks[i].others, p, h), own)))
  }

  lemma {:induction false} SparedIs(es: seq<M.Event>, own: nat)
    ensures M.DropHandle(own) !in Spared(es, own) && forall e :: e in Spared(es, own) ==> e in es
    decreases |es|
  {
    if es == [] {
    } else {
      SparedIs(Init(es), own);
      assert es == Init(es) + [Last(es)];
    }
  }

  lemma {:induction false} LegalIs(es: seq<M.Event>, p: nat, h: nat)
    ensures forall e :: e in Legal(es, p, h) ==> M.Foreign(e, p, h)
    decreases |es|
  {
    if es == [] {
    } else {
      LegalIs(Init(es), p, h);
    }
  }

  lemma {:induction false} LegalTicksKeepOff(ticks: seq<P.Tick>, p: nat, h: nat, own: nat)
    ensures
      var legal := LegalTicks(ticks, p, h, own);
      P.KeepOff(legal, p, h) && forall k :: 0 <= k < |legal| ==> M.DropHandle(own) !in legal[k].others
  {
    var legal := LegalTicks(ticks, p, h, own);
    forall k | 0 <= k < |ticks|
      ensures M.DropHandle(own) !in legal[k].others && forall e :: e in legal[k].others ==> M.Foreign(e, p, h)
    {
      LegalIs(ticks[k].others, p, h);
      SparedIs(Legal(ticks[k].others, p, h), own);
    }
  }

  function EndOf(r: Option<P.Outcome>): Option<P.End> {
    if r.Some? && r.value.Ok? then Some(r.value.value) else None
  }

  /** A session has an end exactly when its path loop returned one. */
  lemma {:induction false} EndOfExactly(r: Option<P.Outcome>, end: P.End)
    ensures EndOf(r) == Some(end) <==> r == Some(Ok(end))
  {
  }

  /** The path loop as a session calls it on the socket `s`, with a new clone `h` of the
      socket handle. */
  function PathCall(s: M.State, ticks: seq<P.Tick>, remote: SocketAddr, c: Setting, h: nat): P.Call {
    var u := M.Step(s, M.CloneHandle(h));
    P.CallOf(u, remote, c.capacity, c.decode, LegalTicks(ticks, |u.paths|, h, c.own))
  }

  /** Everything that happens to the socket while that call takes `n` turns. */
  function PathSteps(s: M.State, ticks: seq<P.Tick>, remote: SocketAddr, c: Setting, h: nat, n: nat): seq<P.Move>
    requires n <= |ticks|
  {
    [P.Own(M.CloneHandle(h))] + P.TraceOf(PathCall(s, ticks, remote, c, h), n, remote, c.capacity, h)
  }

  /** The path loop, called on the socket `s`, ended after `n` turns with result `r`. */
  ghost predicate Ran(s: M.State, ticks: seq<P.Tick>, remote: SocketAddr, c: Setting, h: nat, n: nat,
                      r: Option<P.Outcome>) {
    h !in s.handles && n <= |ticks| && P.EndsAfter(PathCall(s, ticks, remote, c, h), n, r)
  }

  /** How a session on the socket `s` went, given what it met and what the allocator
      gave it, and exactly what happened to the socket meanwhile: a session with a
      channel and an address ran the path loop, any other did nothing to the socket. */
  ghost predicate Went(a: Attempt, s: M.State, allocation: Allocation, c: Setting, session: Session, dropped: bool,
                       steps: seq<P.Move>) {
    var others := Spared(a.meanwhile, c.own);
    if a.ticks.None? then session == NoChannel && !dropped && steps == P.Tagged(others)
    else if allocation.Err? then session == Channel(None) && !dropped && steps == P.Tagged(others)
    else exists h: nat, n: nat, r: Option<P.Outcome> ::
      && Ran(M.Run(s, others), a.ticks.value, allocation.value, c, h, n, r)
      && session == Channel(EndOf(r)) && dropped == r.None?
      && steps == P.Tagged(others) + PathSteps(M.Run(s, others), a.ticks.value, allocation.value, c, h, n)
  }

  /** Some turn of the attempt's path finds cancellation set; finds the peer's end. */
  ghost predicate CancelMet(a: Attempt) {
    a.ticks.Some? && exists k :: 0 <= k < |a.ticks.value| && a.ticks.value[k].cancelled
  }

  ghost predicate PeerEndMet(a: Attempt) {
    && a.ticks.Some?
    && exists k :: 0 <= k < |a.ticks.value| && a.ticks.value[k].peer.EndOfStream? && !a.ticks.value[k].cancelled
  }

  /** A path that ended as cancelled met a cancellation, and one that ended with its
      peer met the peer's end; none ends for a closed socket. */
  lemma {:induction false} EndsForAReason(a: Attempt, s: M.State, allocation: Allocation, c: Setting, session: Session,
                                          dropped: bool, steps: seq<P.Move>)
    requires Went(a, s, allocation, c, session, dropped, steps)
    ensures session == Channel(Some(P.Cancelled)) ==> CancelMet(a)
    ensures session == Channel(Some(P.PeerClosed)) ==> PeerEndMet(a)
    ensures session != Channel(Some(P.SocketClosed))
  {
    hide PathSteps, PathCall, P.EndsAfter, M.Run, NthAllocation, LegalTicks, P.Found, P.LogBy;
    if a.ticks.Some? && allocation.Ok? {
      var others, ticks := Spared(a.meanwhile, c.own), a.ticks.value;
      var met := M.Run(s, others);
      var h: nat, n: nat, r: Option<P.Outcome> :|
        && Ran(met, ticks, allocation.value, c, h, n, r)
        && session == Channel(EndOf(r)) && dropped == r.None?
        && steps == P.Tagged(others) + PathSteps(met, ticks, allocation.value, c, h, n);
      var call := PathCall(met, ticks, allocation.value, c, h);
      PathCallTicks(met, ticks, allocation.value, c, h);
      P.ReasonsHold(call, n, r);
      NoTurnsNoEnd(call, n, r);
      if n > 0 {
        assert call.ticks[n - 1].cancelled == ticks[n - 1].cancelled && call.ticks[n - 1].peer == ticks[n - 1].peer;
      }
    }
  }

  /** Leaving out what other tasks cannot do changes nothing else about a turn. */
  lemma {:induction false} PathCallTicks(s: M.State, ticks: seq<P.Tick>, remote: SocketAddr, c: Setting, h: nat)
    ensures
      var call := PathCall(s, ticks, remote, c, h);
      && |call.ticks| == |ticks|
      && (forall k :: 0 <= k < |ticks| ==>
            call.ticks[k].cancelled == ticks[k].cancelled && call.ticks[k].peer == ticks[k].peer)
  {
  }

  lemma {:induction false} NoTurnsNoEnd(call: P.Call, n: nat, r: Option<P.Outcome>)
    requires P.EndsAfter(call, n, r)
    ensures n == 0 ==> r == None
  {
  }

  // ---------------------------------------------------- the paths a consumer adds

  ghost predicate DeadPath(t: M.State, p: nat, remote: SocketAddr) {
    p < |t.paths| && t.paths[p].remote == remote && !t.paths[p].alive
  }

  /** Every path that the consumer's own steps added, starting from `s`, is dead in `t`. */
  ghost predicate OwnPathsDead(s: M.State, steps: seq<P.Move>, t: M.State) {
    forall k :: 0 <= k < |steps| && P.AddsOwn(steps[k]) ==>
      DeadPath(t, |M.Run(s, P.Events(steps[..k])).paths|, steps[k].event.remote)
  }

  /** At most one own step adds a path, and only with the address allocated. */
  ghost predicate AddsAtMost(steps: seq<P.Move>, session: Session, allocation: Allocation) {
    && (forall k :: 0 <= k < |steps| && P.AddsOwn(steps[k]) ==>
          session.Channel? && allocation == Ok(steps[k].event.remote))
    && (forall k, l :: 0 <= k < |steps| && 0 <= l < |steps| && P.AddsOwn(steps[k]) && P.AddsOwn(steps[l]) ==> k == l)
  }

  /** Where a session that runs its path adds it. */
  lemma {:induction false} PathStepsAdd(s: M.State, others: seq<M.Event>, ticks: seq<P.Tick>, remote: SocketAddr,
                                        c: Setting, h: nat, n: nat)
    requires n <= |ticks|
    ensures
      var steps := P.Tagged(others) + PathSteps(s, ticks, remote, c, h, n);
      && |others| + 1 < |steps| && steps[|others| + 1] == P.Own(M.AddPath(remote, c.capacity))
      && (forall k :: 0 <= k < |steps| && P.AddsOwn(steps[k]) ==> k == |others| + 1)
      && P.Events(steps[..|others| + 1]) == others + [M.CloneHandle(h)]
  {
    var trace := P.TraceOf(PathCall(s, ticks, remote, c, h), n, remote, c.capacity, h);
    P.TraceAddsOnce(PathCall(s, ticks, remote, c, h), n, remote, c.capacity, h);
    hide P.TraceOf, PathCall;
    var steps := P.Tagged(others) + ([P.Own(M.CloneHandle(h))] + trace);
    assert steps[..|others| + 1] == P.Tagged(others) + [P.Own(M.CloneHandle(h))];
    assert forall k :: |others| + 1 <= k < |steps| ==> steps[k] == trace[k - |others| - 1];
  }

  lemma {:induction false} WentAddsAtMost(a: Attempt, s: M.State, allocation: Allocation, c: Setting, session: Session,
                                          dropped: bool, steps: seq<P.Move>)
    requires Went(a, s, allocation, c, session, dropped, steps)
    ensures AddsAtMost(steps, session, allocation)
  {
    hide PathSteps, PathCall, P.EndsAfter, M.Run, NthAllocation;
    if a.ticks.Some? && allocation.Ok? {
      var others := Spared(a.meanwhile, c.own);
      var h: nat, n: nat, r: Option<P.Outcome> :|
        && Ran(M.Run(s, others), a.ticks.value, allocation.value, c, h, n, r)
        && session == Channel(EndOf(r)) && dropped == r.None?
        && steps == P.Tagged(others) + PathSteps(M.Run(s, others), a.ticks.value, allocation.value, c, h, n);
      PathStepsAdd(M.Run(s, others), others, a.ticks.value, allocation.value, c, h, n);
    }
  }

  /** The run of a whole session that ran its path. */
  lemma {:induction false} SessionRun(s: M.State, others: seq<M.Event>, ticks: seq<P.Tick>, remote: SocketAddr,
                                      c: Setting, h: nat, n: nat)
    requires n <= |ticks|
    ensures
      var met := M.Run(s, others);
      var steps := PathSteps(met, ticks, remote, c, h, n);
      && M.Run(s, P.Events(P.Tagged(others) + steps)) == M.Run(met, P.Events(steps))
      && M.Run(s, others + [M.CloneHandle(h)]) == M.Step(met, M.CloneHandle(h))
      && |M.Step(met, M.CloneHandle(h)).paths| == |met.paths|
  {
    var met := M.Run(s, others);
    var steps := PathSteps(met, ticks, remote, c, h, n);
    hide PathSteps, M.Run;
    assert P.Events(P.Tagged(others) + steps) == others + P.Events(steps);
    M.RunAppend(s, others, P.Events(steps));
    M.RunAppend(s, others, [M.CloneHandle(h)]);
    M.RunOne(met, M.CloneHandle(h));
  }

  lemma {:induction false} SessionPathDead(s: M.State, others: seq<M.Event>, ticks: seq<P.Tick>, remote: SocketAddr,
                                           c: Setting, h: nat, n: nat, t: M.State)
    requires n <= |ticks| && DeadPath(t, |M.Run(s, others).paths|, remote)
    ensures OwnPathsDead(s, P.Tagged(others) + PathSteps(M.Run(s, others), ticks, remote, c, h, n), t)
  {
    hide PathSteps, M.Run, M.Step, DeadPath;
    PathStepsAdd(M.Run(s, others), others, ticks, remote, c, h, n);
    SessionRun(s, others, ticks, remote, c, h, n);
  }

  lemma {:induction false} OthersAddNothing(s: M.State, others: seq<M.Event>, t: M.State)
    ensures OwnPathsDead(s, P.Tagged(others), t) && P.Events(P.Tagged(others)) == others
  {
  }

  lemma {:induction false} SegmentBound(s: set<nat>, n: nat)
    requires forall g: nat :: g < n ==> g in s
    ensures n <= |s|
  {
    if n == 0 {
    } else {
      SegmentBound(s - {n - 1}, n - 1);
    }
  }

  /** A name for a new clone of the socket handle. */
  method FreshHandle(handles: set<nat>) returns (h: nat)
    ensures h !in handles
  {
    h := 0;
    SegmentBound(handles, 0);
    while h in handles
      invariant h <= |handles| && forall g: nat :: g < h ==> g in handles
      decreases |handles| - h
    {
      h := h + 1;
      SegmentBound(handles, h);
    }
  }

  /** Steps of other tasks between sessions. */
  method Elsewhere(socket: VirtualUdpSocket, es: seq<M.Event>, own: nat)
    requires socket.Valid() && own in socket.handles && M.DropHandle(own) !in es
    modifies socket
    ensures socket.Valid() && own in socket.handles && socket.View() == M.Run(old(socket.View()), es)
  {
    var i := 0;
    while i < |es|
      invariant i <= |es| && socket.Valid() && own in socket.handles
      invariant socket.View() == M.Run(old(socket.View()), es[..i])
    {
      hide M.Step, M.Inv;
      M.HandleStays(socket.View(), es[i], own);
      M.RunNext(old(socket.View()), es, i);
      socket.Apply(es[i]);
      i := i + 1;
    }
    assert es[..i] == es;
  }

  /** Clones the socket handle for one path and runs it. */
  method RunPath(socket: VirtualUdpSocket, c: Setting, remote: SocketAddr, ticks: seq<P.Tick>)
    returns (r: Option<P.Outcome>, ghost h: nat, ghost n: nat)
    requires socket.Valid() && c.own in socket.handles && c.capacity > 0
    modifies socket
    ensures socket.Valid() && c.own in socket.handles && r != Some(Ok(P.SocketClosed))
    ensures Ran(old(socket.View()), ticks, remote, c, h, n, r) && n <= |ticks|
    ensures socket.View() == M.Run(old(socket.View()), P.Events(PathSteps(old(socket.View()), ticks, remote, c, h, n)))
    ensures DeadPath(socket.View(), |old(socket.View()).paths|, remote)
  {
    hide M.Inv, M.Step, M.Run, P.EndsAfter, P.Plan, P.TraceOf, P.LogBy, P.SentBy, P.Lag, P.Entered, LegalTicks;
    hide IsSubseq, P.OwnMoves, P.Events, P.CallOf;
    ghost var s := socket.View();
    var handle := FreshHandle(socket.handles);
    M.HandleStays(s, M.CloneHandle(handle), c.own);
    HandleCloned(s, handle);
    socket.CloneHandle(handle);
    var p := |socket.paths|;
    LegalTicksKeepOff(ticks, p, handle, c.own);
    CallTicks(socket.View(), remote, c.capacity, c.decode, LegalTicks(ticks, p, handle, c.own));
    var used, log, forwarded;
    ghost var call, trace;
    r, used, log, forwarded, call, trace :=
      P.RunConsumerPath(socket, handle, remote, c.capacity, c.decode, LegalTicks(ticks, p, handle, c.own));
    h, n := handle, used;
    P.TraceSparesHandle(call, used, remote, c.capacity, handle, c.own);
    M.HandleKept(M.Step(s, M.CloneHandle(handle)), P.Events(trace), c.own);
    ClonedRun(s, handle, trace);
  }

  lemma {:induction false} CallTicks(s: M.State, remote: SocketAddr, capacity: nat, decode: P.Decoder,
                                     ticks: seq<P.Tick>)
    ensures P.CallOf(s, remote, capacity, decode, ticks).ticks == ticks
    ensures P.CallOf(s, remote, capacity, decode, ticks).path == |s.paths|
  {
  }

  lemma {:induction false} ClonedRun(s: M.State, h: nat, trace: seq<P.Move>)
    ensures M.Run(s, P.Events([P.Own(M.CloneHandle(h))] + trace)) == M.Run(M.Step(s, M.CloneHandle(h)), P.Events(trace))
  {
    assert P.Events([P.Own(M.CloneHandle(h))] + trace) == [M.CloneHandle(h)] + P.Events(trace);
    M.RunAppend(s, [M.CloneHandle(h)], P.Events(trace));
    M.RunOne(s, M.CloneHandle(h));
  }

  lemma {:induction false} HandleCloned(s: M.State, h: nat)
    requires M.Alive(s) && h !in s.handles
    ensures h in M.Step(s, M.CloneHandle(h)).handles && |M.Step(s, M.CloneHandle(h)).paths| == |s.paths|
  {
  }

  /** One session: it allocates only once it has a channel, and runs its path only
      with an address. `steps` is exactly what happened to the socket meanwhile, and
      the path that was added, if one was, is dead. */
  method RunSession(allocator: SyntheticPathAllocator, socket: VirtualUdpSocket, c: Setting, a: Attempt)
    returns (o: Outcome, dropped: bool, ghost session: Session, ghost steps: seq<P.Move>)
    requires allocator.Valid() && socket.Valid() && c.own in socket.handles && c.capacity > 0
    modifies allocator, socket
    ensures allocator.Valid() && socket.Valid() && c.own in socket.handles
    ensures allocator.calls == old(allocator.calls) + a.others + (if session.Channel? then 1 else 0)
    ensures
      var allocation := NthAllocation(old(allocator.calls) + a.others);
      Went(a, old(socket.View()), allocation, c, session, dropped, steps) && o == SessionOutcome(session, allocation)
    ensures socket.View() == M.Run(old(socket.View()), P.Events(steps))
    ensures OwnPathsDead(old(socket.View()), steps, socket.View())
    ensures session.Channel? ==> session.path != Some(P.SocketClosed)
  {
    hide M.Inv, M.Run, M.Step, Ran, PathSteps, NthAllocation, OwnPathsDead, P.Tagged, P.Events;
    ghost var s, others := socket.View(), Spared(a.meanwhile, c.own);
    dropped, session, steps := false, NoChannel, P.Tagged(others);
    SparedIs(a.meanwhile, c.own);
    Elsewhere(socket, Spared(a.meanwhile, c.own), c.own);
    OthersAddNothing(s, others, socket.View());
    allocator.AllocateForOthers(a.others);
    match a.ticks {
      case None => o := Failed;
      case Some(ticks) =>
        session := Channel(None);
        var remote := allocator.Allocate();
        if remote.Err? {
          o := Failed;
          return;
        }
        var r;
        ghost var h, n;
        r, h, n := RunPath(socket, c, remote.value, ticks);
        session, dropped := Channel(EndOf(r)), r.None?;
        steps := P.Tagged(others) + PathSteps(M.Run(s, others), ticks, remote.value, c, h, n);
        SessionRun(s, others, ticks, remote.value, c, h, n);
        SessionPathDead(s, others, ticks, remote.value, c, h, n, socket.View());
        o := if EndOf(r).None? then Failed else Ended(remote.value, EndOf(r).value);
    }
  }
}
