/** The loop that keeps a consumer paired, over the shared socket and allocator. */
module Consumer {
  import opened Prelude
  import opened Subsequences
  import opened SyntheticPaths
  import opened ConsumerTurns
  import opened ConsumerSession
  import opened VirtualUdpObject
  import M = VirtualUdp
  import P = ConsumerPath

  /** The turn an attempt amounted to. A session that was dropped was cancelled. */
  function TurnOf(a: Attempt, session: Session, dropped: bool): Turn {
    Turn(a.before, a.others, session, a.during || dropped, a.asleep)
  }

  /** What a turn takes from its attempt; a session that was dropped leaves the loop. */
  lemma {:induction false} DroppedLeaves(a: Attempt, past: seq<Turn>, base: nat, session: Session, dropped: bool)
    ensures
      var t := TurnOf(a, session, dropped);
      && t.before == a.before && t.others == a.others && t.session == session && t.asleep == a.asleep
      && (t.during <==> a.during || dropped)
      && (dropped && session == Channel(None) ==> ExitIn(past, base, t) != Stay)
  {
    hide AllocationIn, CancelSeen;
  }

  /** The attempts' steps one after another. */
  ghost function Flat(steps: seq<seq<P.Move>>): seq<P.Move> {
    if steps == [] then [] else Flat(Init(steps)) + Last(steps)
  }

  /** The socket after some attempts, starting from `s`. */
  ghost function After(s: M.State, steps: seq<seq<P.Move>>): M.State { M.Run(s, P.Events(Flat(steps))) }

  /** A turn and its steps are what one attempt on the socket `s` amounted to after
      some turns. */
  ghost predicate Amounts(c: Setting, a: Attempt, past: seq<Turn>, s: M.State, t: Turn, steps: seq<P.Move>) {
    exists session, dropped ::
      && t == TurnOf(a, session, dropped)
      && Went(a, s, AllocationIn(past, c.base, t), c, session, dropped, steps)
  }

  /** These turns are what the first attempts amounted to, each on the socket as the
      earlier ones left it, and none left the loop. */
  ghost predicate Stayed(c: Setting, s: M.State, attempts: seq<Attempt>, turns: seq<Turn>, steps: seq<seq<P.Move>>) {
    && |turns| <= |attempts| && |turns| <= |steps|
    && forall i :: 0 <= i < |turns| ==>
         && ExitIn(turns[..i], c.base, turns[i]) == Stay
         && Amounts(c, attempts[i], turns[..i], After(s, steps[..i]), turns[i], steps[i])
  }

  /** Every own addition has the address of an own allocator call, later additions of
      later calls; `calls` gives the call for each step. */
  ghost predicate OwnAdditions(history: seq<P.Move>, calls: seq<nat>, turns: seq<Turn>, base: nat) {
    && |calls| == |history|
    && (forall k :: 0 <= k < |history| && P.AddsOwn(history[k]) ==>
          OwnCall(turns, base, calls[k]) && NthAllocation(calls[k]) == Ok(history[k].event.remote))
    && (forall k, l :: 0 <= k < l < |history| && P.AddsOwn(history[k]) && P.AddsOwn(history[l]) ==> calls[k] < calls[l])
  }

  /** What is known of the socket after some turns: what happened to it, that the paths
      this consumer added are dead, and where their addresses come from. */
  ghost predicate Traced(s: M.State, t: M.State, steps: seq<seq<P.Move>>, calls: seq<nat>, turns: seq<Turn>,
                         base: nat) {
    && t == After(s, steps)
    && OwnPathsDead(s, Flat(steps), t)
    && OwnAdditions(Flat(steps), calls, turns, base)
  }

  lemma {:induction false} FlatNext(s: M.State, steps: seq<seq<P.Move>>, more: seq<P.Move>)
    ensures Flat(steps + [more]) == Flat(steps) + more
    ensures After(s, steps + [more]) == M.Run(After(s, steps), P.Events(more))
  {
    hide M.Run;
    assert Init(steps + [more]) == steps;
    assert P.Events(Flat(steps) + more) == P.Events(Flat(steps)) + P.Events(more);
    M.RunAppend(s, P.Events(Flat(steps)), P.Events(more));
  }

  lemma {:induction false} StayedNext(c: Setting, s: M.State, attempts: seq<Attempt>, turns: seq<Turn>,
                                      steps: seq<seq<P.Move>>, t: Turn, more: seq<P.Move>)
    requires Stayed(c, s, attempts, turns, steps) && |steps| == |turns| < |attempts|
    requires ExitIn(turns, c.base, t) == Stay && Amounts(c, attempts[|turns|], turns, After(s, steps), t, more)
    ensures Stayed(c, s, attempts, turns + [t], steps + [more])
  {
    hide ExitIn, Amounts, After;
    StayedWith(c, s, attempts, turns, steps, more);
    var all, allSteps := turns + [t], steps + [more];
    forall i | 0 <= i < |all|
      ensures ExitIn(all[..i], c.base, all[i]) == Stay
      ensures Amounts(c, attempts[i], all[..i], After(s, allSteps[..i]), all[i], allSteps[i])
    {
      assert all[..i] == turns[..i];
      assert turns[..|turns|] == turns && allSteps[..|turns|] == steps;
    }
  }

  /** The steps of a later attempt change nothing about the turns so far. */
  lemma {:induction false} StayedWith(c: Setting, s: M.State, attempts: seq<Attempt>, turns: seq<Turn>,
                                      steps: seq<seq<P.Move>>, more: seq<P.Move>)
    requires Stayed(c, s, attempts, turns, steps)
    ensures Stayed(c, s, attempts, turns, steps + [more])
  {
    hide ExitIn, Amounts, After;
    forall i | 0 <= i < |turns|
      ensures Amounts(c, attempts[i], turns[..i], After(s, (steps + [more])[..i]), turns[i], (steps + [more])[i])
    {
      assert (steps + [more])[..i] == steps[..i];
    }
  }

  lemma {:induction false} OwnPathsDeadNext(s: M.State, history: seq<P.Move>, u: M.State, more: seq<P.Move>, t: M.State)
    requires u == M.Run(s, P.Events(history)) && t == M.Run(u, P.Events(more))
    requires OwnPathsDead(s, history, u) && OwnPathsDead(u, more, t)
    ensures OwnPathsDead(s, history + more, t)
  {
    hide M.Run;
    var all := history + more;
    M.DeadStayRun(u, P.Events(more));
    forall k | 0 <= k < |all| && P.AddsOwn(all[k])
      ensures DeadPath(t, |M.Run(s, P.Events(all[..k])).paths|, all[k].event.remote)
    {
      if k < |history| {
        assert all[..k] == history[..k];
        assert DeadPath(u, |M.Run(s, P.Events(history[..k])).paths|, history[k].event.remote);
      } else {
        var l := k - |history|;
        assert all[..k] == history + more[..l];
        assert P.Events(all[..k]) == P.Events(history) + P.Events(more[..l]);
        M.RunAppend(s, P.Events(history), P.Events(more[..l]));
        assert DeadPath(t, |M.Run(u, P.Events(more[..l])).paths|, more[l].event.remote);
      }
    }
  }

  lemma {:induction false} OwnAdditionsNext(history: seq<P.Move>, calls: seq<nat>, turns: seq<Turn>, base: nat,
                                            t: Turn, more: seq<P.Move>)
    requires OwnAdditions(history, calls, turns, base)
    requires AddsAtMost(more, t.session, AllocationIn(turns, base, t))
    ensures OwnAdditions(history + more, calls + seq(|more|, _ => CallIn(turns, base, t)), turns + [t], base)
  {
    hide Calls, NthAllocation, OwnCall, CallIn;
    var m := CallIn(turns, base, t);
    var all, allCalls := history + more, calls + seq(|more|, _ => m);
    forall k | 0 <= k < |all| && P.AddsOwn(all[k])
      ensures OwnCall(turns + [t], base, allCalls[k]) && NthAllocation(allCalls[k]) == Ok(all[k].event.remote)
    {
      if k < |history| {
        OwnCallKept(turns, base, t, calls[k]);
      } else {
        assert P.AddsOwn(more[k - |history|]);
        ThisCall(turns, base, t);
      }
    }
    forall k, l | 0 <= k < l < |all| && P.AddsOwn(all[k]) && P.AddsOwn(all[l]) ensures allCalls[k] < allCalls[l] {
      if k < |history| <= l {
        OwnCallBelow(turns, base, calls[k]);
        CallIsNext(turns, base, t);
      }
    }
  }

  lemma {:induction false} TracedNext(s: M.State, u: M.State, t: M.State, steps: seq<seq<P.Move>>, calls: seq<nat>,
                                      turns: seq<Turn>, base: nat, turn: Turn, more: seq<P.Move>)
    requires Traced(s, u, steps, calls, turns, base) && t == M.Run(u, P.Events(more)) && OwnPathsDead(u, more, t)
    requires AddsAtMost(more, turn.session, AllocationIn(turns, base, turn))
    ensures Traced(s, t, steps + [more], calls + seq(|more|, _ => CallIn(turns, base, turn)), turns + [turn], base)
  {
    hide M.Run, OwnPathsDead, AddsAtMost, OwnAdditions, AllocationIn, CallIn;
    FlatNext(s, steps, more);
    OwnPathsDeadNext(s, Flat(steps), u, more, t);
    OwnAdditionsNext(Flat(steps), calls, turns, base, turn, more);
  }

  /** A path that a consumer added has no route after its session. */
  lemma {:induction false} GoneIsUnrouted(s: M.State, steps: seq<P.Move>, t: M.State, k: nat)
    requires M.Inv(t) && OwnPathsDead(s, steps, t) && k < |steps| && P.AddsOwn(steps[k])
    ensures
      var p := |M.Run(s, P.Events(steps[..k])).paths|;
      p < |t.paths| && t.paths[p].remote == steps[k].event.remote && !M.Routed(t, p)
  {
    hide M.Run;
    M.DeadIsUnrouted(t, |M.Run(s, P.Events(steps[..k])).paths|);
  }

  /** Pairs again and again until cancelled. `turns` are the turns that stayed in the
      loop, `last` the one that left it; without one, the attempts ran out first.
      `steps` is everything that happened to the socket, attempt by attempt. */
  method MaintainConsumer(allocator: SyntheticPathAllocator, socket: VirtualUdpSocket, c: Setting,
                          attempts: seq<Attempt>)
    returns (r: Option<Summary>, log: seq<Event>, ghost turns: seq<Turn>, ghost last: Option<Turn>,
             ghost steps: seq<seq<P.Move>>, ghost calls: seq<nat>)
    requires allocator.Valid() && allocator.calls == c.base
    requires socket.Valid() && c.own in socket.handles && c.capacity > 0
    modifies allocator, socket
    ensures allocator.Valid() && socket.Valid() && c.own in socket.handles
    ensures Stayed(c, old(socket.View()), attempts, turns, steps)
    ensures (r.None? <==> last.None?) && (r.None? <==> |turns| == |attempts|)
    ensures r.None? ==> |steps| == |turns| && log == Attempts(turns, c.base)
    ensures r.Some? ==>
      && last.value.before == attempts[|turns|].before
      && ExitIn(turns, c.base, last.value) != Stay
      && (r.value, log) == Final(turns, c.base, last.value)
      && (if ExitIn(turns, c.base, last.value) == AtTop then |steps| == |turns|
          else && |steps| == |turns| + 1
               && Amounts(c, attempts[|turns|], turns, After(old(socket.View()), steps[..|turns|]),
                          last.value, steps[|turns|]))
    // A path that ended as cancelled, which stops the loop, met a cancellation.
    ensures last.Some? && last.value.session == Channel(Some(P.Cancelled)) ==> CancelMet(attempts[|turns|])
    // No run ends a path because the socket is gone. What happened to the socket is
    // exactly `steps`; every path that the consumer's own steps added is dead, and has
    // the address of an own allocator call.
    ensures NeverSocketClosed(log)
    ensures
      var all := if last.Some? then turns + [last.value] else turns;
      Traced(old(socket.View()), socket.View(), steps, calls, all, c.base)
  {
    hide *;
    ghost var s := socket.View();
    var summary := Summary(0, 0, 0);
    var cancelled := false;
    log, r, turns, last, steps, calls := [], None, [], None, [], [];
    NoTurns(s, c, attempts);
    var i := 0;
    while i < |attempts|
      invariant i == |turns| == |steps| <= |attempts| && allocator.Valid() && allocator.calls == Calls(turns, c.base)
      invariant socket.Valid() && c.own in socket.handles
      invariant Stayed(c, s, attempts, turns, steps) && (cancelled <==> CancelSeen(turns))
      invariant log == Attempts(turns, c.base) && summary == Tally(turns, c.base)
      invariant NeverSocketClosed(log) && Traced(s, socket.View(), steps, calls, turns, c.base)
    {
      var a := attempts[i];
      cancelled := cancelled || a.before;
      if cancelled {
        last := Some(TurnOf(a, NoChannel, false));
        LeftAtTop(s, socket.View(), c, turns, steps, calls, a, log, summary);
        return Some(summary), log + [Stopped(summary)], turns, last, steps, calls;
      }
      var exit;
      ghost var t, more;
      exit, summary, cancelled, log, t, more, calls :=
        TakeAttempt(allocator, socket, c, a, s, summary, log, turns, steps, calls);
      if exit != Stay {
        StoppedAddsNoPath(log, summary);
        StayedWith(c, s, attempts, turns, steps, more);
        assert (steps + [more])[..|turns|] == steps;
        return Some(summary), log + [Stopped(summary)], turns, Some(t), steps + [more], calls;
      }
      StayedNext(c, s, attempts, turns, steps, t, more);
      turns, steps := turns + [t], steps + [more];
      i := i + 1;
    }
  }

  lemma {:induction false} NoTurns(s: M.State, c: Setting, attempts: seq<Attempt>)
    ensures Stayed(c, s, attempts, [], []) && Traced(s, s, [], [], [], c.base)
    ensures NeverSocketClosed([]) && !CancelSeen([])
    ensures Calls([], c.base) == c.base && Attempts([], c.base) == [] && Tally([], c.base) == Summary(0, 0, 0)
  {
    assert P.Events(Flat([])) == [];
    M.RunNone(s);
  }

  lemma {:induction false} LeftAtTop(s: M.State, u: M.State, c: Setting, turns: seq<Turn>, steps: seq<seq<P.Move>>,
                                     calls: seq<nat>, a: Attempt, log: seq<Event>, summary: Summary)
    requires a.before || CancelSeen(turns)
    requires log == Attempts(turns, c.base) && summary == Tally(turns, c.base) && NeverSocketClosed(log)
    requires Traced(s, u, steps, calls, turns, c.base)
    ensures
      var t := TurnOf(a, NoChannel, false);
      && t.before == a.before && t.session == NoChannel && ExitIn(turns, c.base, t) == AtTop
      && Final(turns, c.base, t) == (summary, log + [Stopped(summary)])
      && NeverSocketClosed(log + [Stopped(summary)])
      && Traced(s, u, steps, calls, turns + [t], c.base)
  {
    hide Attempts, NeverSocketClosed, CancelSeen, Tally, After, OwnPathsDead, OwnCall, NthAllocation;
    StoppedAddsNoPath(log, summary);
    var t := TurnOf(a, NoChannel, false);
    var history := Flat(steps);
    forall k | 0 <= k < |history| && P.AddsOwn(history[k]) ensures OwnCall(turns + [t], c.base, calls[k]) {
      OwnCallKept(turns, c.base, t, calls[k]);
    }
  }

  /** One attempt of the loop, from its start to the check that ends its turn. */
  method TakeAttempt(allocator: SyntheticPathAllocator, socket: VirtualUdpSocket, c: Setting, a: Attempt,
                     ghost s: M.State, summary: Summary, log: seq<Event>, ghost turns: seq<Turn>,
                     ghost steps: seq<seq<P.Move>>, ghost calls: seq<nat>)
    returns (exit: Exit, summary': Summary, cancelled: bool, log': seq<Event>, ghost t: Turn, ghost more: seq<P.Move>,
             ghost calls': seq<nat>)
    requires allocator.Valid() && allocator.calls == Calls(turns, c.base)
    requires socket.Valid() && c.own in socket.handles && c.capacity > 0
    requires !a.before && !CancelSeen(turns)
    requires log == Attempts(turns, c.base) && summary == Tally(turns, c.base)
    requires NeverSocketClosed(log) && Traced(s, socket.View(), steps, calls, turns, c.base)
    modifies allocator, socket
    ensures allocator.Valid() && allocator.calls == Calls(turns + [t], c.base)
    ensures socket.Valid() && c.own in socket.handles
    ensures Amounts(c, a, turns, After(s, steps), t, more)
    ensures t.before == a.before && exit == ExitIn(turns, c.base, t) && exit != AtTop
    ensures t.session == Channel(Some(P.Cancelled)) ==> CancelMet(a)
    ensures NeverSocketClosed(log') && Traced(s, socket.View(), steps + [more], calls', turns + [t], c.base)
    ensures exit == Stay ==>
      && log' == Attempts(turns + [t], c.base) && summary' == Tally(turns + [t], c.base)
      && (cancelled <==> CancelSeen(turns + [t]))
    ensures exit != Stay ==> (summary', log' + [Stopped(summary')]) == Final(turns, c.base, t)
  {
    hide NthAllocation, Went, M.Inv, OwnPathsDead, AddsAtMost, OwnAdditions, M.Run, P.Events, Flat;
    hide Attempts, Completed, CancelSeen, Calls, SessionOutcome;
    summary' := summary.(attempts := summary.attempts + 1);
    var attempt := summary'.attempts;
    log' := log + [AttemptStarted(attempt)];
    ghost var u := socket.View();
    var result, dropped;
    ghost var session;
    result, dropped, session, more := RunSession(allocator, socket, c, a);
    t := TurnOf(a, session, dropped);
    assert Amounts(c, a, turns, u, t, more);
    TurnCounted(turns, c.base, t);
    WentAddsAtMost(a, u, AllocationIn(turns, c.base, t), c, session, dropped, more);
    EndsForAReason(a, u, AllocationIn(turns, c.base, t), c, session, dropped, more);
    TracedNext(s, u, socket.View(), steps, calls, turns, c.base, t, more);
    calls' := calls + seq(|more|, _ => CallIn(turns, c.base, t));
    EndIsNotSocketClosed(session, AllocationIn(turns, c.base, t));
    cancelled := a.during || dropped;
    if result.Failed? && cancelled {
      exit := CutShort;
      return;
    }
    match result {
      case Ended(remote, end) =>
        if end.Cancelled? {
          exit := CutShort;
          return;
        }
        summary' := summary'.(completed := summary'.completed + 1);
        log' := log' + [PathEnded(attempt, remote, end)];
      case Failed =>
        summary' := summary'.(failed := summary'.failed + 1);
        log' := log' + [AttemptFailed(attempt)];
    }
    cancelled := cancelled || a.asleep;
    exit := if result.Failed? && cancelled then AfterFailure else Stay;
  }
}
