/** What a schedule of turns of the pairing loop amounts to: its allocator calls, its
    log, its summary and where it stops. */
module ConsumerTurns {
  import opened Prelude
  import opened Subsequences
  import opened SyntheticPaths
  import P = ConsumerPath

  /** How a session went: it failed before it had a channel, or it had one and its
      path then ended, or failed. */
  datatype Session = NoChannel | Channel(path: Option<P.End>)

  /** `others` allocations by other consumers precede this session's own. The flags
      say that cancellation is set by the check that opens the turn, by the end of
      the session, and before the next turn. */
  datatype Turn = Turn(before: bool, others: nat, session: Session, during: bool, asleep: bool)

  datatype Outcome = Ended(remote: SocketAddr, end: P.End) | Failed

  datatype Summary = Summary(attempts: nat, completed: nat, failed: nat)

  datatype Event =
    | AttemptStarted(attempt: nat)
    | PathEnded(attempt: nat, remote: SocketAddr, end: P.End)
    | AttemptFailed(attempt: nat)
    | Stopped(summary: Summary)

  datatype Exit = Stay | AtTop | CutShort | AfterFailure

  /** How often the allocator has been called after some turns, starting from `base`. */
  function Calls(turns: seq<Turn>, base: nat): nat {
    if turns == [] then base
    else Calls(Init(turns), base) + Last(turns).others + if Last(turns).session.Channel? then 1 else 0
  }

  /** The number of the allocator call that turn `t` makes after turns `past`. */
  function CallIn(past: seq<Turn>, base: nat, t: Turn): nat { Calls(past, base) + t.others }

  function AllocationIn(past: seq<Turn>, base: nat, t: Turn): Allocation { NthAllocation(CallIn(past, base, t)) }

  function SessionOutcome(session: Session, allocation: Allocation): Outcome {
    if session.NoChannel? || allocation.Err? || session.path.None? then Failed
    else Ended(allocation.value, session.path.value)
  }

  function OutcomeIn(past: seq<Turn>, base: nat, t: Turn): Outcome {
    SessionOutcome(t.session, AllocationIn(past, base, t))
  }

  predicate CancelSeen(turns: seq<Turn>) {
    exists j :: 0 <= j < |turns| && (turns[j].before || turns[j].during || turns[j].asleep)
  }

  /** Whether and how the loop is left in turn `t`. */
  function ExitIn(past: seq<Turn>, base: nat, t: Turn): Exit {
    var o := OutcomeIn(past, base, t);
    if t.before || CancelSeen(past) then AtTop
    else if o.Failed? && t.during then CutShort
    else if o.Ended? && o.end.Cancelled? then CutShort
    else if o.Failed? && t.asleep then AfterFailure
    else Stay
  }

  function EndingIn(past: seq<Turn>, base: nat, t: Turn): Event {
    match OutcomeIn(past, base, t)
    case Ended(remote, end) => PathEnded(|past| + 1, remote, end)
    case Failed => AttemptFailed(|past| + 1)
  }

  /** The events of turns that were attempted to their end. */
  function Attempts(turns: seq<Turn>, base: nat): seq<Event> {
    if turns == [] then []
    else Attempts(Init(turns), base) + [AttemptStarted(|turns|), EndingIn(Init(turns), base, Last(turns))]
  }

  function Completed(turns: seq<Turn>, base: nat): (k: nat)
    ensures k <= |turns|
  {
    if turns == [] then 0
    else Completed(Init(turns), base) + if OutcomeIn(Init(turns), base, Last(turns)).Ended? then 1 else 0
  }

  function Tally(turns: seq<Turn>, base: nat): Summary {
    Summary(|turns|, Completed(turns, base), |turns| - Completed(turns, base))
  }

  /** The summary and log of a loop left in turn `t`. */
  function Final(past: seq<Turn>, base: nat, t: Turn): (Summary, seq<Event>) {
    match ExitIn(past, base, t)
    case AfterFailure =>
      var s := Tally(past + [t], base);
      (s, Attempts(past + [t], base) + [Stopped(s)])
    case CutShort =>
      var s := Tally(past, base).(attempts := |past| + 1);
      (s, Attempts(past, base) + [AttemptStarted(|past| + 1)] + [Stopped(s)])
    case _ =>
      var s := Tally(past, base);
      (s, Attempts(past, base) + [Stopped(s)])
  }

  lemma {:induction false} TurnCounted(past: seq<Turn>, base: nat, t: Turn)
    ensures Calls(past + [t], base) == CallIn(past, base, t) + if t.session.Channel? then 1 else 0
    ensures Attempts(past + [t], base)
         == Attempts(past, base) + [AttemptStarted(|past| + 1)] + [EndingIn(past, base, t)]
    ensures Completed(past + [t], base) == Completed(past, base) + if OutcomeIn(past, base, t).Ended? then 1 else 0
    ensures CancelSeen(past + [t]) <==> CancelSeen(past) || t.before || t.during || t.asleep
  {
    hide OutcomeIn, EndingIn;
    assert Init(past + [t]) == past && (past + [t])[|past|] == t;
    if CancelSeen(past) {
      var j :| 0 <= j < |past| && (past[j].before || past[j].during || past[j].asleep);
      assert (past + [t])[j] == past[j];
    }
  }

  lemma {:induction false} EndIsNotSocketClosed(session: Session, allocation: Allocation)
    requires session.Channel? ==> session.path != Some(P.SocketClosed)
    ensures SessionOutcome(session, allocation).Ended? ==> !SessionOutcome(session, allocation).end.SocketClosed?
  {
  }

  ghost predicate NeverSocketClosed(log: seq<Event>) {
    forall k :: 0 <= k < |log| && log[k].PathEnded? ==> !log[k].end.SocketClosed?
  }

  lemma {:induction false} StoppedAddsNoPath(log: seq<Event>, summary: Summary)
    requires NeverSocketClosed(log)
    ensures NeverSocketClosed(log + [Stopped(summary)])
  {
  }

  // --------------------------------------------------------- whose allocator calls

  lemma {:induction false} CallsGrow(turns: seq<Turn>, base: nat, i: nat, j: nat)
    requires i <= j <= |turns|
    ensures Calls(turns[..i], base) <= Calls(turns[..j], base)
    decreases j - i
  {
    if i == j {
    } else {
      CallsGrow(turns, base, i, j - 1);
      assert Init(turns[..j]) == turns[..j - 1];
    }
  }

  lemma {:induction false} CallsNext(turns: seq<Turn>, base: nat, i: nat)
    requires i < |turns|
    ensures Calls(turns[..i + 1], base)
         == CallIn(turns[..i], base, turns[i]) + if turns[i].session.Channel? then 1 else 0
  {
    assert Init(turns[..i + 1]) == turns[..i];
  }

  lemma {:induction false} NoCalls(turns: seq<Turn>, base: nat)
    requires turns == []
    ensures Calls(turns, base) == base
  {
  }

  lemma {:induction false} CallIsNext(turns: seq<Turn>, base: nat, t: Turn)
    ensures Calls(turns, base) <= CallIn(turns, base, t)
  {
  }

  /** Call `m` of the allocator was made by this consumer, in one of its turns. */
  ghost predicate OwnCall(turns: seq<Turn>, base: nat, m: nat) {
    exists j :: 0 <= j < |turns| && turns[j].session.Channel? && m == CallIn(turns[..j], base, turns[j])
  }

  /** Call `m` of the allocator was made by another consumer: before this one's run, or
      during one of its turns, ahead of this consumer's own call. */
  ghost predicate OthersCall(turns: seq<Turn>, base: nat, m: nat) {
    m < base || exists j :: 0 <= j < |turns| && Calls(turns[..j], base) <= m < CallIn(turns[..j], base, turns[j])
  }

  lemma {:induction false} ThisCall(turns: seq<Turn>, base: nat, t: Turn)
    requires t.session.Channel?
    ensures OwnCall(turns + [t], base, CallIn(turns, base, t))
  {
    var all := turns + [t];
    assert all[..|turns|] == turns && all[|turns|] == t;
  }

  lemma {:induction false} OwnCallKept(turns: seq<Turn>, base: nat, t: Turn, m: nat)
    requires OwnCall(turns, base, m)
    ensures OwnCall(turns + [t], base, m)
  {
    hide Calls;
    var j :| 0 <= j < |turns| && turns[j].session.Channel? && m == CallIn(turns[..j], base, turns[j]);
    assert (turns + [t])[..j] == turns[..j] && (turns + [t])[j] == turns[j];
  }

  lemma {:induction false} OwnCallBelow(turns: seq<Turn>, base: nat, m: nat)
    requires OwnCall(turns, base, m)
    ensures base <= m < Calls(turns, base)
  {
    hide Calls;
    var j :| 0 <= j < |turns| && turns[j].session.Channel? && m == CallIn(turns[..j], base, turns[j]);
    CallsNext(turns, base, j);
    CallsGrow(turns, base, j + 1, |turns|);
    CallsGrow(turns, base, 0, j);
    NoCalls(turns[..0], base);
    assert turns[..|turns|] == turns;
  }

  /** A call of this consumer is none of another's. */
  lemma {:induction false} OwnIsNotOthers(turns: seq<Turn>, base: nat, m: nat)
    requires OwnCall(turns, base, m)
    ensures !OthersCall(turns, base, m) && m < Calls(turns, base)
  {
    hide Calls;
    OwnCallBelow(turns, base, m);
    var i :| 0 <= i < |turns| && turns[i].session.Channel? && m == CallIn(turns[..i], base, turns[i]);
    CallsNext(turns, base, i);
    forall j | 0 <= j < |turns| ensures !(Calls(turns[..j], base) <= m < CallIn(turns[..j], base, turns[j])) {
      if i < j {
        CallsGrow(turns, base, i + 1, j);
      } else if j < i {
        CallsNext(turns, base, j);
        CallsGrow(turns, base, j + 1, i);
      }
    }
  }

  /** No path of a run reuses the address of an earlier one: remotes of successive
      channels strictly increase. */
  lemma {:induction false} RemotesStrictlyIncrease(turns: seq<Turn>, base: nat, i: nat, j: nat)
    requires i < j < |turns| && turns[i].session.Channel? && turns[j].session.Channel?
    requires AllocationIn(turns[..j], base, turns[j]).Ok?
    ensures
      var a, b := AllocationIn(turns[..i], base, turns[i]), AllocationIn(turns[..j], base, turns[j]);
      && a.Ok? && InSharedSpace(a.value) && InSharedSpace(b.value)
      && 2 <= HostOf(a.value) < HostOf(b.value)
  {
    CallsNext(turns, base, i);
    CallsGrow(turns, base, i + 1, j);
    AllocationsAreFresh(CallIn(turns[..i], base, turns[i]), CallIn(turns[..j], base, turns[j]));
  }

  /** No path of a run has an address that another consumer of the allocator was
      given, before this consumer's turn or after it. */
  lemma {:induction false} RemotesNeverShared(turns: seq<Turn>, base: nat, i: nat, m: nat)
    requires i < |turns| && turns[i].session.Channel? && AllocationIn(turns[..i], base, turns[i]).Ok?
    requires OthersCall(turns, base, m) || m >= Calls(turns, base)
    ensures NthAllocation(m) != AllocationIn(turns[..i], base, turns[i])
  {
    hide NthAllocation, Calls, HostOf, InSharedSpace, CallIn, OthersCall;
    var own := CallIn(turns[..i], base, turns[i]);
    assert OwnCall(turns, base, own);
    OwnIsNotOthers(turns, base, own);
    DistinctCalls(m, own);
  }

  /** What is in the log for each turn: its start, and then either how its path ended,
      if it had a channel, an address and an end, or that the attempt failed. */
  lemma {:induction false} TurnLogged(turns: seq<Turn>, base: nat, i: nat)
    requires i < |turns|
    ensures
      var log := Attempts(turns, base);
      var allocation := AllocationIn(turns[..i], base, turns[i]);
      && |log| == 2 * |turns| && log[2 * i] == AttemptStarted(i + 1)
      && (forall remote, end :: log[2 * i + 1] == PathEnded(i + 1, remote, end) <==>
            turns[i].session == Channel(Some(end)) && allocation == Ok(remote))
      && (log[2 * i + 1] == AttemptFailed(i + 1) <==>
            turns[i].session == NoChannel || turns[i].session == Channel(None) || allocation.Err?)
  {
    hide AllocationIn, Attempts;
    LogEntry(turns, base, i);
  }

  lemma {:induction false} LogEntry(turns: seq<Turn>, base: nat, i: nat)
    requires i < |turns|
    ensures
      var log := Attempts(turns, base);
      && |log| == 2 * |turns| && log[2 * i] == AttemptStarted(i + 1)
      && log[2 * i + 1] == EndingIn(turns[..i], base, turns[i])
    decreases |turns|
  {
    hide EndingIn;
    AttemptsLength(Init(turns), base);
    if i == |turns| - 1 {
      assert turns[..i] == Init(turns);
    } else {
      LogEntry(Init(turns), base, i);
      assert Init(turns)[..i] == turns[..i];
    }
  }

  lemma {:induction false} AttemptsLength(turns: seq<Turn>, base: nat)
    ensures |Attempts(turns, base)| == 2 * |turns|
    decreases |turns|
  {
    hide EndingIn;
    if turns == [] {
    } else {
      AttemptsLength(Init(turns), base);
    }
  }

  /** When a turn stays in the loop: nothing was cancelled before its attempt, and then
      its path ended otherwise than as cancelled, or the attempt failed with nothing
      cancelled up to the next turn. */
  lemma {:induction false} StaysExactly(past: seq<Turn>, base: nat, t: Turn)
    ensures ExitIn(past, base, t) == Stay <==>
      && !t.before && (forall j :: 0 <= j < |past| ==> !past[j].before && !past[j].during && !past[j].asleep)
      && (if t.session.Channel? && t.session.path.Some? && AllocationIn(past, base, t).Ok?
          then t.session.path.value != P.Cancelled
          else !t.during && !t.asleep)
  {
    hide AllocationIn;
  }

  function CountEnded(log: seq<Event>): nat {
    if log == [] then 0 else CountEnded(Init(log)) + if Last(log).PathEnded? then 1 else 0
  }

  function CountFailed(log: seq<Event>): nat {
    if log == [] then 0 else CountFailed(Init(log)) + if Last(log).AttemptFailed? then 1 else 0
  }

  lemma {:induction false} CountSnoc(log: seq<Event>, e: Event)
    ensures CountEnded(log + [e]) == CountEnded(log) + if e.PathEnded? then 1 else 0
    ensures CountFailed(log + [e]) == CountFailed(log) + if e.AttemptFailed? then 1 else 0
  {
    assert Init(log + [e]) == log;
  }

  lemma {:induction false} TallyCounts(turns: seq<Turn>, base: nat)
    ensures
      var log := Attempts(turns, base);
      Tally(turns, base) == Summary(|turns|, CountEnded(log), CountFailed(log))
    decreases |turns|
  {
    hide AllocationIn, CountEnded, CountFailed;
    if turns == [] {
      NothingCounted();
    } else {
      TallyCounts(Init(turns), base);
      var log, e := Attempts(Init(turns), base), EndingIn(Init(turns), base, Last(turns));
      CountSnoc(log, AttemptStarted(|turns|));
      CountSnoc(log + [AttemptStarted(|turns|)], e);
      assert log + [AttemptStarted(|turns|)] + [e] == log + [AttemptStarted(|turns|), e];
    }
  }

  lemma {:induction false} NothingCounted()
    ensures CountEnded([]) == 0 == CountFailed([])
  {
  }

  /** The summary a loop returns, and puts into its last event, counts its own log. */
  lemma {:induction false} SummaryCountsLog(past: seq<Turn>, base: nat, t: Turn)
    requires ExitIn(past, base, t) != Stay
    ensures
      var (s, log) := Final(past, base, t);
      && log != [] && Last(log) == Stopped(s)
      && s.completed == CountEnded(log) && s.failed == CountFailed(log)
      && s.attempts == (if ExitIn(past, base, t) == AtTop then |past| else |past| + 1)
  {
    hide ExitIn, Attempts, CountEnded, CountFailed, Tally;
    TallyCounts(past, base);
    TallyCounts(past + [t], base);
    var log := Final(past, base, t).1;
    CountSnoc(Init(log), Last(log));
    assert Init(log) + [Last(log)] == log;
    CountSnoc(Attempts(past, base), AttemptStarted(|past| + 1));
    assert ExitIn(past, base, t) == CutShort ==> Init(log) == Attempts(past, base) + [AttemptStarted(|past| + 1)];
    assert ExitIn(past, base, t) == AfterFailure ==> Init(log) == Attempts(past + [t], base);
    assert ExitIn(past, base, t) == AtTop ==> Init(log) == Attempts(past, base);
  }

  /** At exit, completed plus failed is the number of attempts, or one less exactly
      when the last attempt was cut short: its session failed with cancellation set,
      or its path ended as cancelled. */
  lemma {:induction false} ConsumerAccounting(past: seq<Turn>, base: nat, t: Turn)
    requires ExitIn(past, base, t) != Stay
    ensures
      var s := Final(past, base, t).0;
      var o := OutcomeIn(past, base, t);
      var cut := (o.Failed? && t.during) || (o.Ended? && o.end.Cancelled?);
      s.attempts - s.completed - s.failed == if !t.before && !CancelSeen(past) && cut then 1 else 0
  {
  }
}
