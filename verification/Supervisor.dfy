/** The retry supervisor: attempts, backoff, accounting and its event log.

    Durations are whole nanoseconds. Each turn of the loop supplies what the loop
    observes: how the session ends, the entropy, where cancellation is first seen,
    and the peer events its session callbacks put on the same queue. */
module Supervisor {
  import opened Prelude
  import opened Subsequences

  const DURATION_MAX: nat := U64_MAX * 1_000_000_000 + 999_999_999

  type Duration = d: nat | d <= DURATION_MAX

  datatype Config = Config(initialBackoff: Duration, maxBackoff: Duration, stableSession: Duration)

  datatype Summary = Summary(attempts: nat, completed: nat, failed: nat)

  datatype PeerEvent = PeerConnected(session: string) | PeerDisconnected(session: string)

  datatype Event =
    | AttemptStarted(attempt: nat)
    | SessionEnded(attempt: nat, retryIn: Duration)
    | AttemptFailed(attempt: nat, retryIn: Duration)
    | Stopped(summary: Summary)
    | Peer(event: PeerEvent)

  /** A session that ran to its end, or failed before or during its relay. */
  datatype Session = Completed(relay: Duration) | Failed(relayed: Option<Duration>)

  /** `before`, `during` and `asleep` say that cancellation is set by the check that
      opens the turn, by the end of the session, and before the sleep is over. */
  datatype Turn = Turn(
    before: bool, session: Session, during: bool, entropy: nat, asleep: bool,
    early: seq<PeerEvent>, meanwhile: seq<PeerEvent>, late: seq<PeerEvent>)

  // ------------------------------------------------------------------ arithmetic

  function Nonzero(d: Duration): (r: Duration)
    ensures r > 0
  {
    if d == 0 then 1_000_000 else d
  }

  function Initial(c: Config): Duration { Nonzero(c.initialBackoff) }

  function Ceiling(c: Config): Duration { if c.maxBackoff >= Initial(c) then c.maxBackoff else Initial(c) }

  function SaturatingMul(d: Duration, k: nat): Duration {
    if d * k <= DURATION_MAX then d * k else DURATION_MAX
  }

  function SaturatingMul128(a: nat, b: nat): nat {
    if a * b <= U128_MAX then a * b else U128_MAX
  }

  function Percent(entropy: nat): nat { 80 + entropy % 41 }

  function Jittered(base: Duration, entropy: nat): (r: Duration) {
    var nanos := SaturatingMul128(base, Percent(entropy)) / 100;
    if nanos <= U64_MAX then nanos else U64_MAX
  }

  function Retry(c: Config, base: Duration, entropy: nat): Duration {
    var jittered := Jittered(base, entropy);
    if jittered <= Ceiling(c) then jittered else Ceiling(c)
  }

  function Pow2(k: nat): nat { if k == 0 then 1 else 2 * Pow2(k - 1) }

  /** Exponential backoff in unbounded arithmetic. */
  function Backoff(c: Config, k: nat): (r: Duration) {
    var grown := Initial(c) * Pow2(k);
    if grown <= Ceiling(c) then grown else Ceiling(c)
  }

  /** Doubling with saturation and clamping is one more step of the exponential. */
  lemma {:induction false} BackoffDoubles(c: Config, k: nat)
    ensures var doubled := SaturatingMul(Backoff(c, k), 2);
            (if doubled <= Ceiling(c) then doubled else Ceiling(c)) == Backoff(c, k + 1)
  {
    assert Initial(c) * Pow2(k + 1) == 2 * (Initial(c) * Pow2(k));
  }

  lemma {:induction false} MulBound(a: nat, b: nat, m: nat, n: nat)
    requires a <= b && m <= n
    ensures a * m <= b * n
  {
    assert a * m <= b * m <= b * n;
  }

  /** The product never reaches the limit of the 128-bit type. */
  lemma {:induction false} NoWideSaturation(base: Duration, entropy: nat)
    ensures SaturatingMul128(base, Percent(entropy)) == base * Percent(entropy)
  {
    MulBound(base, DURATION_MAX, Percent(entropy), 120);
  }

  lemma {:induction false} ShareBounds(base: nat, percent: nat)
    requires 80 <= percent <= 120
    ensures base * 80 / 100 <= base * percent / 100 <= base * 120 / 100
  {
    assert base * 80 <= base * percent <= base * 120;
  }

  /** Every retry delay lies within 20 percent of its backoff, never above the
      configured maximum, and never below the smaller of 80 percent and the longest
      delay that 64 bits of nanoseconds can say. */
  lemma {:induction false} RetryBounds(c: Config, base: Duration, entropy: nat)
    requires base <= Ceiling(c)
    ensures Min(base * 80 / 100, U64_MAX) <= Retry(c, base, entropy) <= Min(Ceiling(c), base * 120 / 100)
  {
    NoWideSaturation(base, entropy);
    ShareBounds(base, Percent(entropy));
  }

  /** The promised lower bound of 80 percent holds for every entropy exactly when
      that share of the backoff fits 64 bits of nanoseconds. */
  lemma {:induction false} FullJitterRange(c: Config, base: Duration, entropy: nat)
    requires base <= Ceiling(c)
    ensures Retry(c, base, entropy) >= base * 80 / 100 <==> base * 80 / 100 <= U64_MAX
  {
    RetryBounds(c, base, entropy);
  }

  /** A backoff of 1000 years is one for which the lower bound fails. */
  lemma {:induction false} JitterTruncated()
    ensures
      var c := Config(31_536_000_000_000_000_000, 31_536_000_000_000_000_000, 0);
      Retry(c, Backoff(c, 0), 0) == U64_MAX < Backoff(c, 0) * 80 / 100
  {
    assert Pow2(0) == 1;
  }

  // -------------------------------------------------- what a schedule determines

  predicate Cancels(t: Turn) { t.before || t.during || t.asleep }

  /** The turn in which cancellation is first seen. */
  function FirstCancel(turns: seq<Turn>): (n: nat)
    ensures n <= |turns|
    ensures forall i :: 0 <= i < n ==> !Cancels(turns[i])
    ensures n < |turns| ==> Cancels(turns[n])
  {
    if turns == [] || Cancels(turns[0]) then 0 else 1 + FirstCancel(turns[1..])
  }

  function RelayTime(s: Session): Option<Duration> {
    match s
    case Completed(relay) => Some(relay)
    case Failed(relayed) => relayed
  }

  predicate Stable(c: Config, s: Session) { RelayTime(s).Some? && RelayTime(s).value >= c.stableSession }

  /** How many unstable attempts in a row end a history. */
  function Streak(c: Config, turns: seq<Turn>): nat {
    if turns == [] || Stable(c, Last(turns).session) then 0 else 1 + Streak(c, Init(turns))
  }

  /** The delay announced after the attempt of turn `i`: a stable attempt retries
      from the initial backoff, the `k`th unstable one in a row from the `k-1`th
      doubling of it. */
  function RetryAfter(c: Config, turns: seq<Turn>, i: nat): Duration
    requires i < |turns|
  {
    var streak := Streak(c, turns[..i + 1]);
    Retry(c, Backoff(c, if streak == 0 then 0 else streak - 1), turns[i].entropy)
  }

  function Ending(c: Config, turns: seq<Turn>, i: nat): Event
    requires i < |turns|
  {
    if turns[i].session.Completed? then SessionEnded(i + 1, RetryAfter(c, turns, i))
    else AttemptFailed(i + 1, RetryAfter(c, turns, i))
  }

  /** The events of the first `n` attempts. */
  function Attempts(c: Config, turns: seq<Turn>, n: nat): seq<Event>
    requires n <= |turns|
  {
    if n == 0 then [] else Attempts(c, turns, n - 1) + [AttemptStarted(n), Ending(c, turns, n - 1)]
  }

  /** The attempt under way when cancellation is seen is cut short if its session
      failed. */
  predicate CutShort(turns: seq<Turn>) {
    var n := FirstCancel(turns);
    n < |turns| && !turns[n].before && turns[n].during && turns[n].session.Failed?
  }

  /** How many attempts come to their own end. */
  function EndedAttempts(turns: seq<Turn>): (k: nat)
    ensures k <= |turns|
  {
    var n := FirstCancel(turns);
    if n < |turns| && !turns[n].before && !CutShort(turns) then n + 1 else n
  }

  function Completions(turns: seq<Turn>): (k: nat)
    ensures k <= |turns|
  {
    if turns == [] then 0 else Completions(Init(turns)) + if Last(turns).session.Completed? then 1 else 0
  }

  function SummaryOf(turns: seq<Turn>): Summary {
    var ended := EndedAttempts(turns);
    var completed := Completions(turns[..ended]);
    Summary(ended + (if CutShort(turns) then 1 else 0), completed, ended - completed)
  }

  /** The supervisor's own events over a whole schedule. */
  function OwnLog(c: Config, turns: seq<Turn>): seq<Event> {
    var ended := EndedAttempts(turns);
    Attempts(c, turns, ended)
    + (if CutShort(turns) then [AttemptStarted(ended + 1)] else [])
    + (if FirstCancel(turns) < |turns| then [Stopped(SummaryOf(turns))] else [])
  }

  // --------------------------------------------------------------------- queues

  /** The events of a queue that are not peer events. */
  function Own(log: seq<Event>): seq<Event> {
    if log == [] then [] else Own(Init(log)) + if Last(log).Peer? then [] else [Last(log)]
  }

  function Peers(events: seq<PeerEvent>): seq<Event> {
    seq(|events|, i requires 0 <= i < |events| => Peer(events[i]))
  }

  lemma {:induction false} OwnSnoc(log: seq<Event>, e: Event)
    ensures Own(log + [e]) == if e.Peer? then Own(log) else Own(log) + [e]
  {
    assert Init(log + [e]) == log;
  }

  lemma {:induction false} PeersSnoc(log: seq<Event>, events: seq<PeerEvent>)
    requires events != []
    ensures log + Peers(events) == log + Peers(Init(events)) + [Peer(Last(events))]
  {
    assert Peers(events) == Peers(Init(events)) + [Peer(Last(events))];
  }

  lemma {:induction false} OwnPeers(log: seq<Event>, events: seq<PeerEvent>)
    ensures Own(log + Peers(events)) == Own(log)
    decreases |events|
  {
    if events == [] {
      assert log + Peers(events) == log;
    } else {
      hide Own, Peers;
      OwnPeers(log, Init(events));
      OwnSnoc(log + Peers(Init(events)), Peer(Last(events)));
      PeersSnoc(log, events);
    }
  }

  // ------------------------------------------------------------------- the loop

  lemma {:induction false} FirstCancelIs(turns: seq<Turn>, n: nat)
    requires n < |turns| && Cancels(turns[n]) && forall i :: 0 <= i < n ==> !Cancels(turns[i])
    ensures FirstCancel(turns) == n
  {
  }

  lemma {:induction false} StreakNext(c: Config, turns: seq<Turn>, i: nat)
    requires i < |turns|
    ensures Streak(c, turns[..i + 1]) == if Stable(c, turns[i].session) then 0 else 1 + Streak(c, turns[..i])
    ensures Completions(turns[..i + 1]) == Completions(turns[..i]) + if turns[i].session.Completed? then 1 else 0
  {
    assert Init(turns[..i + 1]) == turns[..i];
  }

  /** Where the loop stands between turns. */
  ghost predicate Between(c: Config, turns: seq<Turn>, i: nat, log: seq<Event>, summary: Summary, backoff: Duration)
    requires i <= |turns|
  {
    && Own(log) == Attempts(c, turns, i)
    && summary == Summary(i, Completions(turns[..i]), i - Completions(turns[..i]))
    && backoff == Backoff(c, Streak(c, turns[..i]))
  }

  /** What leaving the loop in turn `i` must come to. */
  lemma {:induction false} LeavingBefore(c: Config, turns: seq<Turn>, i: nat)
    requires i < |turns| && FirstCancel(turns) == i && turns[i].before
    ensures SummaryOf(turns) == Summary(i, Completions(turns[..i]), i - Completions(turns[..i]))
    ensures OwnLog(c, turns) == Attempts(c, turns, i) + [Stopped(SummaryOf(turns))]
  {
  }

  lemma {:induction false} LeavingCutShort(c: Config, turns: seq<Turn>, i: nat)
    requires i < |turns| && FirstCancel(turns) == i && !turns[i].before && turns[i].during && turns[i].session.Failed?
    ensures SummaryOf(turns) == Summary(i + 1, Completions(turns[..i]), i - Completions(turns[..i]))
    ensures OwnLog(c, turns) == Attempts(c, turns, i) + [AttemptStarted(i + 1)] + [Stopped(SummaryOf(turns))]
  {
  }

  lemma {:induction false} LeavingAfter(c: Config, turns: seq<Turn>, i: nat)
    requires i < |turns| && FirstCancel(turns) == i
    requires !turns[i].before && !(turns[i].during && turns[i].session.Failed?)
    ensures SummaryOf(turns) == Summary(i + 1, Completions(turns[..i + 1]), i + 1 - Completions(turns[..i + 1]))
    ensures OwnLog(c, turns) == Attempts(c, turns, i + 1) + [Stopped(SummaryOf(turns))]
  {
  }

  /** Supervises sessions until cancelled. The result is missing when the turns run
      out first. */
  method SuperviseWith(c: Config, turns: seq<Turn>) returns (r: Option<Summary>, log: seq<Event>)
    ensures r.Some? <==> FirstCancel(turns) < |turns|
    ensures r.Some? ==> r.value == SummaryOf(turns)
    ensures Own(log) == OwnLog(c, turns)
  {
    var initialBackoff, maxBackoff := Initial(c), Ceiling(c);
    var backoff := initialBackoff;
    var summary := Summary(0, 0, 0);
    log := [];
    assert Pow2(0) == 1;
    assert Between(c, turns, 0, log, summary, backoff);
    hide *;
    var i := 0;
    while i < |turns|
      invariant 0 <= i <= |turns|
      invariant forall j :: 0 <= j < i ==> !Cancels(turns[j])
      invariant Between(c, turns, i, log, summary, backoff)
    {
      var left;
      left, log, summary, backoff := TakeTurn(c, turns, i, log, summary, backoff, initialBackoff, maxBackoff);
      if left {
        return Some(summary), log;
      }
      i := i + 1;
    }
    NeverLeaving(c, turns);
    LogBetween(c, turns, |turns|, log, summary, backoff);
    r := None;
  }

  lemma {:induction false} LogBetween(c: Config, turns: seq<Turn>, i: nat, log: seq<Event>, summary: Summary,
                                      backoff: Duration)
    requires i <= |turns| && Between(c, turns, i, log, summary, backoff)
    ensures Own(log) == Attempts(c, turns, i)
  {
  }

  /** One turn of the loop; `left` says that it was the last. */
  method TakeTurn(c: Config, turns: seq<Turn>, i: nat, log: seq<Event>, summary: Summary, backoff: Duration,
                  initialBackoff: Duration, maxBackoff: Duration)
    returns (left: bool, log': seq<Event>, summary': Summary, backoff': Duration)
    requires i < |turns| && initialBackoff == Initial(c) && maxBackoff == Ceiling(c)
    requires forall j :: 0 <= j < i ==> !Cancels(turns[j])
    requires Between(c, turns, i, log, summary, backoff)
    ensures left ==> FirstCancel(turns) == i && summary' == SummaryOf(turns) && Own(log') == OwnLog(c, turns)
    ensures !left ==> !Cancels(turns[i]) && Between(c, turns, i + 1, log', summary', backoff')
  {
    if Cancels(turns[i]) {
      FirstCancelIs(turns, i);
    }
    hide Own, OwnLog, SummaryOf, FirstCancel, Streak, Backoff, Initial, Ceiling, Attempts, Completions;
    var turn := turns[i];
    left, log', summary', backoff' := true, log, summary, backoff;
    var cancelled := turn.before;
    if cancelled {
      LeavingBefore(c, turns, i);
      log' := Leave(log, turn, summary);
      return;
    }
    summary' := summary.(attempts := summary.attempts + 1);
    log' := Begin(log, turn, summary'.attempts);
    cancelled := cancelled || turn.during;
    if turn.session.Failed? && cancelled {
      LeavingCutShort(c, turns, i);
      log' := Leave(log', turn, summary');
      return;
    }
    log', summary', backoff' := Conclude(c, turns, i, log', summary', backoff', initialBackoff, maxBackoff);
    cancelled := cancelled || turn.asleep;
    if cancelled {
      LeavingAfter(c, turns, i);
      log' := Leave(log', turn, summary');
      return;
    }
    left := false;
  }

  lemma {:induction false} NeverLeaving(c: Config, turns: seq<Turn>)
    requires forall j :: 0 <= j < |turns| ==> !Cancels(turns[j])
    ensures FirstCancel(turns) == |turns| && OwnLog(c, turns) == Attempts(c, turns, |turns|)
  {
  }

  method Begin(log: seq<Event>, turn: Turn, attempt: nat) returns (log': seq<Event>)
    ensures Own(log') == Own(log) + [AttemptStarted(attempt)]
  {
    OwnPeers(log, turn.early);
    log' := log + Peers(turn.early);
    OwnSnoc(log', AttemptStarted(attempt));
    log' := log' + [AttemptStarted(attempt)];
    OwnPeers(log', turn.meanwhile);
    log' := log' + Peers(turn.meanwhile);
  }

  /** The part of a turn after its session, up to the sleep. */
  method Conclude(c: Config, turns: seq<Turn>, i: nat, log: seq<Event>, summary: Summary, backoff: Duration,
                  initialBackoff: Duration, maxBackoff: Duration)
    returns (log': seq<Event>, summary': Summary, backoff': Duration)
    requires i < |turns| && initialBackoff == Initial(c) && maxBackoff == Ceiling(c)
    requires Own(log) == Attempts(c, turns, i) + [AttemptStarted(i + 1)]
    requires summary == Summary(i + 1, Completions(turns[..i]), i - Completions(turns[..i]))
    requires backoff == Backoff(c, Streak(c, turns[..i]))
    ensures Between(c, turns, i + 1, log', summary', backoff')
  {
    StreakNext(c, turns, i);
    assert Pow2(0) == 1;
    assert Backoff(c, 0) == Initial(c);
    hide Retry, Backoff, Own, Pow2, Streak, Completions;
    var turn, attempt := turns[i], summary.attempts;
    backoff' := backoff;
    var stable := Stable(c, turn.session);
    if stable {
      backoff' := initialBackoff;
    }
    var retryIn := Retry(c, backoff', turn.entropy);
    assert retryIn == RetryAfter(c, turns, i);
    match turn.session {
      case Completed(_) =>
        summary' := summary.(completed := summary.completed + 1);
        OwnSnoc(log, SessionEnded(attempt, retryIn));
        log' := log + [SessionEnded(attempt, retryIn)];
      case Failed(_) =>
        summary' := summary.(failed := summary.failed + 1);
        OwnSnoc(log, AttemptFailed(attempt, retryIn));
        log' := log + [AttemptFailed(attempt, retryIn)];
    }
    assert Own(log') == Attempts(c, turns, i + 1);
    if !stable {
      BackoffDoubles(c, Streak(c, turns[..i]));
      backoff' := SaturatingMul(backoff', 2);
      backoff' := if backoff' <= maxBackoff then backoff' else maxBackoff;
    }
  }

  method Leave(log: seq<Event>, turn: Turn, summary: Summary) returns (log': seq<Event>)
    ensures Own(log') == Own(log) + [Stopped(summary)]
  {
    OwnPeers(log, turn.late);
    OwnSnoc(log + Peers(turn.late), Stopped(summary));
    log' := log + Peers(turn.late) + [Stopped(summary)];
  }

  // -------------------------------------------------------- what every log keeps

  datatype Kind = Starts | Endings | Failures

  predicate Matches(kind: Kind, e: Event) {
    match kind
    case Starts => e.AttemptStarted?
    case Endings => e.SessionEnded?
    case Failures => e.AttemptFailed?
  }

  function Count(kind: Kind, log: seq<Event>): nat {
    if log == [] then 0 else Count(kind, Init(log)) + if Matches(kind, Last(log)) then 1 else 0
  }

  /** Attempt numbers count up from one, each start is followed by one ending of the
      same attempt, and only the last may lack its ending. */
  predicate Alternates(log: seq<Event>) {
    forall i :: 0 <= i < |log| ==>
      if i % 2 == 0 then log[i] == AttemptStarted(i / 2 + 1)
      else (log[i].SessionEnded? || log[i].AttemptFailed?) && log[i].attempt == i / 2 + 1
  }

  /** A complete log: alternating attempts closed by one `Stopped` that carries the
      counts of the log it closes. */
  predicate CompleteLog(log: seq<Event>, summary: Summary) {
    && log != [] && Last(log) == Stopped(summary) && Alternates(Init(log))
    && summary == Summary(Count(Starts, log), Count(Endings, log), Count(Failures, log))
  }

  lemma {:induction false} CountSnoc(kind: Kind, log: seq<Event>, e: Event)
    ensures Count(kind, log + [e]) == Count(kind, log) + if Matches(kind, e) then 1 else 0
  {
    assert Init(log + [e]) == log;
  }

  lemma {:induction false} CountsSnoc(log: seq<Event>, e: Event)
    ensures forall kind :: Count(kind, log + [e]) == Count(kind, log) + if Matches(kind, e) then 1 else 0
  {
    forall kind ensures Count(kind, log + [e]) == Count(kind, log) + if Matches(kind, e) then 1 else 0 {
      CountSnoc(kind, log, e);
    }
  }

  lemma {:induction false} OneMoreEnding(log: seq<Event>, n: nat, ending: Event)
    requires Alternates(log) && |log| == 2 * n + 1
    requires (ending.SessionEnded? || ending.AttemptFailed?) && ending.attempt == n + 1
    ensures Alternates(log + [ending])
  {
  }

  lemma {:induction false} OnePair(log: seq<Event>, n: nat, ending: Event)
    requires Alternates(log) && |log| == 2 * n
    requires (ending.SessionEnded? || ending.AttemptFailed?) && ending.attempt == n + 1
    ensures
      var longer := log + [AttemptStarted(n + 1), ending];
      && Alternates(longer)
      && Count(Starts, longer) == Count(Starts, log) + 1
      && Count(Endings, longer) == Count(Endings, log) + (if ending.SessionEnded? then 1 else 0)
      && Count(Failures, longer) == Count(Failures, log) + (if ending.SessionEnded? then 0 else 1)
  {
    hide Alternates, Count;
    var started := log + [AttemptStarted(n + 1)];
    CountsSnoc(log, AttemptStarted(n + 1));
    CountsSnoc(started, ending);
    OneMoreStart(log, n);
    OneMoreEnding(started, n, ending);
    assert started + [ending] == log + [AttemptStarted(n + 1), ending];
  }

  lemma {:induction false} AttemptsShape(c: Config, turns: seq<Turn>, n: nat)
    requires n <= |turns|
    ensures |Attempts(c, turns, n)| == 2 * n && Alternates(Attempts(c, turns, n))
    ensures Count(Starts, Attempts(c, turns, n)) == n
    ensures Count(Endings, Attempts(c, turns, n)) == Completions(turns[..n])
    ensures Count(Failures, Attempts(c, turns, n)) == n - Completions(turns[..n])
  {
    if n == 0 {
    } else {
      hide RetryAfter, Alternates, Count, Completions;
      AttemptsShape(c, turns, n - 1);
      StreakNext(c, turns, n - 1);
      OnePair(Attempts(c, turns, n - 1), n - 1, Ending(c, turns, n - 1));
    }
  }

  lemma {:induction false} LogClosed(log: seq<Event>, summary: Summary)
    requires Alternates(log)
    requires summary == Summary(Count(Starts, log), Count(Endings, log), Count(Failures, log))
    ensures CompleteLog(log + [Stopped(summary)], summary)
  {
    CountsSnoc(log, Stopped(summary));
    assert Init(log + [Stopped(summary)]) == log;
  }

  lemma {:induction false} OneMoreStart(log: seq<Event>, n: nat)
    requires Alternates(log) && |log| == 2 * n
    ensures Alternates(log + [AttemptStarted(n + 1)])
  {
  }

  lemma {:induction false} StartCounted(log: seq<Event>, n: nat)
    ensures
      var longer := log + [AttemptStarted(n)];
      && Count(Starts, longer) == Count(Starts, log) + 1
      && Count(Endings, longer) == Count(Endings, log) && Count(Failures, longer) == Count(Failures, log)
  {
    hide Count;
    CountsSnoc(log, AttemptStarted(n));
  }

  /** Every stopped supervisor leaves a complete log. */
  lemma {:induction false} StoppedLogIsComplete(c: Config, turns: seq<Turn>)
    requires FirstCancel(turns) < |turns|
    ensures CompleteLog(OwnLog(c, turns), SummaryOf(turns))
  {
    hide *;
    var i := FirstCancel(turns);
    AttemptsShape(c, turns, i);
    AttemptsShape(c, turns, i + 1);
    if turns[i].before {
      LeavingBefore(c, turns, i);
      LogClosed(Attempts(c, turns, i), SummaryOf(turns));
    } else if turns[i].during && turns[i].session.Failed? {
      LeavingCutShort(c, turns, i);
      StartCounted(Attempts(c, turns, i), i + 1);
      OneMoreStart(Attempts(c, turns, i), i);
      LogClosed(Attempts(c, turns, i) + [AttemptStarted(i + 1)], SummaryOf(turns));
    } else {
      LeavingAfter(c, turns, i);
      LogClosed(Attempts(c, turns, i + 1), SummaryOf(turns));
    }
  }

  /** At exit, attempts minus completed minus failed is 0 or 1, and it is 1 exactly
      when the last session returned an error with cancellation set. */
  lemma {:induction false} Accounting(turns: seq<Turn>)
    requires FirstCancel(turns) < |turns|
    ensures
      var s := SummaryOf(turns);
      var last := turns[FirstCancel(turns)];
      s.attempts - s.completed - s.failed == if !last.before && last.during && last.session.Failed? then 1 else 0
  {
  }

  /** The delay announced after each attempt of a run, and its bounds. */
  lemma {:induction false} AnnouncedDelays(c: Config, turns: seq<Turn>, i: nat)
    requires i < EndedAttempts(turns)
    ensures
      var log := OwnLog(c, turns);
      var streak := Streak(c, turns[..i + 1]);
      var base := Backoff(c, if streak == 0 then 0 else streak - 1);
      && 2 * i + 1 < |log|
      && log[2 * i + 1] == Ending(c, turns, i)
      && log[2 * i + 1].retryIn == Retry(c, base, turns[i].entropy)
      && Min(base * 80 / 100, U64_MAX) <= log[2 * i + 1].retryIn <= Min(Ceiling(c), base * 120 / 100)
  {
    var ended := EndedAttempts(turns);
    AttemptAt(c, turns, ended, i);
    var streak := Streak(c, turns[..i + 1]);
    RetryBounds(c, Backoff(c, if streak == 0 then 0 else streak - 1), turns[i].entropy);
  }

  // ------------------------------------------ delays, from the sessions themselves

  /** The session relayed for at least the stable time; it relayed for less, or not. */
  predicate Lasted(c: Config, s: Session) {
    match s
    case Completed(relay) => relay >= c.stableSession
    case Failed(Some(relay)) => relay >= c.stableSession
    case Failed(None) => false
  }

  predicate FellShort(c: Config, s: Session) {
    match s
    case Completed(relay) => relay < c.stableSession
    case Failed(Some(relay)) => relay < c.stableSession
    case Failed(None) => true
  }

  /** Attempt `i` comes to its own end: nothing is cancelled before it, and it does not
      fail with cancellation set. */
  predicate ComesToItsEnd(turns: seq<Turn>, i: nat) {
    && i < |turns| && !turns[i].before && !(turns[i].during && turns[i].session.Failed?)
    && forall j :: 0 <= j < i ==> !turns[j].before && !turns[j].during && !turns[j].asleep
  }

  /** The delay after `k` doublings of the initial backoff, one millisecond if that is
      configured as zero, up to the configured maximum if that is larger: a share of 80
      to 120 percent, in 64 bits of nanoseconds and at most that maximum. */
  function DelayAfter(c: Config, k: nat, entropy: nat): Duration {
    var initial: Duration := if c.initialBackoff == 0 then 1_000_000 else c.initialBackoff;
    var limit: Duration := if c.maxBackoff > initial then c.maxBackoff else initial;
    var backoff: nat := Min(limit, initial * Pow2(k));
    Min(limit, Min(0xFFFF_FFFF_FFFF_FFFF, backoff * (80 + entropy % 41) / 100))
  }

  lemma {:induction false} EndIsInLog(c: Config, turns: seq<Turn>, i: nat)
    requires ComesToItsEnd(turns, i)
    ensures i < EndedAttempts(turns)
  {
  }

  lemma {:induction false} DelayIs(c: Config, k: nat, entropy: nat)
    ensures Retry(c, Backoff(c, k), entropy) == DelayAfter(c, k, entropy)
  {
    hide Pow2;
    NoWideSaturation(Backoff(c, k), entropy);
  }

  lemma {:induction false} StreakIs(c: Config, turns: seq<Turn>, k: nat)
    requires k <= |turns| && forall j :: |turns| - k <= j < |turns| ==> FellShort(c, turns[j].session)
    requires k < |turns| ==> Lasted(c, turns[|turns| - k - 1].session)
    ensures Streak(c, turns) == k
    decreases |turns|
  {
    if k == 0 {
      assert turns != [] ==> Lasted(c, Last(turns).session);
    } else {
      assert FellShort(c, turns[|turns| - 1].session);
      StreakIs(c, Init(turns), k - 1);
    }
  }

  /** After each attempt that comes to its end, the log has its ending, with a delay of
      80 to 120 percent of a backoff: the `k`th attempt in a row that fell short of the
      stable time, from the start of the run or from one that lasted, waits on the
      initial backoff doubled `k - 1` times, at most the maximum. One that lasted waits
      on the initial backoff again. */
  lemma {:induction false} DelayFromSessions(c: Config, turns: seq<Turn>, i: nat, k: nat)
    requires ComesToItsEnd(turns, i) && k <= i + 1
    requires forall j :: i - k < j <= i ==> FellShort(c, turns[j].session)
    requires k <= i ==> Lasted(c, turns[i - k].session)
    ensures
      var log := OwnLog(c, turns);
      var delay := DelayAfter(c, if k == 0 then 0 else k - 1, turns[i].entropy);
      && 2 * i + 1 < |log| && log[2 * i] == AttemptStarted(i + 1)
      && log[2 * i + 1]
         == if turns[i].session.Completed? then SessionEnded(i + 1, delay) else AttemptFailed(i + 1, delay)
  {
    hide *;
    EndIsInLog(c, turns, i);
    EntriesInLog(c, turns, i);
    StreakIs(c, turns[..i + 1], k);
    EndingIs(c, turns, i, k);
  }

  lemma {:induction false} EntriesInLog(c: Config, turns: seq<Turn>, i: nat)
    requires i < EndedAttempts(turns)
    ensures
      var log := OwnLog(c, turns);
      2 * i + 1 < |log| && log[2 * i] == AttemptStarted(i + 1) && log[2 * i + 1] == Ending(c, turns, i)
  {
    hide EndedAttempts, Attempts, Ending, FirstCancel, CutShort, SummaryOf;
    AttemptAt(c, turns, EndedAttempts(turns), i);
    StartAt(c, turns, EndedAttempts(turns), i);
  }

  lemma {:induction false} EndingIs(c: Config, turns: seq<Turn>, i: nat, k: nat)
    requires i < |turns| && Streak(c, turns[..i + 1]) == k
    ensures
      var delay := DelayAfter(c, if k == 0 then 0 else k - 1, turns[i].entropy);
      Ending(c, turns, i)
        == if turns[i].session.Completed? then SessionEnded(i + 1, delay) else AttemptFailed(i + 1, delay)
  {
    hide Streak, Retry, DelayAfter, Backoff;
    DelayIs(c, if k == 0 then 0 else k - 1, turns[i].entropy);
  }

  lemma {:induction false} StartAt(c: Config, turns: seq<Turn>, n: nat, i: nat)
    requires i < n <= |turns|
    ensures |Attempts(c, turns, n)| == 2 * n && Attempts(c, turns, n)[2 * i] == AttemptStarted(i + 1)
    decreases n
  {
    hide *;
    AttemptsExtended(c, turns, n - 1);
    if i == n - 1 {
    } else {
      StartAt(c, turns, n - 1, i);
    }
  }

  /** How a run that first meets a cancellation in turn `n` stops: before the attempt,
      in its session if that failed, or after it. */
  lemma {:induction false} StopsAt(c: Config, turns: seq<Turn>, n: nat)
    requires n < |turns| && (turns[n].before || turns[n].during || turns[n].asleep)
    requires forall j :: 0 <= j < n ==> !turns[j].before && !turns[j].during && !turns[j].asleep
    ensures
      var log := OwnLog(c, turns);
      && |log| == (if turns[n].before then 2 * n + 1
                   else if turns[n].during && turns[n].session.Failed? then 2 * n + 2
                   else 2 * n + 3)
      && Last(log).Stopped? && Last(log).summary == SummaryOf(turns)
      && SummaryOf(turns).attempts == (if turns[n].before then n else n + 1)
  {
    FirstCancelIs(turns, n);
    AttemptsShape(c, turns, n);
    AttemptsShape(c, turns, n + 1);
    hide Attempts, Completions, FirstCancel, Alternates, Count;
    if turns[n].before {
      LeavingBefore(c, turns, n);
    } else if turns[n].during && turns[n].session.Failed? {
      LeavingCutShort(c, turns, n);
    } else {
      LeavingAfter(c, turns, n);
    }
  }

  lemma {:induction false} AttemptsExtended(c: Config, turns: seq<Turn>, n: nat)
    requires n < |turns|
    ensures Attempts(c, turns, n + 1) == Attempts(c, turns, n) + [AttemptStarted(n + 1), Ending(c, turns, n)]
    ensures |Attempts(c, turns, n)| == 2 * n
  {
    AttemptsShape(c, turns, n);
  }

  lemma {:induction false} AttemptAt(c: Config, turns: seq<Turn>, n: nat, i: nat)
    requires i < n <= |turns|
    ensures |Attempts(c, turns, n)| == 2 * n && Attempts(c, turns, n)[2 * i + 1] == Ending(c, turns, i)
    decreases n
  {
    hide *;
    AttemptsExtended(c, turns, n - 1);
    if i == n - 1 {
    } else {
      AttemptAt(c, turns, n - 1, i);
    }
  }
}
