/** The QUIC connection broker and its dialers around one watch cell.

    The cell holds a version and the newest value. Cloning a receiver copies the
    version it has seen, reading the value does not mark it seen, and waiting for a
    change looks at the version before it looks for a dropped sender. Every task is
    cut at its await points; an event that is not possible changes nothing. */
module QuicBroker {
  import opened Prelude
  import opened Subsequences

  type Conn = nat

  /** Where the accept loop stands. `Closing`, `Announced` and `Returned` are the
      shutdown sequence: endpoint closed, empty value published, loop returned and
      sender dropped. `Aborted` is the loop dropped at an await point. */
  datatype BrokerPhase =
    | Accepting
    | Serving(conn: Conn)
    | Closing(clean: bool)
    | Announced(clean: bool)
    | Returned(clean: bool)
    | Aborted

  datatype CallResult = Stream(conn: Conn) | BrokerStopped | CallCancelled | StreamFailed

  datatype CallPhase = Reading | Opening(conn: Conn) | Waiting | Done(result: CallResult)

  /** One `open_bi` call. `inspected` is the version of the value it read last,
      `start` the version when it began, `wakes` how often a change woke it. */
  datatype Call = Call(seen: nat, phase: CallPhase, inspected: nat, start: nat, wakes: nat)

  /** `published` is the history of the cell's values; its last entry is `value`
      and its length fixes `version`. */
  datatype State = State(
    version: nat,
    value: Option<Conn>,
    sender: bool,
    published: seq<Option<Conn>>,
    known: set<Conn>,
    closed: set<Conn>,
    broker: BrokerPhase,
    cancelled: bool,
    template: nat,
    dialers: map<nat, nat>,
    calls: map<nat, Call>,
    cancelledCalls: set<nat>)

  datatype Event =
    // the accept loop
    | Accept(conn: Conn)
    | HandshakeFailed
    | EndpointClosed
    | ObserveCancel
    | ConnectionGone
    | PublishStop
    | Return
    | Abort
    // the environment
    | CancelBroker
    | CloseConn(conn: Conn)
    | NewDialer(dialer: nat)
    | CloneDialer(dialer: nat, copy: nat)
    | CancelCall(call: nat)
    | Idle
    // one call
    | StartCall(call: nat, dialer: nat)
    | Inspect(call: nat)
    | Open(call: nat, ok: bool)
    | Wait(call: nat)

  function Start(): State {
    State(0, None, true, [None], {}, {}, Accepting, false, 0, map[], map[], {})
  }

  predicate InPhase(s: State, k: nat, phase: CallPhase) {
    k in s.calls && s.calls[k].phase == phase
  }

  predicate Enabled(s: State, e: Event) {
    match e
    case Accept(c) => s.broker.Accepting? && !s.cancelled && c !in s.known
    case HandshakeFailed => s.broker.Accepting? && !s.cancelled
    case EndpointClosed => s.broker.Accepting? && !s.cancelled
    case ObserveCancel => (s.broker.Accepting? || s.broker.Serving?) && s.cancelled
    case ConnectionGone => s.broker.Serving? && !s.cancelled && s.broker.conn in s.closed
    case PublishStop => s.broker.Closing?
    case Return => s.broker.Announced?
    case Abort => s.broker.Accepting? || s.broker.Serving?
    case CancelBroker => true
    case CloseConn(c) => c in s.known
    case NewDialer(d) => d !in s.dialers && s.sender
    case CloneDialer(d, copy) => d in s.dialers && copy !in s.dialers
    case CancelCall(k) => true
    case Idle => true
    case StartCall(k, d) => k !in s.calls && d in s.dialers
    case Inspect(k) => InPhase(s, k, Reading)
    case Open(k, ok) =>
      && k in s.calls && s.calls[k].phase.Opening?
      && (k in s.cancelledCalls || !ok || s.calls[k].phase.conn !in s.closed)
    case Wait(k) =>
      && InPhase(s, k, Waiting)
      && (k in s.cancelledCalls || s.calls[k].seen != s.version || !s.sender)
  }

  /** `send_replace`. */
  function Publish(s: State, v: Option<Conn>): State {
    s.(version := s.version + 1, value := v, published := s.published + [v])
  }

  function SetCall(s: State, k: nat, c: Call): State { s.(calls := s.calls[k := c]) }

  function Step(s: State, e: Event): State {
    if !Enabled(s, e) then s else
    match e
    case Accept(c) => Publish(s, Some(c)).(known := s.known + {c}, broker := Serving(c))
    case HandshakeFailed => s
    case EndpointClosed => s.(closed := s.closed + s.known, broker := Closing(false))
    case ObserveCancel => s.(closed := s.closed + s.known, broker := Closing(true))
    case ConnectionGone => Publish(s, None).(broker := Accepting)
    case PublishStop => Publish(s, None).(broker := Announced(s.broker.clean))
    case Return => s.(sender := false, broker := Returned(s.broker.clean))
    case Abort => s.(sender := false, broker := Aborted)
    case CancelBroker => s.(cancelled := true)
    case CloseConn(c) => s.(closed := s.closed + {c})
    case NewDialer(d) => s.(dialers := s.dialers[d := s.template])
    case CloneDialer(d, copy) => s.(dialers := s.dialers[copy := s.dialers[d]])
    case CancelCall(k) => s.(cancelledCalls := s.cancelledCalls + {k})
    case Idle => s
    case StartCall(k, d) => SetCall(s, k, Call(s.dialers[d], Reading, s.version, s.version, 0))
    case Inspect(k) =>
      SetCall(s, k, s.calls[k].(
        inspected := s.version,
        phase := if s.value.Some? then Opening(s.value.value) else Waiting))
    case Open(k, ok) =>
      SetCall(s, k, s.calls[k].(phase :=
        if k in s.cancelledCalls then Done(CallCancelled)
        else if ok then Done(Stream(s.calls[k].phase.conn))
        else if s.calls[k].phase.conn in s.closed then Waiting
        else Done(StreamFailed)))
    case Wait(k) =>
      if k in s.cancelledCalls then SetCall(s, k, s.calls[k].(phase := Done(CallCancelled)))
      else if s.calls[k].seen != s.version then
        SetCall(s, k, s.calls[k].(seen := s.version, phase := Reading, wakes := s.calls[k].wakes + 1))
      else SetCall(s, k, s.calls[k].(phase := Done(BrokerStopped)))
  }

  function Run(s: State, es: seq<Event>): State {
    if es == [] then s else Step(Run(s, Init(es)), Last(es))
  }

  // ------------------------------------------------------------ the invariant

  ghost predicate CellInv(s: State) {
    && |s.published| == s.version + 1
    && Last(s.published) == s.value
    && s.template == 0
    && (forall d :: d in s.dialers ==> s.dialers[d] == 0)
    && (forall i :: 0 <= i < |s.published| && s.published[i].Some? ==> s.published[i].value in s.known)
  }

  ghost predicate BrokerInv(s: State) {
    && (s.sender <==> !s.broker.Returned? && !s.broker.Aborted?)
    && (s.broker.Accepting? ==> s.value == None)
    && (s.broker.Serving? ==> s.value == Some(s.broker.conn))
    && (s.broker.Announced? || s.broker.Returned? ==> s.value == None && s.version > 0)
    && (s.broker.Closing? || s.broker.Announced? || s.broker.Returned? ==> s.known <= s.closed)
  }

  /** A call that waits has already inspected everything it has been told of, and
      found nothing it could still use. */
  ghost predicate CallInv(s: State, c: Call) {
    && c.seen <= s.version && c.start <= s.version
    && c.inspected <= s.version
    && (c.wakes == 0 ==> c.seen == 0)
    && (c.wakes > 0 ==> c.wakes - 1 <= c.seen - c.start)
    && (c.phase.Opening? ==>
          c.seen <= c.inspected && c.inspected < |s.published| && s.published[c.inspected] == Some(c.phase.conn))
    && (c.phase.Waiting? ==>
          && c.seen <= c.inspected && c.inspected < |s.published|
          && (s.published[c.inspected].Some? ==> s.published[c.inspected].value in s.closed))
  }

  ghost predicate Inv(s: State) {
    CellInv(s) && BrokerInv(s) && forall k :: k in s.calls ==> CallInv(s, s.calls[k])
  }

  lemma {:induction false} CellStep(s: State, e: Event)
    requires CellInv(s) && BrokerInv(s)
    ensures CellInv(Step(s, e))
  {
  }

  lemma {:induction false} BrokerStep(s: State, e: Event)
    requires BrokerInv(s)
    ensures BrokerInv(Step(s, e))
  {
  }

  /** Values once published stay in the history, and closed connections closed. */
  lemma {:induction false} CallKept(s: State, t: State, c: Call)
    requires CallInv(s, c) && CellInv(s)
    requires s.published <= t.published && s.version <= t.version && s.closed <= t.closed
    ensures CallInv(t, c)
  {
  }

  /** The call an event is a step of. */
  function Actor(e: Event): Option<nat> {
    match e
    case StartCall(k, _) => Some(k)
    case Inspect(k) => Some(k)
    case Open(k, _) => Some(k)
    case Wait(k) => Some(k)
    case _ => None
  }

  lemma {:induction false} OthersKeepCall(s: State, e: Event, k: nat)
    requires k in s.calls && Actor(e) != Some(k)
    ensures k in Step(s, e).calls && Step(s, e).calls[k] == s.calls[k]
  {
  }

  lemma {:induction false} NoOtherCalls(s: State, e: Event, k: nat)
    requires k in Step(s, e).calls && Actor(e) != Some(k)
    ensures k in s.calls && Step(s, e).calls[k] == s.calls[k]
  {
  }

  lemma {:induction false} HistoryGrows(s: State, e: Event)
    ensures s.published <= Step(s, e).published && s.version <= Step(s, e).version
    ensures s.closed <= Step(s, e).closed && s.known <= Step(s, e).known
  {
  }

  lemma {:induction false} ActorStep(s: State, e: Event, k: nat)
    requires CellInv(s) && (k in s.calls ==> CallInv(s, s.calls[k]))
    requires Actor(e) == Some(k) && k in Step(s, e).calls
    ensures CallInv(Step(s, e), Step(s, e).calls[k])
  {
    var t := Step(s, e);
    assert t.published == s.published && t.version == s.version && t.closed == s.closed;
  }

  lemma {:induction false} InvStep(s: State, e: Event)
    requires Inv(s)
    ensures Inv(Step(s, e))
  {
    CellStep(s, e);
    BrokerStep(s, e);
    HistoryGrows(s, e);
    var t := Step(s, e);
    forall k | k in t.calls ensures CallInv(t, t.calls[k]) {
      if Actor(e) == Some(k) {
        ActorStep(s, e, k);
      } else {
        NoOtherCalls(s, e, k);
        hide Step, CallInv, CellInv, BrokerInv, Enabled;
        CallKept(s, t, s.calls[k]);
      }
    }
  }

  lemma {:induction false} InvRun(s: State, es: seq<Event>)
    requires Inv(s)
    ensures Inv(Run(s, es))
    decreases |es|
  {
    if es == [] {
    } else {
      InvRun(s, Init(es));
      InvStep(Run(s, Init(es)), Last(es));
    }
  }

  // ------------------------------------------------------------ over whole runs

  /** A call is parked when it waits and nothing can wake it. */
  predicate Parked(s: State, k: nat) {
    InPhase(s, k, Waiting) && !Enabled(s, Wait(k))
  }

  lemma {:induction false} ParkedHasInspected(s: State, k: nat)
    requires Inv(s) && Parked(s, k)
    ensures s.calls[k].inspected == s.version && |s.published| == s.version + 1
    ensures s.value == s.published[s.version] && (s.value.Some? ==> s.value.value in s.closed)
  {
    assert CallInv(s, s.calls[k]);
  }

  /** No wake-up is lost. In every run a parked call has inspected the newest
      published value, and that value is empty or a connection already closed; so
      it never sleeps past a connection it could use. */
  lemma {:induction false} NoLostWakeup(es: seq<Event>, k: nat)
    requires Parked(Run(Start(), es), k)
    ensures
      var s := Run(Start(), es);
      && s.calls[k].inspected == s.version && |s.published| == s.version + 1
      && s.value == s.published[s.calls[k].inspected]
      && (s.value.Some? ==> s.value.value in s.closed)
  {
    InvRun(Start(), es);
    ParkedHasInspected(Run(Start(), es), k);
  }

  /** Publishing any value, or dropping the sender, lets every waiting call go on. */
  lemma {:induction false} PublishWakes(es: seq<Event>, e: Event, k: nat)
    ensures
      var s := Run(Start(), es);
      var t := Run(Start(), es + [e]);
      InPhase(s, k, Waiting) && InPhase(t, k, Waiting) && (t.version != s.version || t.sender != s.sender) ==>
        !Parked(t, k)
  {
    assert Init(es + [e]) == es;
    InvRun(Start(), es);
    PublishWakesStep(Run(Start(), es), e, k);
  }

  lemma {:induction false} PublishWakesStep(s: State, e: Event, k: nat)
    requires Inv(s)
    ensures
      var t := Step(s, e);
      InPhase(s, k, Waiting) && InPhase(t, k, Waiting) && (t.version != s.version || t.sender != s.sender) ==>
        !Parked(t, k)
  {
    if k in s.calls {
      assert CallInv(s, s.calls[k]);
      HistoryGrows(s, e);
    }
  }

  /** One call is woken at most once more than the number of values published
      since it began. */
  lemma {:induction false} WakeBound(es: seq<Event>, k: nat)
    requires k in Run(Start(), es).calls
    ensures
      var s := Run(Start(), es);
      s.calls[k].wakes <= 1 + (s.version - s.calls[k].start)
  {
    InvRun(Start(), es);
    assert CallInv(Run(Start(), es), Run(Start(), es).calls[k]);
  }

  /** The published value is empty whenever the loop is accepting, failed
      handshakes included, and from the shutdown announcement on; while a
      connection is served, it is that connection. */
  lemma {:induction false} PublishedValue(es: seq<Event>)
    ensures
      var s := Run(Start(), es);
      && (s.broker.Accepting? || s.broker.Announced? || s.broker.Returned? ==> s.value == None)
      && (s.broker.Serving? ==> s.value == Some(s.broker.conn))
      && (s.value.Some? ==> s.value.value in s.known)
  {
    InvRun(Start(), es);
  }

  // -------------------------------------------------- how calls and the loop end

  /** At position `j` of a run something settles call `k` with this result: the
      connection it had read gave a stream, or refused one while open; its cancellation
      was seen while it opened or waited; or it waited with nothing new and the sender
      gone. */
  ghost predicate Settles(s: State, es: seq<Event>, j: nat, k: nat, result: CallResult) {
    && j < |es| && k in Run(s, es[..j]).calls
    && var t := Run(s, es[..j]);
       var phase := t.calls[k].phase;
       match result
       case Stream(conn) =>
         es[j] == Open(k, true) && phase == Opening(conn) && k !in t.cancelledCalls && conn !in t.closed
       case StreamFailed =>
         es[j] == Open(k, false) && phase.Opening? && k !in t.cancelledCalls && phase.conn !in t.closed
       case CallCancelled =>
         && k in t.cancelledCalls
         && ((phase.Opening? && es[j].Open? && es[j].call == k) || (phase == Waiting && es[j] == Wait(k)))
       case BrokerStopped =>
         es[j] == Wait(k) && phase == Waiting && k !in t.cancelledCalls && t.calls[k].seen == t.version && !t.sender
  }

  lemma {:induction false} SettlesKept(s: State, es: seq<Event>, n: nat, j: nat, k: nat, result: CallResult)
    requires j < n <= |es|
    ensures Settles(s, es[..n], j, k, result) <==> Settles(s, es, j, k, result)
  {
    assert es[..n][..j] == es[..j];
  }

  /** What one step of any task does to the result of a call. */
  lemma {:induction false} SettlingStep(s: State, e: Event, k: nat, result: CallResult)
    ensures InPhase(Step(s, e), k, Done(result)) <==> InPhase(s, k, Done(result)) || Settles(s, [e], 0, k, result)
  {
    assert [e][..0] == [] && Run(s, []) == s;
    if Actor(e) != Some(k) {
      if k in s.calls {
        OthersKeepCall(s, e, k);
      }
      if k in Step(s, e).calls {
        NoOtherCalls(s, e, k);
      }
    }
  }

  /** A call ends with a result exactly when something in the run settled it so; in
      particular as `Stream(c)` exactly when the open connection `c` it had read gave a
      stream, and as `StreamFailed` exactly when an open connection refused one. */
  lemma {:induction false} ResultExactly(s: State, es: seq<Event>, k: nat, result: CallResult)
    requires k !in s.calls
    ensures InPhase(Run(s, es), k, Done(result)) <==> exists j: nat :: Settles(s, es, j, k, result)
    decreases |es|
  {
    if es == [] {
    } else {
      var n := |es| - 1;
      var t := Run(s, Init(es));
      ResultExactly(s, Init(es), k, result);
      SettlingStep(t, Last(es), k, result);
      SettlesAtLast(s, es, k, result);
      assert es[..n] == Init(es);
      hide Step, Run, Settles, InPhase;
      if j: nat :| Settles(s, es, j, k, result) {
        SettlesWithin(s, es, j, k, result);
        if j < n {
          SettlesKept(s, es, n, j, k, result);
        }
      }
      if j: nat :| Settles(s, Init(es), j, k, result) {
        SettlesWithin(s, Init(es), j, k, result);
        SettlesKept(s, es, n, j, k, result);
      }
    }
  }

  lemma {:induction false} SettlesWithin(s: State, es: seq<Event>, j: nat, k: nat, result: CallResult)
    requires Settles(s, es, j, k, result)
    ensures j < |es|
  {
  }

  lemma {:induction false} SettlesAtLast(s: State, es: seq<Event>, k: nat, result: CallResult)
    requires es != []
    ensures Run(s, es) == Step(Run(s, Init(es)), Last(es))
    ensures Settles(s, es, |es| - 1, k, result) <==> Settles(Run(s, Init(es)), [Last(es)], 0, k, result)
  {
    var t, e := Run(s, Init(es)), Last(es);
    assert es[..|es| - 1] == Init(es) && [e][..0] == [] && Run(t, []) == t;
  }

  /** The connection a call is opening a stream on is one it read as the newest value. */
  lemma {:induction false} OpeningWasRead(s: State, es: seq<Event>, k: nat, conn: Conn)
    requires k !in s.calls && InPhase(Run(s, es), k, Opening(conn))
    ensures exists i: nat :: i < |es| && es[i] == Inspect(k) && Run(s, es[..i]).value == Some(conn)
    decreases |es|
  {
    assert es != [];
    var n := |es| - 1;
    var t := Run(s, Init(es));
    assert es[..n] == Init(es);
    if InPhase(t, k, Opening(conn)) {
      OpeningWasRead(s, Init(es), k, conn);
      var i: nat :| i < n && Init(es)[i] == Inspect(k) && Run(s, Init(es)[..i]).value == Some(conn);
      assert Init(es)[..i] == es[..i] && es[i] == Inspect(k);
    } else {
      OpeningStarts(t, Last(es), k, conn);
      assert es[n] == Inspect(k) && Run(s, es[..n]).value == Some(conn);
    }
  }

  lemma {:induction false} OpeningStarts(s: State, e: Event, k: nat, conn: Conn)
    requires InPhase(Step(s, e), k, Opening(conn)) && !InPhase(s, k, Opening(conn))
    ensures e == Inspect(k) && s.value == Some(conn)
  {
  }

  /** The loop is on its way out, or out, by cancellation (`clean`) or not. */
  predicate GoingOut(s: State, clean: bool) {
    s.broker == Closing(clean) || s.broker == Announced(clean) || s.broker == Returned(clean)
  }

  /** At position `j` the loop turned to leave: on a cancellation that was set, or on
      the endpoint's end while it accepted with none set. */
  ghost predicate Leaves(s: State, es: seq<Event>, j: nat, clean: bool) {
    && j < |es|
    && var t := Run(s, es[..j]);
       if clean then es[j] == ObserveCancel && t.cancelled && (t.broker.Accepting? || t.broker.Serving?)
       else es[j] == EndpointClosed && !t.cancelled && t.broker.Accepting?
  }

  lemma {:induction false} LeavingStep(s: State, e: Event, clean: bool)
    ensures GoingOut(Step(s, e), clean) <==> GoingOut(s, clean) || Leaves(s, [e], 0, clean)
  {
    assert [e][..0] == [] && Run(s, []) == s;
  }

  /** The loop goes out as cancelled exactly when it observed a cancellation, and with
      an error exactly when its endpoint ended without one; a failed handshake is
      neither. */
  lemma {:induction false} LeavesExactly(es: seq<Event>, clean: bool)
    ensures GoingOut(Run(Start(), es), clean) <==> exists j: nat :: Leaves(Start(), es, j, clean)
    decreases |es|
  {
    if es == [] {
    } else {
      var n := |es| - 1;
      var t, e := Run(Start(), Init(es)), Last(es);
      LeavesExactly(Init(es), clean);
      LeavingStep(t, e, clean);
      assert es[..n] == Init(es) && [e][..0] == [] && Run(t, []) == t;
      assert Leaves(Start(), es, n, clean) <==> Leaves(t, [e], 0, clean);
      hide Step;
      if j: nat :| Leaves(Start(), es, j, clean) {
        assert j < n ==> Init(es)[..j] == es[..j];
        assert j < n ==> Leaves(Start(), Init(es), j, clean);
      }
      if j: nat :| Leaves(Start(), Init(es), j, clean) {
        assert Init(es)[..j] == es[..j];
        assert Leaves(Start(), es, j, clean);
      }
    }
  }

  // ------------------------------------------------------------------ shutdown

  /** How many steps of its own a call can still take once the loop has returned. */
  function Remaining(s: State, c: Call): nat {
    match c.phase
    case Done(_) => 0
    case Waiting => if c.seen == s.version then 1 else 3
    case Reading => if c.seen == s.version then 2 else 4
    case Opening(_) => if c.seen == s.version then 2 else 4
  }

  /** The step of its own a call can take next, when the loop has returned. */
  function NextStep(c: Call, k: nat): Event {
    match c.phase
    case Reading => Inspect(k)
    case Opening(_) => Open(k, false)
    case _ => Wait(k)
  }

  predicate Finished(c: Call) { c.phase.Done? }

  /** Once the loop has returned, nothing is published any more. */
  lemma {:induction false} ReturnedIsFinal(s: State, e: Event)
    requires Inv(s) && s.broker.Returned?
    ensures
      var t := Step(s, e);
      && t.broker == s.broker && t.version == s.version && t.value == None && !t.sender
      && t.known == s.known
  {
  }

  /** After the loop has returned, an unfinished call always has a step to take,
      every step of its own brings it closer to the end, and the only ends left are
      the two shutdown results. It can be woken at most once more. */
  lemma {:induction false} ShutdownStep(s: State, e: Event, k: nat)
    requires Inv(s) && s.broker.Returned? && k in s.calls && !Finished(s.calls[k])
    ensures
      var t := Step(s, e);
      && k in t.calls
      && (Actor(e) == Some(k) && Enabled(s, e) ==> Remaining(t, t.calls[k]) < Remaining(s, s.calls[k]))
      && (Finished(t.calls[k]) ==> t.calls[k].phase.result == BrokerStopped || t.calls[k].phase.result == CallCancelled)
      && t.calls[k].wakes + (if t.calls[k].seen == t.version then 0 else 1)
         <= s.calls[k].wakes + (if s.calls[k].seen == s.version then 0 else 1)
    ensures Enabled(s, NextStep(s.calls[k], k))
  {
    assert CallInv(s, s.calls[k]);
    ReturnedIsFinal(s, e);
    if Actor(e) != Some(k) {
      OthersKeepCall(s, e, k);
    }
  }

  /** How many steps of its own the call takes in a run. */
  ghost function OwnSteps(s: State, es: seq<Event>, k: nat): nat {
    if es == [] then 0
    else OwnSteps(s, Init(es), k) + (if Actor(Last(es)) == Some(k) && Enabled(Run(s, Init(es)), Last(es)) then 1 else 0)
  }

  /** What is still owed by call `k` in `t`, of a total of `budget` steps and
      `wakes` wake-ups. */
  ghost predicate WindingDown(t: State, k: nat, taken: nat, budget: nat, wakes: nat) {
    && Inv(t) && t.broker.Returned?
    && (k !in t.calls ==> taken == 0)
    && (k in t.calls ==>
          && taken + Remaining(t, t.calls[k]) <= budget
          && t.calls[k].wakes + (if t.calls[k].seen == t.version then 0 else 1) <= wakes
          && (if Finished(t.calls[k]) then
                t.calls[k].phase.result == BrokerStopped || t.calls[k].phase.result == CallCancelled
              else Enabled(t, NextStep(t.calls[k], k))))
  }

  lemma {:induction false} WindingDownStep(t: State, e: Event, k: nat, taken: nat, budget: nat, wakes: nat)
    requires WindingDown(t, k, taken, budget, wakes) && (k !in t.calls ==> budget >= 5 && wakes >= 1)
    ensures WindingDown(Step(t, e), k, taken + (if Actor(e) == Some(k) && Enabled(t, e) then 1 else 0), budget, wakes)
  {
    InvStep(t, e);
    ReturnedIsFinal(t, e);
    var u := Step(t, e);
    hide Step, Inv, Enabled;
    if k !in t.calls {
      FirstStep(t, e, k);
    } else if !Finished(t.calls[k]) {
      ShutdownStep(t, e, k);
    } else {
      FinishedStays(t, e, k);
    }
    if k in u.calls && !Finished(u.calls[k]) {
      ShutdownStep(u, Idle, k);
    }
  }

  lemma {:induction false} FinishedStays(s: State, e: Event, k: nat)
    requires k in s.calls && Finished(s.calls[k])
    ensures k in Step(s, e).calls && Step(s, e).calls[k] == s.calls[k] && (Actor(e) == Some(k) ==> !Enabled(s, e))
  {
  }

  /** The only thing that can happen to a call that does not exist is to begin. */
  lemma {:induction false} FirstStep(s: State, e: Event, k: nat)
    requires k !in s.calls
    ensures
      var t := Step(s, e);
      if Actor(e) == Some(k) && Enabled(s, e)
      then k in t.calls && t.calls[k].phase == Reading && t.calls[k].wakes == 0
      else k !in t.calls
  {
  }

  lemma {:induction false} WindingDownRun(s: State, es: seq<Event>, k: nat, budget: nat, wakes: nat)
    requires WindingDown(s, k, 0, budget, wakes) && (k !in s.calls ==> budget >= 5 && wakes >= 1)
    ensures WindingDown(Run(s, es), k, OwnSteps(s, es, k), budget, wakes)
    decreases |es|
  {
    if es == [] {
    } else {
      WindingDownRun(s, Init(es), k, budget, wakes);
      if k in s.calls {
        CallsStay(s, Init(es), k);
      }
      WindingDownStep(Run(s, Init(es)), Last(es), k, OwnSteps(s, Init(es), k), budget, wakes);
    }
  }

  /** A call begun after the loop has returned never hangs. Whatever else happens,
      it can always take a step until it is done, it is done after at most five of
      them, it is woken at most once (so the second wait ends it), and its result is
      `BrokerStopped` or a cancellation. */
  lemma {:induction false} OpenAfterShutdown(es: seq<Event>, fs: seq<Event>, k: nat)
    requires Run(Start(), es).broker.Returned? && k !in Run(Start(), es).calls
    ensures
      var s := Run(Start(), es);
      var t := Run(s, fs);
      && t.broker == s.broker
      && OwnSteps(s, fs, k) <= 5
      && (k in t.calls ==>
            && t.calls[k].wakes <= 1
            && (!Finished(t.calls[k]) ==> Enabled(t, NextStep(t.calls[k], k)) && OwnSteps(s, fs, k) < 5)
            && (Finished(t.calls[k]) ==>
                  t.calls[k].phase.result == BrokerStopped || t.calls[k].phase.result == CallCancelled))
  {
    InvRun(Start(), es);
    var s := Run(Start(), es);
    WindingDownRun(s, fs, k, 5, 1);
    ReturnedRun(s, fs);
  }

  /** The calls still open when the loop returns end the same way, within four
      more steps and one more wake-up. */
  lemma {:induction false} OpenAcrossShutdown(es: seq<Event>, fs: seq<Event>, k: nat)
    requires Run(Start(), es).broker.Returned? && k in Run(Start(), es).calls
    requires !Finished(Run(Start(), es).calls[k])
    ensures
      var s := Run(Start(), es);
      var t := Run(s, fs);
      && k in t.calls && OwnSteps(s, fs, k) <= 4
      && t.calls[k].wakes <= s.calls[k].wakes + 1
      && (!Finished(t.calls[k]) ==> Enabled(t, NextStep(t.calls[k], k)))
      && (Finished(t.calls[k]) ==>
            t.calls[k].phase.result == BrokerStopped || t.calls[k].phase.result == CallCancelled)
  {
    InvRun(Start(), es);
    var s := Run(Start(), es);
    ShutdownStep(s, HandshakeFailed, k);
    WindingDownRun(s, fs, k, 4, s.calls[k].wakes + 1);
    CallsStay(s, fs, k);
  }

  lemma {:induction false} CallsStay(s: State, es: seq<Event>, k: nat)
    requires k in s.calls
    ensures k in Run(s, es).calls
    decreases |es|
  {
    if es == [] {
    } else {
      CallsStay(s, Init(es), k);
      CallStays(Run(s, Init(es)), Last(es), k);
    }
  }

  lemma {:induction false} CallStays(s: State, e: Event, k: nat)
    requires k in s.calls
    ensures k in Step(s, e).calls
  {
  }

  lemma {:induction false} ReturnedRun(s: State, es: seq<Event>)
    requires Inv(s) && s.broker.Returned?
    ensures Run(s, es).broker == s.broker && Run(s, es).value == None && Run(s, es).version == s.version
    decreases |es|
  {
    if es == [] {
    } else {
      ReturnedRun(s, Init(es));
      InvRun(s, Init(es));
      ReturnedIsFinal(Run(s, Init(es)), Last(es));
    }
  }

  lemma {:induction false} RunAppend(s: State, es: seq<Event>, fs: seq<Event>)
    ensures Run(s, es + fs) == Run(Run(s, es), fs)
    decreases |fs|
  {
    hide Step;
    if fs == [] {
      assert es + fs == es;
    } else {
      assert Init(es + fs) == es + Init(fs) && Last(es + fs) == Last(fs);
      RunAppend(s, es, Init(fs));
    }
  }

  lemma {:induction false} RunNone(s: State)
    ensures Run(s, []) == s
  {
  }

  lemma {:induction false} RunOne(s: State, e: Event)
    ensures Run(s, [e]) == Step(s, e)
  {
    assert Init([e]) == [];
  }

  lemma {:induction false} RunNext(s: State, es: seq<Event>, e: Event)
    ensures Run(s, es + [e]) == Step(Run(s, es), e)
  {
    assert Init(es + [e]) == es;
  }
}
