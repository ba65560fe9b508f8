/** The accept loop and the dialling call as tasks on one shared cell. */
module QuicBrokerTasks {
  import opened Prelude
  import opened Subsequences
  import B = QuicBroker

  /** What the endpoint gives the accept loop at one of its await points. */
  datatype Incoming = NothingYet | Accepted(conn: B.Conn) | BadHandshake | EndpointGone

  /** One await point of the accept loop: the steps other tasks take meanwhile,
      what the endpoint then has, and, should the loop stop here, the steps other
      tasks take between closing, announcing and returning. */
  datatype AcceptTurn =
    AcceptTurn(others: seq<B.Event>, incoming: Incoming, closing: seq<B.Event>, leaving: seq<B.Event>)

  /** One await point of a call: the steps other tasks take meanwhile, and the
      answer to a pending stream opening, if there is one. */
  datatype CallTurn = CallTurn(others: seq<B.Event>, answer: Option<bool>)

  predicate LoopEvent(e: B.Event) {
    match e
    case Accept(_) => true
    case HandshakeFailed => true
    case EndpointClosed => true
    case ObserveCancel => true
    case ConnectionGone => true
    case PublishStop => true
    case Return => true
    case Abort => true
    case _ => false
  }

  /** Steps that are not the accept loop's own. */
  predicate ForLoop(es: seq<B.Event>) {
    forall i :: 0 <= i < |es| ==> !LoopEvent(es[i])
  }

  /** Steps that are not the call's own. */
  predicate ForCall(es: seq<B.Event>, k: nat) {
    forall i :: 0 <= i < |es| ==> B.Actor(es[i]) != Some(k)
  }

  /** Steps of the accept loop at one await point: cancellation first, then the
      served connection, then the endpoint. */
  function LoopDuty(s: B.State, turn: AcceptTurn): seq<B.Event> {
    if s.cancelled then [B.ObserveCancel] + turn.closing + [B.PublishStop] + turn.leaving + [B.Return]
    else if s.broker.Serving? then (if s.broker.conn in s.closed then [B.ConnectionGone] else [])
    else
      match turn.incoming
      case EndpointGone => [B.EndpointClosed] + turn.closing + [B.PublishStop] + turn.leaving + [B.Return]
      case Accepted(conn) => if conn in s.known then [] else [B.Accept(conn)]
      case _ => []
  }

  ghost function LoopTrace(s: B.State, turns: seq<AcceptTurn>): seq<B.Event> {
    if turns == [] then []
    else
      var met := LoopTrace(s, Init(turns)) + Last(turns).others;
      met + LoopDuty(B.Run(s, met), Last(turns))
  }

  /** The step of a call at one await point. */
  function CallDuty(s: B.State, k: nat, answer: Option<bool>): B.Event
    requires k in s.calls
  {
    match s.calls[k].phase
    case Reading => B.Inspect(k)
    case Opening(_) =>
      if k in s.cancelledCalls then B.Open(k, false) else if answer.None? then B.Idle else B.Open(k, answer.value)
    case Waiting => B.Wait(k)
    case Done(_) => B.Idle
  }

  ghost function CallTrace(s: B.State, k: nat, turns: seq<CallTurn>): seq<B.Event> {
    if turns == [] then []
    else
      var met := CallTrace(s, k, Init(turns)) + Last(turns).others;
      met + (if k in B.Run(s, met).calls then [CallDuty(B.Run(s, met), k, Last(turns).answer)] else [])
  }

  /** The cell as await point `i` of the accept loop finds it. */
  ghost function Met(s: B.State, turns: seq<AcceptTurn>, i: nat): B.State
    requires i < |turns|
  {
    B.Run(s, LoopTrace(s, turns[..i]) + turns[i].others)
  }

  /** Await point `i` gives the accept loop a reason to return. */
  ghost predicate Stops(s: B.State, turns: seq<AcceptTurn>, i: nat)
    requires i < |turns|
  {
    var t := Met(s, turns, i);
    t.cancelled || (t.broker.Accepting? && turns[i].incoming.EndpointGone?)
  }

  lemma {:induction false} NoTurns(s: B.State, turns: seq<AcceptTurn>)
    ensures LoopTrace(s, turns[..0]) == []
  {
  }

  lemma {:induction false} LoopTraceNext(s: B.State, turns: seq<AcceptTurn>, i: nat)
    requires i < |turns|
    ensures LoopTrace(s, turns[..i + 1]) ==
            var met := LoopTrace(s, turns[..i]) + turns[i].others; met + LoopDuty(B.Run(s, met), turns[i])
  {
    assert Init(turns[..i + 1]) == turns[..i];
  }

  lemma {:induction false} CallTraceNext(s: B.State, k: nat, turns: seq<CallTurn>, i: nat)
    requires i < |turns| && k in B.Run(s, CallTrace(s, k, turns[..i]) + turns[i].others).calls
    ensures CallTrace(s, k, turns[..i + 1]) ==
            var met := CallTrace(s, k, turns[..i]) + turns[i].others;
            met + [CallDuty(B.Run(s, met), k, turns[i].answer)]
  {
    assert Init(turns[..i + 1]) == turns[..i];
  }

  lemma {:induction false} LoopUndisturbed(s: B.State, es: seq<B.Event>)
    requires ForLoop(es)
    ensures B.Run(s, es).broker == s.broker
    decreases |es|
  {
    if es == [] {
    } else {
      LoopUndisturbed(s, Init(es));
    }
  }

  lemma {:induction false} CallUndisturbed(s: B.State, es: seq<B.Event>, k: nat)
    requires ForCall(es, k) && k in s.calls
    ensures k in B.Run(s, es).calls && B.Run(s, es).calls[k] == s.calls[k]
    decreases |es|
  {
    if es == [] {
    } else {
      CallUndisturbed(s, Init(es), k);
      B.OthersKeepCall(B.Run(s, Init(es)), Last(es), k);
    }
  }

  class Cell {
    var version: nat
    var value: Option<B.Conn>
    var sender: bool
    var known: set<B.Conn>
    var closed: set<B.Conn>
    var cancelled: bool
    var template: nat
    var dialers: map<nat, nat>
    var cancelledCalls: set<nat>
    var published: seq<Option<B.Conn>>
    var broker: B.BrokerPhase
    var calls: map<nat, B.Call>

    function View(): B.State
      reads this
    {
      B.State(version, value, sender, published, known, closed, broker, cancelled,
              template, dialers, calls, cancelledCalls)
    }

    constructor ()
      ensures View() == B.Start() && B.Inv(View())
    {
      version, value, sender := 0, None, true;
      known, closed, cancelled := {}, {}, false;
      template, dialers, cancelledCalls := 0, map[], {};
      published, broker, calls := [None], B.Accepting, map[];
    }

    method SendReplace(v: Option<B.Conn>)
      modifies this
      ensures View() == B.Publish(old(View()), v)
      ensures value == v && version == old(version) + 1
    {
      version := version + 1;
      value := v;
      published := published + [v];
    }

    /** Steps of other tasks; one that is not possible does nothing. */
    method Others(es: seq<B.Event>)
      requires B.Inv(View())
      modifies this
      ensures B.Inv(View()) && View() == B.Run(old(View()), es)
    {
      hide B.Inv, B.Run;
      B.InvRun(View(), es);
      var s := B.Run(View(), es);
      version, value, sender, known, closed := s.version, s.value, s.sender, s.known, s.closed;
      cancelled, template, dialers, cancelledCalls := s.cancelled, s.template, s.dialers, s.cancelledCalls;
      published, broker, calls := s.published, s.broker, s.calls;
    }

    // ------------------------------------------------------- the accept loop

    /** Publishes a newly accepted connection. */
    method Accept(conn: B.Conn)
      requires B.Inv(View()) && broker.Accepting? && !cancelled && conn !in known
      modifies this
      ensures B.Inv(View()) && View() == B.Step(old(View()), B.Accept(conn)) && broker == B.Serving(conn)
      ensures value == Some(conn) && version == old(version) + 1
    {
      B.InvStep(View(), B.Accept(conn));
      SendReplace(Some(conn));
      known, broker := known + {conn}, B.Serving(conn);
    }

    /** The served connection is gone: the cell is emptied. */
    method ConnectionGone()
      requires B.Inv(View()) && broker.Serving? && !cancelled && broker.conn in closed
      modifies this
      ensures B.Inv(View()) && View() == B.Step(old(View()), B.ConnectionGone) && broker == B.Accepting
      ensures value == None && version == old(version) + 1
    {
      B.InvStep(View(), B.ConnectionGone);
      SendReplace(None);
      broker := B.Accepting;
    }

    /** Closing the endpoint closes every connection made over it. */
    method CloseServer(clean: bool)
      requires B.Inv(View()) && (broker.Accepting? || (clean && broker.Serving?)) && cancelled == clean
      modifies this
      ensures B.Inv(View()) && View() == B.Step(old(View()), if clean then B.ObserveCancel else B.EndpointClosed)
      ensures broker == B.Closing(clean)
    {
      B.InvStep(View(), if clean then B.ObserveCancel else B.EndpointClosed);
      closed, broker := closed + known, B.Closing(clean);
    }

    method Announce()
      requires B.Inv(View()) && broker.Closing?
      modifies this
      ensures B.Inv(View()) && View() == B.Step(old(View()), B.PublishStop) && broker == B.Announced(old(broker).clean)
    {
      B.InvStep(View(), B.PublishStop);
      SendReplace(None);
      broker := B.Announced(broker.clean);
    }

    /** Leaving the loop drops the sender. */
    method Leave()
      requires B.Inv(View()) && broker.Announced?
      modifies this
      ensures B.Inv(View()) && View() == B.Step(old(View()), B.Return)
      ensures broker == B.Returned(old(broker).clean) && value == None && known <= closed && !sender
    {
      B.InvStep(View(), B.Return);
      sender, broker := false, B.Returned(broker.clean);
    }

    /** The loop is dropped at an await point. */
    method DropTask()
      requires B.Inv(View()) && (broker.Accepting? || broker.Serving?)
      modifies this
      ensures B.Inv(View()) && View() == B.Step(old(View()), B.Abort) && broker == B.Aborted && !sender
    {
      B.InvStep(View(), B.Abort);
      sender, broker := false, B.Aborted;
    }

    /** The way out of the accept loop: close the endpoint, publish the empty value,
        return. Other tasks go on in between. */
    method Shutdown(clean: bool, turn: AcceptTurn) returns (ghost trace: seq<B.Event>)
      requires B.Inv(View()) && ForLoop(turn.closing) && ForLoop(turn.leaving)
      requires (broker.Accepting? || (clean && broker.Serving?)) && cancelled == clean
      modifies this
      ensures B.Inv(View()) && View() == B.Run(old(View()), trace)
      ensures trace == [if clean then B.ObserveCancel else B.EndpointClosed] + turn.closing + [B.PublishStop]
                       + turn.leaving + [B.Return]
      ensures broker == B.Returned(clean) && value == None && known <= closed && !sender
    {
      hide B.Inv, B.Run, B.Step, B.Enabled, ForLoop;
      ghost var s := View();
      ghost var first := if clean then B.ObserveCancel else B.EndpointClosed;
      B.RunOne(s, first);
      CloseServer(clean);
      B.RunAppend(s, [first], turn.closing);
      LoopUndisturbed(View(), turn.closing);
      Others(turn.closing);
      B.RunNext(s, [first] + turn.closing, B.PublishStop);
      Announce();
      B.RunAppend(s, [first] + turn.closing + [B.PublishStop], turn.leaving);
      LoopUndisturbed(View(), turn.leaving);
      Others(turn.leaving);
      B.RunNext(s, [first] + turn.closing + [B.PublishStop] + turn.leaving, B.Return);
      Leave();
      trace := [first] + turn.closing + [B.PublishStop] + turn.leaving + [B.Return];
    }

    /** What the loop does at one await point: cancellation first, then the served
        connection, then the endpoint. */
    method Attend(turn: AcceptTurn, current: Option<B.Conn>) returns (r: Option<bool>, current': Option<B.Conn>)
      requires B.Inv(View()) && ForLoop(turn.closing) && ForLoop(turn.leaving)
      requires broker == if current.Some? then B.Serving(current.value) else B.Accepting
      modifies this
      ensures B.Inv(View()) && View() == B.Run(old(View()), LoopDuty(old(View()), turn))
      ensures r.Some? ==> broker == B.Returned(r.value) && value == None && known <= closed && !sender
      ensures r.None? ==> broker == if current'.Some? then B.Serving(current'.value) else B.Accepting
      ensures r == Some(true) <==> old(cancelled)
      ensures r == Some(false) <==> !old(cancelled) && current.None? && turn.incoming.EndpointGone?
      ensures r.None? && current.Some? ==> current' == if current.value in old(closed) then None else current
      ensures r.None? && current.None? ==>
        current' == if turn.incoming.Accepted? && turn.incoming.conn !in old(known)
                    then Some(turn.incoming.conn) else None
      ensures r.None? ==>
        if current' == current then View() == old(View()) else value == current' && version == old(version) + 1
    {
      B.RunNone(View());
      hide B.Inv, B.Run, B.Step, B.Enabled, ForLoop;
      r, current' := None, current;
      if cancelled {
        ghost var trace := Shutdown(true, turn);
        return Some(true), None;
      }
      match current {
        case Some(conn) =>
          if conn in closed {
            B.RunOne(View(), B.ConnectionGone);
            ConnectionGone();
            current' := None;
          }
        case None =>
          match turn.incoming {
            case EndpointGone =>
              ghost var trace := Shutdown(false, turn);
              r := Some(false);
            case Accepted(conn) =>
              if conn !in known {
                B.RunOne(View(), B.Accept(conn));
                Accept(conn);
                current' := Some(conn);
              }
            case BadHandshake =>
            case NothingYet =>
          }
      }
    }

    /** The accept loop. `used` turns were taken; when they run out, it was
        dropped where it stood, and the sender with it. */
    method Run(turns: seq<AcceptTurn>) returns (r: Option<bool>, used: nat, ghost trace: seq<B.Event>)
      requires B.Inv(View()) && broker.Accepting?
      requires forall i :: 0 <= i < |turns| ==>
        ForLoop(turns[i].others) && ForLoop(turns[i].closing) && ForLoop(turns[i].leaving)
      modifies this
      ensures B.Inv(View()) && View() == B.Run(old(View()), trace)
      ensures used <= |turns|
      ensures trace == LoopTrace(old(View()), turns[..used]) + if r.Some? then [] else [B.Abort]
      ensures r.Some? ==> broker == B.Returned(r.value) && value == None && known <= closed
      ensures r.None? ==> broker == B.Aborted && used == |turns|
      ensures !sender
      // It returns at the first await point that finds a cancellation, or the endpoint
      // gone while it accepts, and only then.
      ensures forall i :: 0 <= i < used - 1 ==> !Stops(old(View()), turns, i)
      ensures r.None? && used > 0 ==> !Stops(old(View()), turns, used - 1)
      ensures r.Some? ==>
        && used > 0 && Stops(old(View()), turns, used - 1)
        && (r.value <==> Met(old(View()), turns, used - 1).cancelled)
    {
      hide *;
      trace, used := [], 0;
      ghost var s := View();
      B.RunNone(s);
      NoTurns(s, turns);
      var current: Option<B.Conn> := None;
      while used < |turns|
        invariant used <= |turns|
        invariant B.Inv(View()) && View() == B.Run(s, trace) && trace == LoopTrace(s, turns[..used])
        invariant broker == if current.Some? then B.Serving(current.value) else B.Accepting
        invariant forall i :: 0 <= i < used ==> !Stops(s, turns, i)
      {
        r, current, trace := LoopTurn(turns, used, current, s, trace);
        used := used + 1;
        if r.Some? {
          return;
        }
      }
      B.RunNext(s, trace, B.Abort);
      DropTask();
      r, trace := None, trace + [B.Abort];
    }

    method LoopTurn(turns: seq<AcceptTurn>, i: nat, current: Option<B.Conn>, ghost s: B.State,
                    ghost trace: seq<B.Event>)
      returns (r: Option<bool>, current': Option<B.Conn>, ghost trace': seq<B.Event>)
      requires i < |turns| && ForLoop(turns[i].others) && ForLoop(turns[i].closing) && ForLoop(turns[i].leaving)
      requires B.Inv(View()) && View() == B.Run(s, trace) && trace == LoopTrace(s, turns[..i])
      requires broker == if current.Some? then B.Serving(current.value) else B.Accepting
      modifies this
      ensures B.Inv(View()) && View() == B.Run(s, trace') && trace' == LoopTrace(s, turns[..i + 1])
      ensures r.Some? ==> broker == B.Returned(r.value) && value == None && known <= closed && !sender
      ensures r.None? ==> broker == if current'.Some? then B.Serving(current'.value) else B.Accepting
      ensures r.Some? <==> Stops(s, turns, i)
      ensures r.Some? ==> (r.value <==> Met(s, turns, i).cancelled)
    {
      hide B.Inv, B.Run, B.Step, B.Enabled, ForLoop, LoopTrace, LoopDuty;
      var turn := turns[i];
      ghost var met := trace + turn.others;
      B.RunAppend(s, trace, turn.others);
      LoopUndisturbed(View(), turn.others);
      LoopTraceNext(s, turns, i);
      Others(turn.others);
      ghost var duty := LoopDuty(View(), turn);
      B.RunAppend(s, met, duty);
      r, current' := Attend(turn, current);
      trace' := met + duty;
    }

    // ------------------------------------------------------------------ one call

    method Begin(k: nat, dialer: nat) returns (seen: nat)
      requires B.Inv(View()) && dialer in dialers && k !in calls
      modifies this
      ensures B.Inv(View()) && View() == B.Step(old(View()), B.StartCall(k, dialer))
      ensures k in calls && calls[k] == B.Call(seen, B.Reading, version, version, 0) && version == old(version)
      ensures seen == old(dialers)[dialer]
    {
      B.InvStep(View(), B.StartCall(k, dialer));
      seen := dialers[dialer];
      calls := calls[k := B.Call(seen, B.Reading, version, version, 0)];
    }

    /** Reads the newest value without marking it seen. */
    method Borrow(k: nat) returns (phase: B.CallPhase)
      requires B.Inv(View()) && B.InPhase(View(), k, B.Reading)
      modifies this
      ensures B.Inv(View()) && View() == B.Step(old(View()), B.Inspect(k))
      ensures k in calls && calls[k] == old(calls)[k].(phase := phase, inspected := version)
      ensures phase == if value.Some? then B.Opening(value.value) else B.Waiting
    {
      B.InvStep(View(), B.Inspect(k));
      var current := value;
      phase := if current.Some? then B.Opening(current.value) else B.Waiting;
      calls := calls[k := calls[k].(inspected := version, phase := phase)];
    }

    /** Waits for a stream on the connection that was read. */
    method OpenStream(k: nat, conn: B.Conn, answer: Option<bool>) returns (phase: B.CallPhase)
      requires B.Inv(View()) && B.InPhase(View(), k, B.Opening(conn))
      modifies this
      ensures B.Inv(View()) && View() == B.Step(old(View()), CallDuty(old(View()), k, answer))
      ensures k in calls && calls[k] == old(calls)[k].(phase := phase)
      ensures k in cancelledCalls ==> phase == B.Done(B.CallCancelled)
      ensures k !in cancelledCalls && answer.None? ==> phase == B.Opening(conn)
      ensures k !in cancelledCalls && answer == Some(true) && conn !in closed ==> phase == B.Done(B.Stream(conn))
      ensures k !in cancelledCalls && answer == Some(false) && conn !in closed ==> phase == B.Done(B.StreamFailed)
      ensures k !in cancelledCalls && answer == Some(false) && conn in closed ==> phase == B.Waiting
    {
      hide B.Inv;
      B.InvStep(View(), CallDuty(View(), k, answer));
      assert calls[k := calls[k]] == calls;
      phase := calls[k].phase;
      if k in cancelledCalls {
        phase := B.Done(B.CallCancelled);
      } else if answer == Some(true) {
        if conn !in closed {
          phase := B.Done(B.Stream(conn));
        }
      } else if answer == Some(false) {
        phase := if conn in closed then B.Waiting else B.Done(B.StreamFailed);
      }
      calls := calls[k := calls[k].(phase := phase)];
    }

    /** Waits for a change: a newer version first, a dropped sender after. */
    method Changed(k: nat, seen: nat) returns (seen': nat, phase: B.CallPhase)
      requires B.Inv(View()) && B.InPhase(View(), k, B.Waiting) && calls[k].seen == seen
      modifies this
      ensures B.Inv(View()) && View() == B.Step(old(View()), B.Wait(k))
      ensures k in calls && calls[k].phase == phase && calls[k].seen == seen' && calls[k].start == old(calls)[k].start
      ensures k in cancelledCalls ==> phase == B.Done(B.CallCancelled)
      ensures k !in cancelledCalls && seen != version ==> phase == B.Reading && seen' == version
      ensures k !in cancelledCalls && seen == version ==>
        phase == (if sender then B.Waiting else B.Done(B.BrokerStopped)) && seen' == seen
    {
      B.InvStep(View(), B.Wait(k));
      seen', phase := seen, B.Waiting;
      if k in cancelledCalls {
        phase := B.Done(B.CallCancelled);
        calls := calls[k := calls[k].(phase := phase)];
      } else if seen != version {
        seen', phase := version, B.Reading;
        calls := calls[k := calls[k].(seen := seen', phase := phase, wakes := calls[k].wakes + 1)];
      } else if !sender {
        phase := B.Done(B.BrokerStopped);
        calls := calls[k := calls[k].(phase := phase)];
      }
    }

    /** One dialling call, from the receiver clone on. The result is missing when
        the turns run out before the call is done. */
    method OpenBi(k: nat, dialer: nat, turns: seq<CallTurn>)
      returns (r: Option<B.CallResult>, used: nat, ghost trace: seq<B.Event>)
      requires B.Inv(View()) && dialer in dialers && k !in calls
      requires forall i :: 0 <= i < |turns| ==> ForCall(turns[i].others, k)
      modifies this
      ensures B.Inv(View()) && View() == B.Run(old(View()), [B.StartCall(k, dialer)] + trace)
      ensures used <= |turns| && (r.None? ==> used == |turns|)
      ensures trace == CallTrace(B.Step(old(View()), B.StartCall(k, dialer)), k, turns[..used])
      ensures k in calls && calls[k].start == old(version) && calls[k].wakes <= 1 + (version - old(version))
      ensures r == if calls[k].phase.Done? then Some(calls[k].phase.result) else None
      ensures forall result ::
        r == Some(result) <==> exists j: nat :: B.Settles(old(View()), [B.StartCall(k, dialer)] + trace, j, k, result)
      ensures old(broker).Returned? ==>
        calls[k].wakes <= 1 && (r.Some? ==> r.value == B.BrokerStopped || r.value == B.CallCancelled)
    {
      hide B.Inv, B.Run, B.Step, B.Enabled, ForCall, B.InPhase;
      var seen := Begin(k, dialer);
      var phase := B.Reading;
      trace, used := [], 0;
      ghost var s := View();
      B.RunNone(s);
      assert CallTrace(s, k, turns[..0]) == [];
      hide CallTrace;
      while used < |turns| && !phase.Done?
        invariant used <= |turns|
        invariant B.Inv(View()) && View() == B.Run(s, trace) && trace == CallTrace(s, k, turns[..used])
        invariant k in calls && calls[k].phase == phase && calls[k].seen == seen && calls[k].start == old(version)
      {
        phase, seen, trace := Turn(k, phase, seen, s, trace, turns, used);
        used := used + 1;
      }
      r := if phase.Done? then Some(phase.result) else None;
      B.RunAppend(old(View()), [B.StartCall(k, dialer)], trace);
      B.RunOne(old(View()), B.StartCall(k, dialer));
      CallFacts(old(View()), [B.StartCall(k, dialer)] + trace, k);
      CallResult(old(View()), [B.StartCall(k, dialer)] + trace, k);
    }

    method Turn(k: nat, phase: B.CallPhase, seen: nat, ghost s: B.State, ghost trace: seq<B.Event>,
                turns: seq<CallTurn>, i: nat)
      returns (phase': B.CallPhase, seen': nat, ghost trace': seq<B.Event>)
      requires i < |turns| && !phase.Done? && ForCall(turns[i].others, k)
      requires B.Inv(View()) && View() == B.Run(s, trace) && trace == CallTrace(s, k, turns[..i])
      requires k in calls && calls[k].phase == phase && calls[k].seen == seen
      modifies this
      ensures B.Inv(View()) && View() == B.Run(s, trace') && trace' == CallTrace(s, k, turns[..i + 1])
      ensures k in calls && calls[k].phase == phase' && calls[k].seen == seen' && calls[k].start == old(calls)[k].start
    {
      hide B.Inv, B.Run, B.Step, B.Enabled, ForCall, CallTrace;
      B.RunAppend(s, trace, turns[i].others);
      CallUndisturbed(View(), turns[i].others, k);
      Others(turns[i].others);
      CallTraceNext(s, k, turns, i);
      ghost var met := trace + turns[i].others;
      ghost var event := CallDuty(View(), k, turns[i].answer);
      B.RunNext(s, met, event);
      trace', seen' := met + [event], seen;
      match phase {
        case Reading => phase' := Borrow(k);
        case Opening(conn) => phase' := OpenStream(k, conn, turns[i].answer);
        case Waiting => seen', phase' := Changed(k, seen);
      }
    }
  }

  /** The result of a call that begins and runs along `trace`. */
  lemma {:induction false} CallResult(s: B.State, trace: seq<B.Event>, k: nat)
    requires k !in s.calls && k in B.Run(s, trace).calls
    ensures
      var phase := B.Run(s, trace).calls[k].phase;
      var r := if phase.Done? then Some(phase.result) else None;
      forall result :: r == Some(result) <==> exists j: nat :: B.Settles(s, trace, j, k, result)
  {
    hide B.Run, B.Settles;
    var phase := B.Run(s, trace).calls[k].phase;
    var r := if phase.Done? then Some(phase.result) else None;
    forall result ensures r == Some(result) <==> exists j: nat :: B.Settles(s, trace, j, k, result) {
      B.ResultExactly(s, trace, k, result);
      assert B.InPhase(B.Run(s, trace), k, B.Done(result)) <==> r == Some(result);
    }
  }

  /** The bounds of a call that begins and runs along `trace`. */
  lemma {:induction false} CallFacts(s: B.State, trace: seq<B.Event>, k: nat)
    requires B.Inv(s) && k !in s.calls && k in B.Run(s, trace).calls
    requires B.Run(s, trace).calls[k].start == s.version
    ensures
      var t := B.Run(s, trace);
      var c := t.calls[k];
      && c.wakes <= 1 + (t.version - s.version)
      && (s.broker.Returned? ==>
            c.wakes <= 1 && (c.phase.Done? ==> c.phase.result == B.BrokerStopped || c.phase.result == B.CallCancelled))
  {
    var t := B.Run(s, trace);
    B.InvRun(s, trace);
    assert B.CallInv(t, t.calls[k]);
    if s.broker.Returned? {
      B.WindingDownRun(s, trace, k, 5, 1);
    }
  }
}
