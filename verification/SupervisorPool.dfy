/** The pool of supervised slots and the forwarding of their events to one log.

    Each slot has a queue that its supervisor and its session callbacks fill, and a
    forwarder that empties it. A slot's supervisor can return only after it has
    queued a complete log of its own; callbacks may go on after that, until the
    forwarder has found the queue empty and dropped it. */
module SupervisorPool {
  import opened Prelude
  import opened Subsequences
  import S = Supervisor

  datatype PoolEvent = PoolEvent(slot: nat, event: S.Event)

  /** A slot's supervisor runs, has returned, its queue was then found empty, its
      queue is gone. */
  datatype Phase =
    | Running
    | Returned(summary: S.Summary)
    | Drained(summary: S.Summary)
    | Finished(summary: S.Summary)

  /** `emitted` is the history of what entered the queue. The queue of a finished slot
      is what was lost with it. */
  datatype Slot = Slot(emitted: seq<S.Event>, queue: seq<S.Event>, phase: Phase)

  datatype State = State(slots: seq<Slot>, forwarded: seq<PoolEvent>)

  datatype Step =
    | Emit(slot: nat, event: S.Event)
    | Return(slot: nat, summary: S.Summary)
    | Serve(slot: nat)

  function Fresh(slots: nat): State {
    State(seq(Max(1, slots), _ => Slot([], [], Running)), [])
  }

  /** Own events come from a running supervisor; peer events from callbacks, for as
      long as the queue exists. */
  predicate Enabled(s: State, e: Step) {
    e.slot < |s.slots| &&
    match e
    case Emit(i, event) => if event.Peer? then !s.slots[i].phase.Finished? else s.slots[i].phase.Running?
    case Return(i, summary) => s.slots[i].phase.Running? && S.CompleteLog(S.Own(s.slots[i].emitted), summary)
    case Serve(i) => !s.slots[i].phase.Finished?
  }

  /** One turn of a slot's forwarder: an event if there is one; once the supervisor
      has returned, the last look, which finds nothing; after that, the queue's drop. */
  function DoServe(s: State, i: nat): State
    requires i < |s.slots|
  {
    var slot := s.slots[i];
    if slot.phase.Drained? then s.(slots := s.slots[i := slot.(phase := Finished(slot.phase.summary))])
    else if slot.queue != [] then
      s.(slots := s.slots[i := slot.(queue := slot.queue[1..])],
         forwarded := s.forwarded + [PoolEvent(i, slot.queue[0])])
    else if slot.phase.Returned? then s.(slots := s.slots[i := slot.(phase := Drained(slot.phase.summary))])
    else s
  }

  function Apply(s: State, e: Step): State {
    if !Enabled(s, e) then s else
    match e
    case Emit(i, event) =>
      var slot := s.slots[i];
      s.(slots := s.slots[i := slot.(emitted := slot.emitted + [event], queue := slot.queue + [event])])
    case Return(i, summary) => s.(slots := s.slots[i := s.slots[i].(phase := Returned(summary))])
    case Serve(i) => DoServe(s, i)
  }

  function Run(s: State, es: seq<Step>): State {
    if es == [] then s else Apply(Run(s, Init(es)), Last(es))
  }

  /** The forwarded events of one slot, in forwarding order. */
  ghost function ForSlot(forwarded: seq<PoolEvent>, i: nat): seq<S.Event> {
    if forwarded == [] then []
    else ForSlot(Init(forwarded), i) + if Last(forwarded).slot == i then [Last(forwarded).event] else []
  }

  predicate Looked(phase: Phase) { phase.Drained? || phase.Finished? }

  ghost predicate AllPeers(events: seq<S.Event>) { forall k :: 0 <= k < |events| ==> events[k].Peer? }

  ghost predicate SlotInv(s: State, i: nat)
    requires i < |s.slots|
  {
    var slot := s.slots[i];
    && ForSlot(s.forwarded, i) + slot.queue == slot.emitted
    && (!slot.phase.Running? ==> S.CompleteLog(S.Own(slot.emitted), slot.phase.summary))
    && (Looked(slot.phase) ==> AllPeers(slot.queue))
  }

  ghost predicate Inv(s: State) {
    && (forall i :: 0 <= i < |s.slots| ==> SlotInv(s, i))
    && (forall k :: 0 <= k < |s.forwarded| ==> s.forwarded[k].slot < |s.slots|)
  }

  lemma {:induction false} ForSlotSnoc(forwarded: seq<PoolEvent>, e: PoolEvent, i: nat)
    ensures ForSlot(forwarded + [e], i)
         == if e.slot == i then ForSlot(forwarded, i) + [e.event] else ForSlot(forwarded, i)
  {
    assert Init(forwarded + [e]) == forwarded;
  }

  lemma {:induction false} ServeKeeps(s: State, j: nat, i: nat)
    requires i < |s.slots| && j < |s.slots| && SlotInv(s, i)
    ensures SlotInv(DoServe(s, j), i)
  {
    hide S.CompleteLog, S.Own, ForSlot;
    var slot := s.slots[j];
    if !slot.phase.Drained? && slot.queue != [] {
      ForSlotSnoc(s.forwarded, PoolEvent(j, slot.queue[0]), i);
      assert slot.queue == [slot.queue[0]] + slot.queue[1..];
    }
  }

  lemma {:induction false} SlotStep(s: State, e: Step, i: nat)
    requires Enabled(s, e) && i < |s.slots| && SlotInv(s, i)
    ensures i < |Apply(s, e).slots| && SlotInv(Apply(s, e), i)
  {
    hide S.CompleteLog, S.Own, ForSlot;
    match e
    case Serve(j) => ServeKeeps(s, j, i);
    case Return(_, _) =>
    case Emit(j, event) =>
      if j == i {
        var slot := s.slots[i];
        S.OwnSnoc(slot.emitted, event);
        assert ForSlot(s.forwarded, i) + (slot.queue + [event]) == slot.emitted + [event];
      }
  }

  lemma {:induction false} InvStep(s: State, e: Step)
    requires Inv(s)
    ensures Inv(Apply(s, e))
  {
    if Enabled(s, e) {
      forall i | 0 <= i < |Apply(s, e).slots| ensures SlotInv(Apply(s, e), i) {
        SlotStep(s, e, i);
      }
    }
  }

  lemma {:induction false} InvRun(s: State, es: seq<Step>)
    requires Inv(s)
    ensures Inv(Run(s, es)) && |Run(s, es).slots| == |s.slots|
    decreases |es|
  {
    if es == [] {
    } else {
      InvRun(s, Init(es));
      InvStep(Run(s, Init(es)), Last(es));
    }
  }

  lemma {:induction false} PeersAreNotOwn(log: seq<S.Event>, peers: seq<S.Event>)
    requires AllPeers(peers)
    ensures S.Own(log + peers) == S.Own(log)
    decreases |peers|
  {
    if peers == [] {
      assert log + peers == log;
    } else {
      PeersAreNotOwn(log, Init(peers));
      assert log + peers == (log + Init(peers)) + [Last(peers)];
      S.OwnSnoc(log + Init(peers), Last(peers));
    }
  }

  /** Forwarding loses nothing, under any interleaving of slots: at every moment a
      slot's forwarded events followed by its queue are its queued events in order.
      A slot that has taken its last look has forwarded all own events, the closing
      `Stopped` with its summary included; what is left behind are events that peer
      callbacks queued after that look. */
  lemma {:induction false} ForwardingLosesNothing(slots: nat, es: seq<Step>, i: nat)
    requires i < Max(1, slots)
    ensures
      var s := Run(Fresh(slots), es);
      && |s.slots| == Max(1, slots)
      && ForSlot(s.forwarded, i) + s.slots[i].queue == s.slots[i].emitted
      && (Looked(s.slots[i].phase) ==>
            && AllPeers(s.slots[i].queue)
            && S.Own(ForSlot(s.forwarded, i)) == S.Own(s.slots[i].emitted)
            && S.CompleteLog(S.Own(ForSlot(s.forwarded, i)), s.slots[i].phase.summary))
  {
    InvRun(Fresh(slots), es);
    var s := Run(Fresh(slots), es);
    assert SlotInv(s, i);
    if Looked(s.slots[i].phase) {
      PeersAreNotOwn(ForSlot(s.forwarded, i), s.slots[i].queue);
    }
  }

  /** The last look leaves nothing behind: whatever entered the queue before it, from
      supervisor or callbacks, has been forwarded, and nothing is forwarded later. */
  lemma {:induction false} LastLookForwardsAll(slots: nat, es: seq<Step>, fs: seq<Step>, i: nat)
    requires i < Max(1, slots)
    requires
      var s := Run(Fresh(slots), es);
      |s.slots| == Max(1, slots) && s.slots[i].phase.Returned? && s.slots[i].queue == []
    ensures
      var t := Apply(Run(Fresh(slots), es), Serve(i));
      && |t.slots| == Max(1, slots) && t.slots[i].phase.Drained?
      && ForSlot(t.forwarded, i) == t.slots[i].emitted
      && ForSlot(Run(t, fs).forwarded, i) == ForSlot(t.forwarded, i)
  {
    InvRun(Fresh(slots), es);
    var s := Run(Fresh(slots), es);
    assert SlotInv(s, i) && ForSlot(s.forwarded, i) + [] == ForSlot(s.forwarded, i);
    NothingAfterLook(Apply(s, Serve(i)), fs, i);
  }

  lemma {:induction false} NothingAfterLook(s: State, es: seq<Step>, i: nat)
    requires i < |s.slots| && Looked(s.slots[i].phase)
    ensures i < |Run(s, es).slots| && Looked(Run(s, es).slots[i].phase)
    ensures ForSlot(Run(s, es).forwarded, i) == ForSlot(s.forwarded, i)
    decreases |es|
  {
    if es == [] {
    } else {
      NothingAfterLook(s, Init(es), i);
      NothingInStep(Run(s, Init(es)), Last(es), i);
    }
  }

  lemma {:induction false} NothingInStep(s: State, e: Step, i: nat)
    requires i < |s.slots| && Looked(s.slots[i].phase)
    ensures i < |Apply(s, e).slots| && Looked(Apply(s, e).slots[i].phase)
    ensures ForSlot(Apply(s, e).forwarded, i) == ForSlot(s.forwarded, i)
  {
    if e.Serve? && Enabled(s, e) && s.slots[e.slot].queue != [] {
      ForSlotSnoc(s.forwarded, PoolEvent(e.slot, s.slots[e.slot].queue[0]), i);
    }
  }

  // ------------------------------------------------------------ what is forwarded when

  /** An event is queued exactly while the slot can take it: an own one while the
      supervisor runs, a peer event until the queue is dropped. */
  lemma {:induction false} EmitQueues(s: State, i: nat, event: S.Event)
    requires i < |s.slots|
    ensures
      var t := Apply(s, Emit(i, event));
      var taken := if event.Peer? then !s.slots[i].phase.Finished? else s.slots[i].phase.Running?;
      var more := if taken then [event] else [];
      && t.forwarded == s.forwarded && |t.slots| == |s.slots|
      && t.slots[i].queue == s.slots[i].queue + more && t.slots[i].emitted == s.slots[i].emitted + more
      && t.slots[i].phase == s.slots[i].phase
      && (forall j :: 0 <= j < |s.slots| && j != i ==> t.slots[j] == s.slots[j])
  {
  }

  /** A forwarder's turn on a slot that has not taken its last look and has something
      queued moves exactly the oldest event to the log, whether the supervisor still runs
      or has returned. */
  lemma {:induction false} ServeForwards(s: State, i: nat)
    requires i < |s.slots| && !Looked(s.slots[i].phase) && s.slots[i].queue != []
    ensures
      var t := Apply(s, Serve(i));
      && t.forwarded == s.forwarded + [PoolEvent(i, s.slots[i].queue[0])]
      && |t.slots| == |s.slots| && t.slots[i] == s.slots[i].(queue := s.slots[i].queue[1..])
      && (forall j :: 0 <= j < |s.slots| && j != i ==> t.slots[j] == s.slots[j])
  {
  }

  /** The event that a step forwards for slot `i`: the head of its queue, in a turn of
      its forwarder before the last look. */
  ghost function Forwards(s: State, e: Step, i: nat): seq<S.Event> {
    if && e == Serve(i) && i < |s.slots| && s.slots[i].queue != []
       && !s.slots[i].phase.Drained? && !s.slots[i].phase.Finished?
    then [s.slots[i].queue[0]] else []
  }

  ghost function AllForwards(s: State, es: seq<Step>, i: nat): seq<S.Event> {
    if es == [] then [] else AllForwards(s, Init(es), i) + Forwards(Run(s, Init(es)), Last(es), i)
  }

  lemma {:induction false} ForwardsStep(s: State, e: Step, i: nat)
    ensures ForSlot(Apply(s, e).forwarded, i) == ForSlot(s.forwarded, i) + Forwards(s, e, i)
  {
    hide S.CompleteLog, S.Own, ForSlot;
    assert ForSlot(s.forwarded, i) + [] == ForSlot(s.forwarded, i);
    if e.Serve? && Enabled(s, e) && s.slots[e.slot].queue != [] {
      ForSlotSnoc(s.forwarded, PoolEvent(e.slot, s.slots[e.slot].queue[0]), i);
    }
  }

  /** A slot's part of the log grows by exactly the heads its forwarder's turns took. */
  lemma {:induction false} ForwardedExactly(s: State, es: seq<Step>, i: nat)
    ensures ForSlot(Run(s, es).forwarded, i) == ForSlot(s.forwarded, i) + AllForwards(s, es, i)
    decreases |es|
  {
    hide Apply, ForSlot, Forwards;
    if es == [] {
    } else {
      ForwardedExactly(s, Init(es), i);
      ForwardsStep(Run(s, Init(es)), Last(es), i);
    }
  }

  /** What becomes of one slot's queue in a step that queues nothing for it. */
  lemma {:induction false} QueueStep(s: State, e: Step, i: nat)
    requires i < |s.slots| && !(e.Emit? && e.slot == i)
    ensures i < |Apply(s, e).slots|
    ensures s.slots[i].queue == Forwards(s, e, i) + Apply(s, e).slots[i].queue
    ensures s.slots[i].queue != [] && !Looked(s.slots[i].phase) ==>
      !Looked(Apply(s, e).slots[i].phase) && (e == Serve(i) ==> |Forwards(s, e, i)| == 1)
  {
    hide S.CompleteLog, S.Own;
  }

  /** Forwarding keeps up: of what a slot that has not taken its last look has queued,
      `n` turns of its forwarder forward the first `n` events, or all, if nothing more is
      queued meanwhile; the supervisor need not have returned. */
  lemma {:induction false} ForwardingKeepsUp(s: State, es: seq<Step>, i: nat)
    requires i < |s.slots| && !Looked(s.slots[i].phase)
    requires forall k :: 0 <= k < |es| ==> !(es[k].Emit? && es[k].slot == i)
    ensures
      var queue := s.slots[i].queue;
      var n := Min(CountServes(es, i), |queue|);
      var t := Run(s, es);
      && i < |t.slots| && t.slots[i].queue == queue[n..]
      && AllForwards(s, es, i) == queue[..n] && ForSlot(t.forwarded, i) == ForSlot(s.forwarded, i) + queue[..n]
      && (n < |queue| ==> !Looked(t.slots[i].phase))
    decreases |es|
  {
    ForwardedExactly(s, es, i);
    if es == [] {
    } else {
      ForwardingKeepsUp(s, Init(es), i);
      assert es[|es| - 1] == Last(es);
      QueueStep(Run(s, Init(es)), Last(es), i);
      hide Apply, Forwards, ForSlot, Looked;
      var queue, m := s.slots[i].queue, Min(CountServes(Init(es), i), |s.slots[i].queue|);
      var f := Forwards(Run(s, Init(es)), Last(es), i);
      assert queue[m..] == f + Run(s, es).slots[i].queue;
      NoOtherForwards(Run(s, Init(es)), Last(es), i);
    }
  }

  lemma {:induction false} NoOtherForwards(s: State, e: Step, i: nat)
    ensures |Forwards(s, e, i)| <= 1 && (e != Serve(i) ==> Forwards(s, e, i) == [])
  {
  }

  function CountServes(es: seq<Step>, i: nat): nat {
    if es == [] then 0 else CountServes(Init(es), i) + if Last(es) == Serve(i) then 1 else 0
  }

  // ------------------------------------------------------ what a slot leaves behind

  /** The peer event that step `e` queues for slot `i` after the slot's last look. */
  ghost function LateIn(s: State, e: Step, i: nat): seq<S.Event> {
    if i < |s.slots| && s.slots[i].phase.Drained? && e.Emit? && e.slot == i && e.event.Peer? then [e.event] else []
  }

  ghost function Late(s: State, es: seq<Step>, i: nat): seq<S.Event> {
    if es == [] then [] else Late(s, Init(es), i) + LateIn(Run(s, Init(es)), Last(es), i)
  }

  /** A slot's queue holds the late events once the last look is taken. */
  ghost predicate HoldsLate(s: State, late: seq<S.Event>, i: nat) {
    i < |s.slots| && if Looked(s.slots[i].phase) then s.slots[i].queue == late else late == []
  }

  lemma {:induction false} HoldsLateStep(s: State, e: Step, late: seq<S.Event>, i: nat)
    requires HoldsLate(s, late, i)
    ensures HoldsLate(Apply(s, e), late + LateIn(s, e, i), i)
  {
    hide S.CompleteLog, S.Own;
    assert late + [] == late;
  }

  lemma {:induction false} HoldsLateRun(s: State, es: seq<Step>, i: nat)
    requires i < |s.slots| && !Looked(s.slots[i].phase)
    ensures HoldsLate(Run(s, es), Late(s, es, i), i)
    decreases |es|
  {
    if es == [] {
    } else {
      HoldsLateRun(s, Init(es), i);
      HoldsLateStep(Run(s, Init(es)), Last(es), Late(s, Init(es), i), i);
      hide Apply, LateIn;
    }
  }

  lemma {:induction false} NoneLate(s: State, es: seq<Step>, i: nat)
    ensures Late(s, es, i) == [] <==> forall k :: 0 <= k < |es| ==> LateIn(Run(s, es[..k]), es[k], i) == []
    decreases |es|
  {
    hide LateIn, Apply, Run;
    if es == [] {
    } else {
      var n := |es| - 1;
      NoneLate(s, Init(es), i);
      assert es[..n] == Init(es);
      assert forall k :: 0 <= k < n ==> Init(es)[..k] == es[..k] && Init(es)[k] == es[k];
      if forall k :: 0 <= k < |es| ==> LateIn(Run(s, es[..k]), es[k], i) == [] {
        assert LateIn(Run(s, es[..n]), es[n], i) == [];
        assert forall k :: 0 <= k < n ==> LateIn(Run(s, Init(es)[..k]), Init(es)[k], i) == [];
      }
      if Late(s, es, i) == [] {
        assert Late(s, Init(es), i) == [] && LateIn(Run(s, Init(es)), Last(es), i) == [];
        forall k | 0 <= k < |es| ensures LateIn(Run(s, es[..k]), es[k], i) == [] {
          if k < n {
            assert LateIn(Run(s, Init(es)[..k]), Init(es)[k], i) == [];
          }
        }
      }
    }
  }

  /** A slot that has taken its last look leaves behind exactly the peer events that
      were queued for it after that look, in order. So nothing is lost if and only if no
      callback queued an event between the last look and the drop of the queue. */
  lemma {:induction false} LeftBehindExactly(slots: nat, es: seq<Step>, i: nat)
    requires i < Max(1, slots)
    ensures
      var s := Run(Fresh(slots), es);
      && |s.slots| == Max(1, slots)
      && (Looked(s.slots[i].phase) ==>
            && s.slots[i].queue == Late(Fresh(slots), es, i)
            && (s.slots[i].queue == [] <==>
                  forall k :: 0 <= k < |es| ==> LateIn(Run(Fresh(slots), es[..k]), es[k], i) == []))
  {
    InvRun(Fresh(slots), es);
    HoldsLateRun(Fresh(slots), es, i);
    NoneLate(Fresh(slots), es, i);
    hide Run, Late, LateIn;
  }

  lemma {:induction false} RunSnoc(s: State, es: seq<Step>, e: Step)
    ensures Run(s, es + [e]) == Apply(Run(s, es), e)
  {
    assert Init(es + [e]) == es;
  }

  lemma {:induction false} RunSix(s: State, a: Step, b: Step, c: Step, d: Step, e: Step, f: Step)
    ensures Run(s, [a, b, c, d, e, f]) == Apply(Apply(Apply(Apply(Apply(Apply(s, a), b), c), d), e), f)
  {
    hide Apply;
    RunSnoc(s, [], a);
    RunSnoc(s, [a], b);
    RunSnoc(s, [a, b], c);
    RunSnoc(s, [a, b, c], d);
    RunSnoc(s, [a, b, c, d], e);
    RunSnoc(s, [a, b, c, d, e], f);
    assert [] + [a] == [a] && [a] + [b] == [a, b] && [a, b] + [c] == [a, b, c] && [a, b, c] + [d] == [a, b, c, d];
    assert [a, b, c, d] + [e] == [a, b, c, d, e] && [a, b, c, d, e] + [f] == [a, b, c, d, e, f];
  }

  /** A supervisor that stops at once, and its forwarder up to the last look. */
  lemma {:induction false} StopsAtOnce(none: S.Summary)
    requires none == S.Summary(0, 0, 0)
    ensures
      var stopped := S.Stopped(none);
      var s := Apply(Apply(Fresh(1), Emit(0, stopped)), Return(0, none));
      s == State([Slot([stopped], [stopped], Returned(none))], [])
  {
    var stopped := S.Stopped(none);
    S.OwnSnoc([], stopped);
    S.LogClosed([], none);
    assert [] + [stopped] == [stopped];
    hide S.CompleteLog, S.Own;
    var s := Apply(Fresh(1), Emit(0, stopped));
    assert Fresh(1).slots == [Slot([], [], Running)];
    assert s.slots == [Slot([stopped], [stopped], Running)] && s.forwarded == [];
    var t := Apply(s, Return(0, none));
    assert t.slots == [Slot([stopped], [stopped], Returned(none))] && t.forwarded == [];
  }

  lemma {:induction false} ForwardsThenDrops(none: S.Summary, late: S.Event)
    requires late.Peer?
    ensures
      var stopped := S.Stopped(none);
      var s := State([Slot([stopped], [stopped], Returned(none))], []);
      Apply(Apply(Apply(Apply(s, Serve(0)), Serve(0)), Emit(0, late)), Serve(0))
        == State([Slot([stopped, late], [late], Finished(none))], [PoolEvent(0, stopped)])
  {
    hide S.CompleteLog, S.Own;
    var stopped := S.Stopped(none);
    var s := State([Slot([stopped], [stopped], Returned(none))], []);
    var log := [PoolEvent(0, stopped)];
    var t := Apply(s, Serve(0));
    assert [stopped][1..] == [];
    assert t.slots == [Slot([stopped], [], Returned(none))] && t.forwarded == log;
    var u := Apply(t, Serve(0));
    assert u.slots == [Slot([stopped], [], Drained(none))] && u.forwarded == log;
    var v := Apply(u, Emit(0, late));
    assert [stopped] + [late] == [stopped, late] && [] + [late] == [late];
    assert v.slots == [Slot([stopped, late], [late], Drained(none))] && v.forwarded == log;
    assert Apply(v, Serve(0)).slots == [Slot([stopped, late], [late], Finished(none))];
  }

  /** A run that loses an event: a callback reports after the last look. */
  lemma {:induction false} LateEventLost()
    ensures
      var none := S.Summary(0, 0, 0);
      var late := S.Peer(S.PeerConnected("a"));
      var es := [Emit(0, S.Stopped(none)), Return(0, none), Serve(0), Serve(0), Emit(0, late), Serve(0)];
      var s := Run(Fresh(1), es);
      && |s.slots| == 1 && s.slots[0].phase == Finished(none) && s.slots[0].queue == [late]
      && s.forwarded == [PoolEvent(0, S.Stopped(none))]
  {
    hide Apply, Run;
    var none := S.Summary(0, 0, 0);
    var late := S.Peer(S.PeerConnected("a"));
    StopsAtOnce(none);
    ForwardsThenDrops(none, late);
    RunSix(Fresh(1), Emit(0, S.Stopped(none)), Return(0, none), Serve(0), Serve(0), Emit(0, late), Serve(0));
  }

  // ------------------------------------------------------------ shutdown does not hang

  /** How many turns a slot's forwarder still has to take once the supervisor has
      returned and if nothing more is queued. */
  function TurnsLeft(slot: Slot): nat {
    match slot.phase
    case Returned(_) => |slot.queue| + 2
    case Drained(_) => 1
    case _ => 0
  }

  lemma {:induction false} TurnsLeftStep(s: State, e: Step, i: nat)
    requires i < |s.slots| && !s.slots[i].phase.Running? && !(e.Emit? && e.slot == i)
    ensures i < |Apply(s, e).slots| && !Apply(s, e).slots[i].phase.Running?
    ensures TurnsLeft(Apply(s, e).slots[i]) == Max(0, TurnsLeft(s.slots[i]) - if e == Serve(i) then 1 else 0)
  {
    hide S.CompleteLog, S.Own;
  }

  /** Once the supervisor has returned, a slot finishes whatever senders are still
      around: its forwarder always has a turn, and with nothing more queued it is done
      with exactly the turn after the queue's length plus one. */
  lemma {:induction false} ShutdownIsBounded(s: State, es: seq<Step>, i: nat)
    requires i < |s.slots| && s.slots[i].phase.Returned?
    requires forall k :: 0 <= k < |es| ==> !(es[k].Emit? && es[k].slot == i)
    ensures
      var t := Run(s, es);
      && i < |t.slots|
      && (t.slots[i].phase.Finished? <==> CountServes(es, i) >= |s.slots[i].queue| + 2)
      && (!t.slots[i].phase.Finished? ==> Enabled(t, Serve(i)))
  {
    TurnsLeftRun(s, es, i);
  }

  lemma {:induction false} TurnsLeftRun(s: State, es: seq<Step>, i: nat)
    requires i < |s.slots| && s.slots[i].phase.Returned?
    requires forall k :: 0 <= k < |es| ==> !(es[k].Emit? && es[k].slot == i)
    ensures i < |Run(s, es).slots| && !Run(s, es).slots[i].phase.Running?
    ensures TurnsLeft(Run(s, es).slots[i]) == Max(0, TurnsLeft(s.slots[i]) - CountServes(es, i))
    decreases |es|
  {
    if es == [] {
    } else {
      TurnsLeftRun(s, Init(es), i);
      assert es[|es| - 1] == Last(es);
      TurnsLeftStep(Run(s, Init(es)), Last(es), i);
      hide Apply, TurnsLeft;
    }
  }

  // --------------------------------------------------------------------- totals

  function Field(kind: S.Kind, summary: S.Summary): nat {
    match kind
    case Starts => summary.attempts
    case Endings => summary.completed
    case Failures => summary.failed
  }

  /** The pool's totals: attempts, completed sessions or failed attempts. */
  function Total(kind: S.Kind, workers: seq<S.Summary>): nat {
    if workers == [] then 0 else Total(kind, Init(workers)) + Field(kind, Last(workers))
  }

  ghost predicate AllFinished(s: State) { forall i :: 0 <= i < |s.slots| ==> s.slots[i].phase.Finished? }

  /** What the pool returns: the summaries in slot order. */
  ghost function Workers(s: State): (workers: seq<S.Summary>)
    requires AllFinished(s)
    ensures |workers| == |s.slots|
  {
    seq(|s.slots|, i requires 0 <= i < |s.slots| => s.slots[i].phase.summary)
  }

  ghost function CountForwarded(kind: S.Kind, forwarded: seq<PoolEvent>): nat {
    if forwarded == [] then 0
    else CountForwarded(kind, Init(forwarded)) + if S.Matches(kind, Last(forwarded).event) then 1 else 0
  }

  /** The counts of the first `n` slots taken one by one. */
  ghost function CountBySlot(kind: S.Kind, forwarded: seq<PoolEvent>, n: nat): nat {
    if n == 0 then 0 else CountBySlot(kind, forwarded, n - 1) + S.Count(kind, ForSlot(forwarded, n - 1))
  }

  lemma {:induction false} CountBySlotZero(kind: S.Kind, forwarded: seq<PoolEvent>)
    ensures CountBySlot(kind, forwarded, 0) == 0
  {
  }

  lemma {:induction false} CountBySlotNext(kind: S.Kind, forwarded: seq<PoolEvent>, n: nat)
    ensures CountBySlot(kind, forwarded, n + 1)
         == CountBySlot(kind, forwarded, n) + S.Count(kind, ForSlot(forwarded, n))
  {
  }

  lemma {:induction false} CountBySlotSnoc(kind: S.Kind, forwarded: seq<PoolEvent>, e: PoolEvent, n: nat)
    ensures CountBySlot(kind, forwarded + [e], n)
         == CountBySlot(kind, forwarded, n) + if e.slot < n && S.Matches(kind, e.event) then 1 else 0
  {
    hide *;
    if n == 0 {
      CountBySlotZero(kind, forwarded);
      CountBySlotZero(kind, forwarded + [e]);
    } else {
      CountBySlotNext(kind, forwarded, n - 1);
      CountBySlotNext(kind, forwarded + [e], n - 1);
      CountBySlotSnoc(kind, forwarded, e, n - 1);
      ForSlotSnoc(forwarded, e, n - 1);
      S.CountSnoc(kind, ForSlot(forwarded, n - 1), e.event);
    }
  }

  lemma {:induction false} CountBySlotNone(kind: S.Kind, n: nat)
    ensures CountBySlot(kind, [], n) == 0
  {
    if n == 0 {
    } else {
      CountBySlotNone(kind, n - 1);
    }
  }

  /** Counting the log at once or slot by slot is the same. */
  lemma {:induction false} CountsAgree(kind: S.Kind, forwarded: seq<PoolEvent>, n: nat)
    requires forall k :: 0 <= k < |forwarded| ==> forwarded[k].slot < n
    ensures CountForwarded(kind, forwarded) == CountBySlot(kind, forwarded, n)
    decreases |forwarded|
  {
    if forwarded == [] {
      CountBySlotNone(kind, n);
    } else {
      hide CountBySlot, ForSlot, S.Count;
      CountsAgree(kind, Init(forwarded), n);
      CountBySlotSnoc(kind, Init(forwarded), Last(forwarded), n);
      assert Init(forwarded) + [Last(forwarded)] == forwarded;
    }
  }

  /** Peer events are none of the counted kinds. */
  lemma {:induction false} CountOwn(kind: S.Kind, log: seq<S.Event>)
    ensures S.Count(kind, S.Own(log)) == S.Count(kind, log)
    decreases |log|
  {
    if log == [] {
    } else {
      CountOwn(kind, Init(log));
      S.CountSnoc(kind, S.Own(Init(log)), Last(log));
      S.CountSnoc(kind, Init(log), Last(log));
      S.OwnSnoc(Init(log), Last(log));
      assert Init(log) + [Last(log)] == log;
    }
  }

  lemma {:induction false} TotalBySlot(kind: S.Kind, s: State, n: nat)
    requires Inv(s) && AllFinished(s) && n <= |s.slots|
    ensures Total(kind, Workers(s)[..n]) == CountBySlot(kind, s.forwarded, n)
  {
    hide *;
    if n == 0 {
      TotalNone(kind);
      CountBySlotZero(kind, s.forwarded);
    } else {
      WorkerAt(s, n - 1);
      var summary := s.slots[n - 1].phase.summary;
      assert Workers(s)[..n] == Workers(s)[..n - 1] + [summary];
      TotalBySlot(kind, s, n - 1);
      TotalSnoc(kind, Workers(s)[..n - 1], summary);
      CountBySlotNext(kind, s.forwarded, n - 1);
      SlotTotal(kind, s, n - 1);
    }
  }

  lemma {:induction false} WorkerAt(s: State, i: nat)
    requires AllFinished(s) && i < |s.slots|
    ensures s.slots[i].phase.Finished? && Workers(s)[i] == s.slots[i].phase.summary
  {
  }

  lemma {:induction false} TotalNone(kind: S.Kind)
    ensures Total(kind, []) == 0
  {
  }

  lemma {:induction false} TotalSnoc(kind: S.Kind, workers: seq<S.Summary>, summary: S.Summary)
    ensures Total(kind, workers + [summary]) == Total(kind, workers) + Field(kind, summary)
  {
    assert Init(workers + [summary]) == workers;
  }

  lemma {:induction false} SlotTotal(kind: S.Kind, s: State, i: nat)
    requires Inv(s) && i < |s.slots| && s.slots[i].phase.Finished?
    ensures S.Count(kind, ForSlot(s.forwarded, i)) == Field(kind, s.slots[i].phase.summary)
  {
    assert SlotInv(s, i);
    PeersAreNotOwn(ForSlot(s.forwarded, i), s.slots[i].queue);
    CountOwn(kind, ForSlot(s.forwarded, i));
  }

  /** When every slot has finished, the pool returns one summary for each of its
      `max(1, slots)` slots, and its totals are the counts of started, ended and
      failed attempts in the forwarded log. */
  lemma {:induction false} PoolTotals(slots: nat, es: seq<Step>, kind: S.Kind)
    requires AllFinished(Run(Fresh(slots), es))
    ensures
      var s := Run(Fresh(slots), es);
      && |Workers(s)| == Max(1, slots)
      && Total(kind, Workers(s)) == CountForwarded(kind, s.forwarded)
  {
    InvRun(Fresh(slots), es);
    var s := Run(Fresh(slots), es);
    TotalBySlot(kind, s, |s.slots|);
    CountsAgree(kind, s.forwarded, |s.slots|);
    assert Workers(s)[..|s.slots|] == Workers(s);
  }

  /** A supervisor that ran to its stop leaves its slot able to return. */
  lemma {:induction false} SupervisorCanReturn(s: State, i: nat, c: S.Config, turns: seq<S.Turn>)
    requires i < |s.slots| && s.slots[i].phase.Running?
    requires S.FirstCancel(turns) < |turns| && S.Own(s.slots[i].emitted) == S.OwnLog(c, turns)
    ensures Enabled(s, Return(i, S.SummaryOf(turns)))
  {
    S.StoppedLogIsComplete(c, turns);
  }

  // -------------------------------------------------------- results in slot order

  type SlotResult = (nat, S.Summary)

  ghost predicate SortedBySlot(results: seq<SlotResult>) {
    forall i, j :: 0 <= i < j < |results| ==> results[i].0 <= results[j].0
  }

  /** Each slot below `n` occurs exactly once. */
  ghost predicate OnePerSlot(results: seq<SlotResult>) {
    && (forall i :: 0 <= i < |results| ==> results[i].0 < |results|)
    && (forall i, j :: 0 <= i < j < |results| ==> results[i].0 != results[j].0)
  }

  lemma {:induction false} SortedSlotAt(results: seq<SlotResult>, i: nat)
    requires SortedBySlot(results) && OnePerSlot(results) && i < |results|
    ensures i <= results[i].0
  {
    if i == 0 {
    } else {
      SortedSlotAt(results, i - 1);
    }
  }

  lemma {:induction false} SortedSlotBelow(results: seq<SlotResult>, i: nat)
    requires SortedBySlot(results) && OnePerSlot(results) && i < |results|
    ensures results[i].0 <= i
    decreases |results| - i
  {
    if i + 1 == |results| {
    } else {
      SortedSlotBelow(results, i + 1);
    }
  }

  /** What the workers of a finished pool give, each with its slot. */
  ghost function Results(s: State): (results: seq<SlotResult>)
    requires AllFinished(s)
    ensures |results| == |s.slots|
  {
    seq(|s.slots|, i requires 0 <= i < |s.slots| => (i, s.slots[i].phase.summary))
  }

  lemma {:induction false} TwiceCounts<T>(s: seq<T>, i: nat, j: nat)
    requires i < j < |s| && s[i] == s[j]
    ensures multiset(s)[s[i]] >= 2
  {
    assert s == s[..j] + [s[j]] + s[j + 1..];
    assert s[i] in s[..j];
  }

  lemma {:induction false} OnceCounts<T>(s: seq<T>, i: nat)
    requires i < |s| && forall j :: 0 <= j < |s| && j != i ==> s[j] != s[i]
    ensures multiset(s)[s[i]] == 1
  {
    assert s == s[..i] + [s[i]] + s[i + 1..];
    assert s[i] !in s[..i] && s[i] !in s[i + 1..];
  }

  lemma {:induction false} ReorderedResult(s: State, results: seq<SlotResult>, i: nat)
    requires AllFinished(s) && multiset(results) == multiset(Results(s)) && i < |results|
    ensures results[i].0 < |s.slots| && results[i] == Results(s)[results[i].0]
  {
    assert results[i] in multiset(results);
    assert results[i] in Results(s);
  }

  lemma {:induction false} ReorderedOnePerSlot(s: State, results: seq<SlotResult>)
    requires AllFinished(s) && multiset(results) == multiset(Results(s))
    ensures |results| == |s.slots| && OnePerSlot(results)
  {
    assert |results| == |multiset(results)| == |multiset(Results(s))| == |s.slots|;
    forall i | 0 <= i < |results| ensures results[i].0 < |results| {
      ReorderedResult(s, results, i);
    }
    forall i, j | 0 <= i < j < |results| ensures results[i].0 != results[j].0 {
      ReorderedResult(s, results, i);
      ReorderedResult(s, results, j);
      if results[i].0 == results[j].0 {
        TwiceCounts(results, i, j);
        OnceCounts(Results(s), results[i].0);
        assert false;
      }
    }
  }

  /** In whatever order the workers' results come, sorting them by slot and dropping
      the slots gives one summary per slot, that of slot `i` at position `i`. */
  lemma {:induction false} SortPlacesSlots(s: State, results: seq<SlotResult>)
    requires AllFinished(s) && multiset(results) == multiset(Results(s)) && SortedBySlot(results)
    ensures seq(|results|, i requires 0 <= i < |results| => results[i].1) == Workers(s)
  {
    ReorderedOnePerSlot(s, results);
    forall i | 0 <= i < |results| ensures results[i].1 == Workers(s)[i] {
      SortedSlotAt(results, i);
      SortedSlotBelow(results, i);
      ReorderedResult(s, results, i);
    }
  }

  // ------------------------------------------------------------ the worker's loop

  /** Steps that are not those of slot `i`'s forwarder. */
  ghost predicate Foreign(es: seq<Step>, i: nat) { forall k :: 0 <= k < |es| ==> es[k] != Serve(i) }

  /** Everything that happens while a forwarder takes some turns. */
  ghost function LoopTrace(turns: seq<seq<Step>>, i: nat): seq<Step> {
    if turns == [] then [] else LoopTrace(Init(turns), i) + Last(turns) + [Serve(i)]
  }

  lemma {:induction false} RunAppend(s: State, es: seq<Step>, fs: seq<Step>)
    ensures Run(s, es + fs) == Run(Run(s, es), fs)
    decreases |fs|
  {
    if fs == [] {
      assert es + fs == es;
    } else {
      assert Init(es + fs) == es + Init(fs);
      RunAppend(s, es, Init(fs));
    }
  }

  lemma {:induction false} TraceNext(s: State, turns: seq<seq<Step>>, n: nat, i: nat)
    requires n < |turns|
    ensures Run(s, LoopTrace(turns[..n + 1], i)) == Apply(Run(Run(s, LoopTrace(turns[..n], i)), turns[n]), Serve(i))
  {
    assert Init(turns[..n + 1]) == turns[..n];
    var met := LoopTrace(turns[..n], i) + turns[n];
    RunAppend(s, LoopTrace(turns[..n], i), turns[n]);
    assert Init(met + [Serve(i)]) == met;
  }

  lemma {:induction false} LoopForwards(s: State, turns: seq<seq<Step>>, i: nat)
    requires forall n :: 0 <= n < |turns| ==> Foreign(turns[n], i)
    ensures
      var trace := LoopTrace(turns, i);
      && ForSlot(Run(s, trace).forwarded, i) == ForSlot(s.forwarded, i) + AllForwards(s, trace, i)
      && CountServes(trace, i) == |turns|
  {
    ForwardedExactly(s, LoopTrace(turns, i), i);
    LoopServes(turns, i);
  }

  lemma {:induction false} LoopServes(turns: seq<seq<Step>>, i: nat)
    requires forall n :: 0 <= n < |turns| ==> Foreign(turns[n], i)
    ensures CountServes(LoopTrace(turns, i), i) == |turns|
    decreases |turns|
  {
    if turns == [] {
    } else {
      LoopServes(Init(turns), i);
      assert turns[|turns| - 1] == Last(turns);
      ForeignServes(LoopTrace(Init(turns), i), Last(turns), i);
      var met := LoopTrace(Init(turns), i) + Last(turns);
      assert Init(met + [Serve(i)]) == met;
    }
  }

  lemma {:induction false} ForeignServes(es: seq<Step>, fs: seq<Step>, i: nat)
    requires Foreign(fs, i)
    ensures CountServes(es + fs, i) == CountServes(es, i)
    decreases |fs|
  {
    if fs == [] {
      assert es + fs == es;
    } else {
      assert Init(es + fs) == es + Init(fs) && fs[|fs| - 1] == Last(fs);
      ForeignServes(es, Init(fs), i);
    }
  }

  lemma {:induction false} ForeignNeverFinish(s: State, es: seq<Step>, i: nat)
    requires Foreign(es, i) && i < |s.slots| && !s.slots[i].phase.Finished?
    ensures i < |Run(s, es).slots| && !Run(s, es).slots[i].phase.Finished?
    decreases |es|
  {
    if es == [] {
    } else {
      ForeignNeverFinish(s, Init(es), i);
    }
  }

  class Pool {
    var slots: seq<Slot>
    var forwarded: seq<PoolEvent>

    function View(): State
      reads this
    {
      State(slots, forwarded)
    }

    constructor (slots: nat)
      ensures View() == Fresh(slots) && Inv(View())
    {
      this.slots := seq(Max(1, slots), _ => Slot([], [], Running));
      this.forwarded := [];
    }

    /** Steps of supervisors, callbacks and other slots' forwarders; one that is not
        possible does nothing. */
    method Others(es: seq<Step>)
      requires Inv(View())
      modifies this
      ensures Inv(View()) && View() == Run(old(View()), es)
    {
      InvRun(View(), es);
      var s := Run(View(), es);
      slots, forwarded := s.slots, s.forwarded;
    }

    /** Takes one event off the slot's queue and forwards it. */
    method ForwardOne(i: nat)
      requires i < |slots| && slots[i].queue != [] && !slots[i].phase.Drained?
      modifies this
      ensures View() == DoServe(old(View()), i)
    {
      var slot := slots[i];
      forwarded := forwarded + [PoolEvent(i, slot.queue[0])];
      slots := slots[i := slot.(queue := slot.queue[1..])];
    }

    /** A slot's forwarder: it forwards while the supervisor runs, drains the queue
        once the supervisor has returned, and then drops it and ends. `used` turns
        were taken; the result is missing when they run out first. */
    method ForwardSlot(i: nat, turns: seq<seq<Step>>) returns (r: Option<S.Summary>, used: nat)
      requires Inv(View()) && i < |slots| && !slots[i].phase.Finished?
      requires forall n :: 0 <= n < |turns| ==> Foreign(turns[n], i)
      modifies this
      ensures Inv(View()) && used <= |turns| && View() == Run(old(View()), LoopTrace(turns[..used], i))
      ensures i < |slots| && (r.None? ==> used == |turns| && !slots[i].phase.Finished?)
      // Every turn that finds an event forwards it, from the first turn on.
      ensures ForSlot(forwarded, i)
           == old(ForSlot(forwarded, i)) + AllForwards(old(View()), LoopTrace(turns[..used], i), i)
      ensures CountServes(LoopTrace(turns[..used], i), i) == used
      ensures r.Some? ==>
        && slots[i].phase == Finished(r.value)
        && ForSlot(forwarded, i) + slots[i].queue == slots[i].emitted && AllPeers(slots[i].queue)
        && S.CompleteLog(S.Own(ForSlot(forwarded, i)), r.value)
    {
      ghost var s := View();
      used, r := 0, None;
      while used < |turns|
        invariant used <= |turns| && Inv(View()) && View() == Run(s, LoopTrace(turns[..used], i))
        invariant i < |slots| && !slots[i].phase.Finished?
      {
        TraceNext(s, turns, used, i);
        ForeignNeverFinish(View(), turns[used], i);
        Others(turns[used]);
        InvStep(View(), Serve(i));
        used := used + 1;
        if slots[i].phase.Drained? {
          var summary := slots[i].phase.summary;
          slots := slots[i := slots[i].(phase := Finished(summary))];
          assert SlotInv(View(), i);
          PeersAreNotOwn(ForSlot(forwarded, i), slots[i].queue);
          LoopForwards(s, turns[..used], i);
          return Some(summary), used;
        } else if slots[i].queue != [] {
          ForwardOne(i);
        } else if slots[i].phase.Returned? {
          slots := slots[i := slots[i].(phase := Drained(slots[i].phase.summary))];
        }
      }
      LoopForwards(s, turns[..used], i);
    }
  }
}
