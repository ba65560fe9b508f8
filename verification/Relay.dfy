/** The relay loop between the data-channel queue and the egress tunnel. */
module Relay {
  import opened Prelude
  import opened Subsequences
  import opened Transports
  import D = DataChannel

  /** One turn of the loop: the steps callbacks take meanwhile, which side is picked
      and, for the egress side, what it has; and how a send goes. */
  datatype Turn = Turn(callbacks: seq<D.Event>, egress: Option<Poll>, send: Delivery)

  datatype RelayEnd = PeerClosed | EgressClosed

  datatype RelayError = PeerFailed | EgressFailed

  type Outcome = Result<RelayEnd, RelayError>

  // --------------------------------------------------------------- over a schedule

  function SendVerdict(send: Delivery, error: RelayError): Verdict<Outcome> {
    match send
    case Delivered => GoesOn
    case SendFailed => Stops(Err(error))
    case Dropped => Abandoned
  }

  /** Whether a turn ends the relay, and how, when a peer receive would give `peer`. */
  function VerdictOf(turn: Turn, peer: D.RecvOutcome): Verdict<Outcome> {
    match turn.egress
    case None => (
      match peer
      case Pending => GoesOn
      case Finished(EndOfStream) => Stops(Ok(PeerClosed))
      case Finished(TextError) => Stops(Err(PeerFailed))
      case Data(_) => SendVerdict(turn.send, EgressFailed))
    case Some(poll) =>
      match poll
      case NothingYet => GoesOn
      case EndOfStream => Stops(Ok(EgressClosed))
      case Failed => Stops(Err(EgressFailed))
      case Packet(_) => SendVerdict(turn.send, PeerFailed)
  }

  function PeerStep(turn: Turn): seq<D.Event> { if turn.egress.None? then [D.Recv] else [] }

  /** What happens to the peer's queue during the first `n` turns. */
  function Trace(turns: seq<Turn>, n: nat): seq<D.Event>
    requires n <= |turns|
  {
    if n == 0 then [] else Trace(turns, n - 1) + turns[n - 1].callbacks + PeerStep(turns[n - 1])
  }

  /** The peer's queue as turn `i` finds it. */
  function Found(s: D.State, turns: seq<Turn>, i: nat): D.State
    requires i < |turns|
  {
    D.Run(s, Trace(turns, i) + turns[i].callbacks)
  }

  function VerdictAt(s: D.State, turns: seq<Turn>, i: nat): Verdict<Outcome>
    requires i < |turns|
  {
    VerdictOf(turns[i], D.Gives(Found(s, turns, i)))
  }

  /** The packet a turn takes from the peer, or from the egress. */
  function FromPeer(turn: Turn, peer: D.RecvOutcome): seq<Bytes> {
    if turn.egress.None? && peer.Data? then [peer.bytes] else []
  }

  function FromEgress(turn: Turn): seq<Bytes> {
    if turn.egress.Some? && turn.egress.value.Packet? then [turn.egress.value.bytes] else []
  }

  function IfDelivered(turn: Turn, packets: seq<Bytes>): seq<Bytes> { if turn.send.Delivered? then packets else [] }

  /** What the first `n` turns took from either side, and what they delivered to the
      other. */
  function TakenFromPeer(s: D.State, turns: seq<Turn>, n: nat): seq<Bytes>
    requires n <= |turns|
  {
    if n == 0 then [] else TakenFromPeer(s, turns, n - 1) + FromPeer(turns[n - 1], D.Gives(Found(s, turns, n - 1)))
  }

  function SentToEgress(s: D.State, turns: seq<Turn>, n: nat): seq<Bytes>
    requires n <= |turns|
  {
    if n == 0 then []
    else
      var packets := FromPeer(turns[n - 1], D.Gives(Found(s, turns, n - 1)));
      SentToEgress(s, turns, n - 1) + IfDelivered(turns[n - 1], packets)
  }

  function TakenFromEgress(turns: seq<Turn>, n: nat): seq<Bytes>
    requires n <= |turns|
  {
    if n == 0 then [] else TakenFromEgress(turns, n - 1) + FromEgress(turns[n - 1])
  }

  function SentToPeer(turns: seq<Turn>, n: nat): seq<Bytes>
    requires n <= |turns|
  {
    if n == 0 then [] else SentToPeer(turns, n - 1) + IfDelivered(turns[n - 1], FromEgress(turns[n - 1]))
  }

  /** The relay takes turns for as long as they go on: `n` of them, the last of which
      may have ended it. When the turns run out, the relay was dropped between two. */
  ghost predicate EndsAfter(s: D.State, turns: seq<Turn>, n: nat, r: Option<Outcome>) {
    && n <= |turns|
    && (forall i :: 0 <= i < n - 1 ==> VerdictAt(s, turns, i) == GoesOn)
    && (n < |turns| ==> n > 0 && VerdictAt(s, turns, n - 1) != GoesOn)
    && r == (if n == 0 then None else ResultOf(VerdictAt(s, turns, n - 1)))
  }

  /** Neither side's packets are lost on the way, except the one whose send ended the
      relay. */
  ghost predicate Lag(s: D.State, turns: seq<Turn>, n: nat)
    requires n <= |turns|
  {
    if n > 0 && VerdictAt(s, turns, n - 1) != GoesOn then
      && TakenFromPeer(s, turns, n)
         == SentToEgress(s, turns, n) + FromPeer(turns[n - 1], D.Gives(Found(s, turns, n - 1)))
      && TakenFromEgress(turns, n) == SentToPeer(turns, n) + FromEgress(turns[n - 1])
    else
      TakenFromPeer(s, turns, n) == SentToEgress(s, turns, n) && TakenFromEgress(turns, n) == SentToPeer(turns, n)
  }

  /** Why a relay whose last turn was `turn`, with the peer's queue as `at`, has the
      result `r`: each result exactly when the turn gives its reason. */
  ghost predicate Explains(turn: Turn, at: D.State, r: Option<Outcome>) {
    var drained := at.queue == [] && !at.live && at.spawned + at.waiting + at.granted == 0;
    && (r == Some(Ok(PeerClosed)) <==>
          turn.egress == None && (drained || (at.queue != [] && at.queue[0] == D.CloseSignal)))
    && (r == Some(Ok(EgressClosed)) <==> turn.egress == Some(EndOfStream))
    && (r == Some(Err(PeerFailed)) <==>
          || (turn.egress == None && at.queue != [] && at.queue[0] == D.Text)
          || (turn.egress.Some? && turn.egress.value.Packet? && turn.send == SendFailed))
    && (r == Some(Err(EgressFailed)) <==>
          || turn.egress == Some(Failed)
          || (turn.egress == None && at.queue != [] && at.queue[0].Packet? && turn.send == SendFailed))
  }

  lemma {:induction false} Explained(turn: Turn, at: D.State)
    ensures Explains(turn, at, ResultOf(VerdictOf(turn, D.Gives(at))))
  {
  }

  /** A turn that goes on gives no reason to end and drops no packet. */
  lemma {:induction false} GoesOnExactly(turn: Turn, at: D.State)
    ensures VerdictOf(turn, D.Gives(at)) == GoesOn <==>
      && (forall outcome :: !Explains(turn, at, Some(outcome)))
      && (turn.send == Dropped ==>
            if turn.egress == None then at.queue == [] || !at.queue[0].Packet? else !turn.egress.value.Packet?)
  {
    Explained(turn, at);
    var r := ResultOf(VerdictOf(turn, D.Gives(at)));
    if r == None {
      forall outcome ensures !Explains(turn, at, Some(outcome)) {
        match outcome
        case Ok(PeerClosed) =>
        case Ok(EgressClosed) =>
        case Err(PeerFailed) =>
        case Err(EgressFailed) =>
      }
    } else {
      assert Explains(turn, at, Some(r.value));
    }
  }

  /** In a turn that goes on, what is taken is delivered; in one that ends the relay,
      nothing is. */
  lemma {:induction false} TurnDelivers(turn: Turn, peer: D.RecvOutcome)
    ensures VerdictOf(turn, peer) == GoesOn ==>
      && IfDelivered(turn, FromPeer(turn, peer)) == FromPeer(turn, peer)
      && IfDelivered(turn, FromEgress(turn)) == FromEgress(turn)
    ensures VerdictOf(turn, peer) != GoesOn ==>
      IfDelivered(turn, FromPeer(turn, peer)) == [] == IfDelivered(turn, FromEgress(turn))
  {
  }

  lemma {:induction false} NothingAtFirst(s: D.State, turns: seq<Turn>)
    ensures TakenFromPeer(s, turns, 0) == [] == SentToEgress(s, turns, 0)
    ensures TakenFromEgress(turns, 0) == [] == SentToPeer(turns, 0)
  {
  }

  lemma {:induction false} HistoriesNext(s: D.State, turns: seq<Turn>, i: nat)
    requires i < |turns|
    ensures
      var peer, egress := FromPeer(turns[i], D.Gives(Found(s, turns, i))), FromEgress(turns[i]);
      && TakenFromPeer(s, turns, i + 1) == TakenFromPeer(s, turns, i) + peer
      && SentToEgress(s, turns, i + 1) == SentToEgress(s, turns, i) + IfDelivered(turns[i], peer)
      && TakenFromEgress(turns, i + 1) == TakenFromEgress(turns, i) + egress
      && SentToPeer(turns, i + 1) == SentToPeer(turns, i) + IfDelivered(turns[i], egress)
  {
    hide Found, D.Gives, FromPeer, FromEgress, IfDelivered;
  }

  lemma {:induction false} NothingLost(s: D.State, turns: seq<Turn>, n: nat)
    requires n <= |turns| && forall i :: 0 <= i < n ==> VerdictAt(s, turns, i) == GoesOn
    ensures TakenFromPeer(s, turns, n) == SentToEgress(s, turns, n) && TakenFromEgress(turns, n) == SentToPeer(turns, n)
  {
    hide *;
    if n == 0 {
      NothingAtFirst(s, turns);
    } else {
      VerdictIs(s, turns, n - 1);
      NothingLost(s, turns, n - 1);
      TurnDelivers(turns[n - 1], D.Gives(Found(s, turns, n - 1)));
      HistoriesNext(s, turns, n - 1);
    }
  }

  lemma {:induction false} VerdictIs(s: D.State, turns: seq<Turn>, i: nat)
    requires i < |turns|
    ensures VerdictAt(s, turns, i) == VerdictOf(turns[i], D.Gives(Found(s, turns, i)))
  {
  }

  lemma {:induction false} LagHolds(s: D.State, turns: seq<Turn>, n: nat)
    requires n <= |turns| && forall i :: 0 <= i < n - 1 ==> VerdictAt(s, turns, i) == GoesOn
    ensures Lag(s, turns, n)
  {
    hide Found, VerdictOf, VerdictAt, FromPeer, FromEgress, IfDelivered, D.Gives;
    hide TakenFromPeer, SentToEgress, TakenFromEgress, SentToPeer;
    if n == 0 || VerdictAt(s, turns, n - 1) == GoesOn {
      NothingLost(s, turns, n);
    } else {
      NothingLost(s, turns, n - 1);
      VerdictIs(s, turns, n - 1);
      TurnDelivers(turns[n - 1], D.Gives(Found(s, turns, n - 1)));
      HistoriesNext(s, turns, n - 1);
    }
  }

  // -------------------------------------------------------------------- the loop

  lemma {:induction false} CallbackReceivesNothing(s: D.State, e: D.Event)
    requires e != D.Recv
    ensures D.Step(s, e).ended == s.ended && D.Step(s, e).received == s.received
  {
  }

  lemma {:induction false} CallbacksReceiveNothing(s: D.State, es: seq<D.Event>)
    requires D.Recv !in es
    ensures D.Run(s, es).ended == s.ended && D.Run(s, es).received == s.received
    decreases |es|
  {
    hide D.Step;
    if es == [] {
    } else {
      CallbacksReceiveNothing(s, Init(es));
      CallbackReceivesNothing(D.Run(s, Init(es)), Last(es));
    }
  }

  method Callbacks(peer: D.WebRtcDatagrams, es: seq<D.Event>)
    requires D.Inv(peer.View()) && D.Recv !in es
    modifies peer
    ensures D.Inv(peer.View()) && peer.View() == D.Run(old(peer.View()), es)
  {
    var i := 0;
    while i < |es|
      invariant i <= |es| && D.Inv(peer.View()) && peer.View() == D.Run(old(peer.View()), es[..i])
    {
      D.RunSnoc(old(peer.View()), es[..i], es[i]);
      assert es[..i] + [es[i]] == es[..i + 1];
      peer.Callback(es[i]);
      i := i + 1;
    }
    assert es[..i] == es;
  }

  /** The peer side's turn: receive, then send to the egress. */
  method FromPeerSide(peer: D.WebRtcDatagrams, toEgress: seq<Bytes>, turn: Turn)
    returns (v: Verdict<Outcome>, toEgress': seq<Bytes>)
    requires D.Inv(peer.View()) && peer.ended.None? && turn.egress.None?
    modifies peer
    ensures D.Inv(peer.View()) && peer.View() == D.Step(old(peer.View()), D.Recv)
    ensures
      var gives := D.Gives(old(peer.View()));
      && v == VerdictOf(turn, gives) && (v == GoesOn || v == Abandoned ==> peer.ended.None?)
      && peer.received == old(peer.received) + FromPeer(turn, gives)
      && toEgress' == toEgress + IfDelivered(turn, FromPeer(turn, gives))
    ensures
      var queue := old(peer.queue);
      var sends := queue != [] && queue[0].Packet? && turn.send == Delivered;
      toEgress' == if sends then toEgress + [queue[0].bytes] else toEgress
  {
    v, toEgress' := GoesOn, toEgress;
    assert toEgress + [] == toEgress;
    var got := peer.RecvPacket();
    match got {
      case Pending =>
      case Finished(EndOfStream) => v := Stops(Ok(PeerClosed));
      case Finished(TextError) => v := Stops(Err(PeerFailed));
      case Data(bytes) =>
        match turn.send {
          case Delivered => toEgress' := toEgress + [bytes];
          case SendFailed => v := Stops(Err(EgressFailed));
          case Dropped => v := Abandoned;
        }
    }
  }

  /** The egress side's turn: receive, then send to the peer. */
  method FromEgressSide(turn: Turn, toPeer: seq<Bytes>) returns (v: Verdict<Outcome>, toPeer': seq<Bytes>)
    requires turn.egress.Some?
    ensures forall peer :: v == VerdictOf(turn, peer)
    ensures toPeer' == toPeer + IfDelivered(turn, FromEgress(turn))
    ensures toPeer'
         == if turn.egress.value.Packet? && turn.send == Delivered then toPeer + [turn.egress.value.bytes] else toPeer
  {
    v, toPeer' := GoesOn, toPeer;
    match turn.egress.value {
      case NothingYet =>
      case EndOfStream => v := Stops(Ok(EgressClosed));
      case Failed => v := Stops(Err(EgressFailed));
      case Packet(bytes) =>
        match turn.send {
          case Delivered => toPeer' := toPeer + [bytes];
          case SendFailed => v := Stops(Err(PeerFailed));
          case Dropped => v := Abandoned;
        }
    }
  }

  /** Where the loop stands after `used` turns, the last of which gave `v`. */
  ghost predicate Standing(peer: D.WebRtcDatagrams, s: D.State, turns: seq<Turn>, used: nat, v: Verdict<Outcome>,
                           toEgress: seq<Bytes>, toPeer: seq<Bytes>)
    reads peer
  {
    && used <= |turns| && peer.View() == D.Run(s, Trace(turns, used))
    && (forall i :: 0 <= i < used - 1 ==> VerdictAt(s, turns, i) == GoesOn)
    && v == (if used == 0 then GoesOn else VerdictAt(s, turns, used - 1))
    && (v == GoesOn || v == Abandoned ==> peer.ended.None?)
    && peer.received == TakenFromPeer(s, turns, used)
    && toEgress == SentToEgress(s, turns, used) && toPeer == SentToPeer(turns, used)
  }

  method TakeTurn(peer: D.WebRtcDatagrams, ghost s: D.State, turns: seq<Turn>, i: nat, toEgress: seq<Bytes>,
                  toPeer: seq<Bytes>)
    returns (v: Verdict<Outcome>, toEgress': seq<Bytes>, toPeer': seq<Bytes>)
    requires i < |turns| && D.Recv !in turns[i].callbacks && D.Inv(peer.View())
    requires Standing(peer, s, turns, i, GoesOn, toEgress, toPeer)
    modifies peer
    ensures D.Inv(peer.View()) && Standing(peer, s, turns, i + 1, v, toEgress', toPeer')
  {
    hide D.Inv, D.Step, D.Run, D.Gives, VerdictOf, VerdictAt, Found, FromPeer, FromEgress, IfDelivered;
    hide Trace, TakenFromPeer, SentToEgress, SentToPeer;
    var turn := turns[i];
    HistoriesNext(s, turns, i);
    VerdictIs(s, turns, i);
    TraceNext(s, turns, i);
    ghost var met := Trace(turns, i) + turn.callbacks;
    D.RunAppend(s, Trace(turns, i), turn.callbacks);
    D.RunSnoc(s, met, D.Recv);
    CallbacksReceiveNothing(peer.View(), turn.callbacks);
    Callbacks(peer, turn.callbacks);
    OtherSideIdle(turn, D.Gives(peer.View()));
    toEgress', toPeer' := toEgress, toPeer;
    assert toEgress + [] == toEgress && toPeer + [] == toPeer && met + [] == met && peer.received + [] == peer.received;
    if turn.egress.None? {
      v, toEgress' := FromPeerSide(peer, toEgress, turn);
    } else {
      v, toPeer' := FromEgressSide(turn, toPeer);
    }
  }

  lemma {:induction false} TraceNext(s: D.State, turns: seq<Turn>, i: nat)
    requires i < |turns|
    ensures Found(s, turns, i) == D.Run(s, Trace(turns, i) + turns[i].callbacks)
    ensures Trace(turns, i + 1) == Trace(turns, i) + turns[i].callbacks + if turns[i].egress.None? then [D.Recv] else []
  {
  }

  lemma {:induction false} OtherSideIdle(turn: Turn, peer: D.RecvOutcome)
    ensures turn.egress.Some? ==> FromPeer(turn, peer) == [] == IfDelivered(turn, FromPeer(turn, peer))
    ensures turn.egress.None? ==> FromEgress(turn) == [] == IfDelivered(turn, FromEgress(turn))
  {
  }

  /** Relays until one side ends. `used` turns were taken; no result means that the
      relay was dropped, between two turns or during a send. */
  method RunRelay(peer: D.WebRtcDatagrams, turns: seq<Turn>)
    returns (r: Option<Outcome>, used: nat, toEgress: seq<Bytes>, toPeer: seq<Bytes>)
    requires D.Inv(peer.View()) && peer.ended.None? && peer.received == []
    requires forall i :: 0 <= i < |turns| ==> D.Recv !in turns[i].callbacks
    modifies peer
    ensures D.Inv(peer.View()) && used <= |turns| && peer.View() == D.Run(old(peer.View()), Trace(turns, used))
    // The relay ends with the first turn that gives a reason, and only then.
    ensures EndsAfter(old(peer.View()), turns, used, r) && (r.None? ==> peer.ended.None?)
    ensures used > 0 ==> Explains(turns[used - 1], Found(old(peer.View()), turns, used - 1), r)
    ensures forall i :: 0 <= i < used - 1 ==> Explains(turns[i], Found(old(peer.View()), turns, i), None)
    // Only successful sends count, and neither direction reorders or duplicates, nor
    // loses anything but the packet whose send ended the relay.
    ensures toEgress == SentToEgress(old(peer.View()), turns, used) && toPeer == SentToPeer(turns, used)
    ensures peer.received == TakenFromPeer(old(peer.View()), turns, used) && Lag(old(peer.View()), turns, used)
    ensures IsSubseq(toEgress, peer.messages)
  {
    hide *;
    ghost var s := peer.View();
    var v := GoesOn;
    used, toEgress, toPeer := 0, [], [];
    StandsAtFirst(peer, turns);
    while used < |turns| && v == GoesOn
      invariant used <= |turns| && D.Inv(peer.View())
      invariant Standing(peer, s, turns, used, v, toEgress, toPeer)
    {
      v, toEgress, toPeer := TakeTurn(peer, s, turns, used, toEgress, toPeer);
      used := used + 1;
    }
    r := ResultOf(v);
    StandsThenEnds(peer, s, turns, used, v, toEgress, toPeer);
    SentIsSubsequence(peer, s, turns, used);
  }

  lemma {:induction false} ExplainedAt(s: D.State, turns: seq<Turn>, i: nat)
    requires i < |turns|
    ensures Explains(turns[i], Found(s, turns, i), ResultOf(VerdictAt(s, turns, i)))
  {
    hide *;
    VerdictIs(s, turns, i);
    Explained(turns[i], Found(s, turns, i));
  }

  lemma {:induction false} StandsAtFirst(peer: D.WebRtcDatagrams, turns: seq<Turn>)
    requires peer.ended.None? && peer.received == []
    ensures Standing(peer, peer.View(), turns, 0, GoesOn, [], [])
  {
  }

  lemma {:induction false} StandsThenEnds(peer: D.WebRtcDatagrams, s: D.State, turns: seq<Turn>, used: nat,
                                          v: Verdict<Outcome>,
                                          toEgress: seq<Bytes>, toPeer: seq<Bytes>)
    requires Standing(peer, s, turns, used, v, toEgress, toPeer) && (v == GoesOn ==> used == |turns|)
    ensures used <= |turns| && EndsAfter(s, turns, used, ResultOf(v)) && (ResultOf(v).None? ==> peer.ended.None?)
    ensures peer.View() == D.Run(s, Trace(turns, used)) && Lag(s, turns, used)
    ensures peer.received == TakenFromPeer(s, turns, used)
    ensures toEgress == SentToEgress(s, turns, used) && toPeer == SentToPeer(turns, used)
    ensures used > 0 ==> Explains(turns[used - 1], Found(s, turns, used - 1), ResultOf(v))
    ensures forall i :: 0 <= i < used - 1 ==> Explains(turns[i], Found(s, turns, i), None)
  {
    hide Explains, Found, VerdictAt, VerdictOf, Lag, TakenFromPeer, SentToEgress, SentToPeer, Trace;
    hide D.Run, D.Step, D.Gives;
    forall i | 0 <= i < used ensures Explains(turns[i], Found(s, turns, i), ResultOf(VerdictAt(s, turns, i))) {
      ExplainedAt(s, turns, i);
    }
    LagHolds(s, turns, used);
  }

  lemma {:induction false} SentIsSubsequence(peer: D.WebRtcDatagrams, s: D.State, turns: seq<Turn>, n: nat)
    requires n <= |turns| && D.Inv(peer.View()) && peer.received == TakenFromPeer(s, turns, n) && Lag(s, turns, n)
    ensures IsSubseq(SentToEgress(s, turns, n), peer.messages)
  {
    var t := peer.View();
    SubseqPrefix(t.received, D.Packets(t.queue), t.messages);
    hide IsSubseq, TakenFromPeer, SentToEgress, Found;
    if n > 0 && VerdictAt(s, turns, n - 1) != GoesOn {
      SubseqPrefix(SentToEgress(s, turns, n), FromPeer(turns[n - 1], D.Gives(Found(s, turns, n - 1))), t.messages);
    }
  }

  /** A relay whose peer has closed ends on the peer's side within capacity plus one
      of its peer receives, however the two sides are picked, as long as no more
      messages arrive: the receives of any turns from then on are bounded, and while
      the relay has not ended the peer side or a detached close can go on. */
  lemma {:induction false} RelayEndsAfterClose(capacity: nat, es: seq<D.Event>, turns: seq<Turn>)
    requires capacity > 0
    requires D.Run(D.Fresh(capacity), es).live && D.Run(D.Fresh(capacity), es).ended.None?
    requires forall i, k :: 0 <= i < |turns| && 0 <= k < |turns[i].callbacks| ==> !D.IsMessage(turns[i].callbacks[k])
    ensures
      var s := D.Step(D.Run(D.Fresh(capacity), es), D.Close);
      var trace := Trace(turns, |turns|);
      var t := D.Run(s, trace);
      && D.Receives(s, trace) <= capacity + 1
      && (t.ended.None? ==> D.Receives(s, trace) <= capacity && D.CanGoOn(t))
  {
    TraceHasNoMessages(turns, |turns|);
    D.CloseIsDelivered(capacity, es, Trace(turns, |turns|));
  }

  /** A turn without new messages in which the egress neither ends nor fails and any
      send succeeds. */
  predicate Untroubled(turn: Turn) {
    && D.Recv !in turn.callbacks
    && (forall k :: 0 <= k < |turn.callbacks| ==> !D.IsMessage(turn.callbacks[k]))
    && turn.egress != Some(EndOfStream) && turn.egress != Some(Failed) && turn.send.Delivered?
  }

  lemma {:induction false} GoingOnIsNotEnded(s: D.State, turns: seq<Turn>, n: nat)
    requires s.ended.None? && n <= |turns| && forall i :: 0 <= i < n ==> VerdictAt(s, turns, i) == GoesOn
    requires forall i :: 0 <= i < n ==> Untroubled(turns[i])
    ensures D.Run(s, Trace(turns, n)).ended.None?
  {
    hide D.Step, D.Run, D.Gives, VerdictOf;
    if n == 0 {
      assert D.Run(s, []) == s by { NoEvents(s); }
    } else {
      GoingOnIsNotEnded(s, turns, n - 1);
      var turn := turns[n - 1];
      var met := Trace(turns, n - 1) + turn.callbacks;
      assert VerdictAt(s, turns, n - 1) == GoesOn && Untroubled(turns[n - 1]);
      D.RunAppend(s, Trace(turns, n - 1), turn.callbacks);
      CallbacksReceiveNothing(D.Run(s, Trace(turns, n - 1)), turn.callbacks);
      if turn.egress.None? {
        D.RunSnoc(s, met, D.Recv);
        GoesOnAfterRecv(D.Run(s, met), turn);
      } else {
        assert Trace(turns, n) == met;
      }
    }
  }

  lemma {:induction false} NoEvents(s: D.State)
    ensures D.Run(s, []) == s
  {
  }

  lemma {:induction false} GoesOnAfterRecv(s: D.State, turn: Turn)
    requires s.ended.None? && turn.egress.None? && VerdictOf(turn, D.Gives(s)) == GoesOn
    ensures D.Step(s, D.Recv).ended.None?
  {
  }

  /** After the peer's close, and without new messages, an otherwise untroubled relay
      ends by the close: it ends at all only as its peer's end or failure, it has ended
      once capacity plus one peer receives are made, and until then the peer side or a
      detached close can go on. */
  lemma {:induction false} RelayEndsByClose(capacity: nat, es: seq<D.Event>, turns: seq<Turn>, n: nat,
                                            r: Option<Outcome>)
    requires capacity > 0
    requires D.Run(D.Fresh(capacity), es).live && D.Run(D.Fresh(capacity), es).ended.None?
    requires forall i :: 0 <= i < |turns| ==> Untroubled(turns[i])
    requires EndsAfter(D.Step(D.Run(D.Fresh(capacity), es), D.Close), turns, n, r)
    ensures
      var s := D.Step(D.Run(D.Fresh(capacity), es), D.Close);
      var t := D.Run(s, Trace(turns, n));
      && (r.Some? ==> r.value == Ok(PeerClosed) || r.value == Err(PeerFailed))
      && D.Receives(s, Trace(turns, n)) <= capacity + 1
      && (D.Receives(s, Trace(turns, n)) == capacity + 1 ==> r.Some?)
      && (r.None? ==> n == |turns| && D.CanGoOn(t))
  {
    hide D.Run, D.Receives, D.CanGoOn, D.Gives;
    var s := D.Step(D.Run(D.Fresh(capacity), es), D.Close);
    assert forall i, k :: 0 <= i < |turns| && 0 <= k < |turns[i].callbacks| ==> !D.IsMessage(turns[i].callbacks[k]) by {
      forall i, k | 0 <= i < |turns| && 0 <= k < |turns[i].callbacks| ensures !D.IsMessage(turns[i].callbacks[k]) {
        assert Untroubled(turns[i]);
      }
    }
    TraceHasNoMessages(turns, n);
    D.CloseIsDelivered(capacity, es, Trace(turns, n));
    if n > 0 {
      assert Untroubled(turns[n - 1]);
      UntroubledVerdict(turns[n - 1], D.Gives(Found(s, turns, n - 1)));
    }
    hide D.Step, Trace, Found, VerdictOf;
    if r.None? {
      GoingOnIsNotEnded(s, turns, n);
    }
  }

  lemma {:induction false} UntroubledVerdict(turn: Turn, peer: D.RecvOutcome)
    requires Untroubled(turn)
    ensures
      var v := VerdictOf(turn, peer);
      v == GoesOn || v == Stops(Ok(PeerClosed)) || v == Stops(Err(PeerFailed))
  {
  }

  lemma {:induction false} TraceHasNoMessages(turns: seq<Turn>, n: nat)
    requires n <= |turns|
    requires forall i, k :: 0 <= i < |turns| && 0 <= k < |turns[i].callbacks| ==> !D.IsMessage(turns[i].callbacks[k])
    ensures forall i :: 0 <= i < |Trace(turns, n)| ==> !D.IsMessage(Trace(turns, n)[i])
  {
    if n == 0 {
    } else {
      TraceHasNoMessages(turns, n - 1);
      var last := n - 1;
      assert forall k :: 0 <= k < |turns[last].callbacks| ==> !D.IsMessage(turns[last].callbacks[k]);
    }
  }
}
