/** The queue between the data-channel callbacks and the relay.

    Messages that find the queue full are lost. The close signal must not be: when it
    finds the queue full, it goes to a detached task. From its first poll on that task
    has sent it or waits for room; before, a new message can still take room that a
    receive makes, after, such room goes to waiting tasks first. */
module DataChannel {
  import opened Prelude
  import opened Subsequences

  datatype ChannelEvent = Packet(bytes: Bytes) | Text | CloseSignal

  datatype PeerEnd = EndOfStream | TextError

  /** `spawned` detached tasks have not been polled yet, `waiting` ones have no room
      yet, `granted` ones have room and have not used it. `live` says that the callbacks
      still hold the sending half. The histories are the binary messages that arrived
      and the packets received. */
  datatype State = State(
    capacity: nat, queue: seq<ChannelEvent>, spawned: nat, waiting: nat, granted: nat, live: bool,
    ended: Option<PeerEnd>, messages: seq<Bytes>, received: seq<Bytes>)

  datatype Event =
    | Binary(bytes: Bytes)
    | TextMessage
    | Close
    | DetachedPoll
    | DetachedPush
    | DropCallbacks
    | Recv

  function Fresh(capacity: nat): State { State(capacity, [], 0, 0, 0, true, None, [], []) }

  predicate HasRoom(s: State) { |s.queue| + s.granted < s.capacity }

  /** How many detached tasks have a close signal to send. */
  function Detached(s: State): nat { s.spawned + s.waiting + s.granted }

  predicate CanRecv(s: State) { s.ended.None? && (s.queue != [] || (!s.live && Detached(s) == 0)) }

  predicate Enabled(s: State, e: Event) {
    match e
    case Binary(_) => s.live
    case TextMessage => s.live
    case Close => s.live
    case DetachedPoll => s.spawned > 0
    case DetachedPush => s.granted > 0
    case DropCallbacks => true
    case Recv => CanRecv(s)
  }

  function Offer(s: State, e: ChannelEvent): State {
    if HasRoom(s) then s.(queue := s.queue + [e]) else s
  }

  /** A receive frees one place, which goes to a waiting task if there is one. */
  function DoRecv(s: State): State {
    if s.queue == [] then s.(ended := Some(EndOfStream))
    else
      var t := s.(queue := s.queue[1..]);
      var u := if s.waiting > 0 then t.(waiting := s.waiting - 1, granted := s.granted + 1) else t;
      match s.queue[0]
      case Packet(b) => u.(received := s.received + [b])
      case Text => u.(ended := Some(TextError))
      case CloseSignal => u.(ended := Some(EndOfStream))
  }

  function Step(s: State, e: Event): State {
    if !Enabled(s, e) then s else
    match e
    case Binary(b) => Offer(s, Packet(b)).(messages := s.messages + [b])
    case TextMessage => Offer(s, Text)
    case Close => if HasRoom(s) then Offer(s, CloseSignal) else s.(spawned := s.spawned + 1)
    case DetachedPoll =>
      var t := s.(spawned := s.spawned - 1);
      if HasRoom(s) then Offer(t, CloseSignal) else t.(waiting := s.waiting + 1)
    case DetachedPush => s.(queue := s.queue + [CloseSignal], granted := s.granted - 1)
    case DropCallbacks => s.(live := false)
    case Recv => DoRecv(s)
  }

  function Run(s: State, es: seq<Event>): State {
    if es == [] then s else Step(Run(s, Init(es)), Last(es))
  }

  /** What a receive gives; `Pending` when there is nothing to receive yet. */
  datatype RecvOutcome = Pending | Data(bytes: Bytes) | Finished(end: PeerEnd)

  function Gives(s: State): RecvOutcome {
    if s.queue == [] then if !s.live && Detached(s) == 0 then Finished(EndOfStream) else Pending
    else match s.queue[0]
      case Packet(b) => Data(b)
      case Text => Finished(TextError)
      case CloseSignal => Finished(EndOfStream)
  }

  // ------------------------------------------------------------- what every run keeps

  function Packets(queue: seq<ChannelEvent>): seq<Bytes> {
    if queue == [] then []
    else Packets(Init(queue)) + if Last(queue).Packet? then [Last(queue).bytes] else []
  }

  ghost predicate Inv(s: State) {
    && s.capacity > 0
    && |s.queue| + s.granted <= s.capacity
    && (s.waiting > 0 ==> |s.queue| + s.granted == s.capacity)
    && IsSubseq(s.received + Packets(s.queue), s.messages)
  }

  lemma {:induction false} PacketsSnoc(queue: seq<ChannelEvent>, e: ChannelEvent)
    ensures Packets(queue + [e]) == if e.Packet? then Packets(queue) + [e.bytes] else Packets(queue)
  {
    assert Init(queue + [e]) == queue;
  }

  lemma {:induction false} PacketsHead(queue: seq<ChannelEvent>)
    requires queue != []
    ensures Packets(queue) == (if queue[0].Packet? then [queue[0].bytes] else []) + Packets(queue[1..])
    decreases |queue|
  {
    if |queue| == 1 {
      assert queue == [] + [queue[0]] && queue[1..] == [];
      PacketsSnoc([], queue[0]);
    } else {
      PacketsHead(Init(queue));
      assert Init(queue)[1..] == Init(queue[1..]) && Last(queue[1..]) == Last(queue);
    }
  }

  lemma {:induction false} RecvKeeps(s: State)
    requires Inv(s) && CanRecv(s)
    ensures Inv(DoRecv(s))
  {
    hide IsSubseq, Packets;
    if s.queue != [] {
      PacketsHead(s.queue);
      var head := s.queue[0];
      if head.Packet? {
        assert s.received + [head.bytes] + Packets(s.queue[1..]) == s.received + ([head.bytes] + Packets(s.queue[1..]));
      } else {
        assert [] + Packets(s.queue[1..]) == Packets(s.queue[1..]);
      }
    }
  }

  lemma {:induction false} BinaryKeeps(s: State, b: Bytes)
    requires Inv(s)
    ensures Inv(Offer(s, Packet(b)).(messages := s.messages + [b]))
  {
    var had := s.received + Packets(s.queue);
    PacketsSnoc(s.queue, Packet(b));
    SubseqSkip(had, s.messages, b);
    SubseqTake(had, s.messages, b);
    hide IsSubseq, Packets;
    assert s.received + (Packets(s.queue) + [b]) == had + [b];
  }

  lemma {:induction false} InvStep(s: State, e: Event)
    requires Inv(s)
    ensures Inv(Step(s, e))
  {
    if Enabled(s, e) {
      match e
      case Recv => RecvKeeps(s);
      case Binary(b) => BinaryKeeps(s, b);
      case _ => QuietKeeps(s, e);
    }
  }

  /** Steps that neither bring nor take a packet. */
  lemma {:induction false} QuietKeeps(s: State, e: Event)
    requires Inv(s) && Enabled(s, e) && !e.Recv? && !e.Binary?
    ensures Inv(Step(s, e))
  {
    hide IsSubseq, Packets;
    PacketsSnoc(s.queue, Text);
    PacketsSnoc(s.queue, CloseSignal);
  }

  lemma {:induction false} InvRun(s: State, es: seq<Event>)
    requires Inv(s)
    ensures Inv(Run(s, es)) && Run(s, es).capacity == s.capacity
    decreases |es|
  {
    if es == [] {
    } else {
      InvRun(s, Init(es));
      InvStep(Run(s, Init(es)), Last(es));
    }
  }

  /** In every run, the packets received so far are a sub-list of the binary messages
      that arrived: lossy, but neither reordered nor duplicated. */
  lemma {:induction false} ReceivedIsSubsequence(capacity: nat, es: seq<Event>)
    requires capacity > 0
    ensures IsSubseq(Run(Fresh(capacity), es).received, Run(Fresh(capacity), es).messages)
  {
    InvRun(Fresh(capacity), es);
    var s := Run(Fresh(capacity), es);
    SubseqPrefix(s.received, Packets(s.queue), s.messages);
  }

  // ------------------------------------------------------ exactly what goes through

  /** What a step puts into the queue: a message or close signal that finds room, or a
      detached close signal that finds or was given room. */
  ghost function Admits(s: State, e: Event): seq<ChannelEvent> {
    var room := |s.queue| + s.granted < s.capacity;
    match e
    case Binary(b) => if s.live && room then [Packet(b)] else []
    case TextMessage => if s.live && room then [Text] else []
    case Close => if s.live && room then [CloseSignal] else []
    case DetachedPoll => if s.spawned > 0 && room then [CloseSignal] else []
    case DetachedPush => if s.granted > 0 then [CloseSignal] else []
    case DropCallbacks => []
    case Recv => []
  }

  /** What a step takes out of the queue: a receive, the oldest event. */
  ghost function Takes(s: State, e: Event): seq<ChannelEvent> {
    if e == Recv && s.ended == None && s.queue != [] then [s.queue[0]] else []
  }

  ghost function Admitted(s: State, es: seq<Event>): seq<ChannelEvent> {
    if es == [] then [] else Admitted(s, Init(es)) + Admits(Run(s, Init(es)), Last(es))
  }

  ghost function Taken(s: State, es: seq<Event>): seq<ChannelEvent> {
    if es == [] then [] else Taken(s, Init(es)) + Takes(Run(s, Init(es)), Last(es))
  }

  /** How the reader's history and end follow from the events it took. */
  ghost predicate ReadSo(s: State, taken: seq<ChannelEvent>) {
    && s.received == Packets(taken)
    && (forall k :: 0 <= k < |taken| - 1 ==> taken[k].Packet?)
    && (taken != [] && Last(taken) == CloseSignal ==> s.ended == Some(EndOfStream))
    && (s.ended == Some(TextError) <==> taken != [] && Last(taken) == Text)
    && (s.ended == None && taken != [] ==> Last(taken).Packet?)
  }

  lemma {:induction false} ThroughStep(s: State, e: Event)
    ensures Takes(s, e) + Step(s, e).queue == s.queue + Admits(s, e)
  {
    if e == Recv && s.ended == None && s.queue != [] {
      assert [s.queue[0]] + s.queue[1..] == s.queue + [];
    }
  }

  lemma {:induction false} ReadStep(s: State, e: Event, taken: seq<ChannelEvent>)
    requires ReadSo(s, taken)
    ensures ReadSo(Step(s, e), taken + Takes(s, e))
  {
    hide Packets;
    if e == Recv && s.ended == None && s.queue != [] {
      PacketsSnoc(taken, s.queue[0]);
      var longer := taken + [s.queue[0]];
      assert Last(longer) == s.queue[0] && forall k :: 0 <= k < |taken| ==> longer[k] == taken[k];
    } else {
      assert taken + [] == taken;
    }
  }

  /** In every run, what the reader took followed by what is queued is exactly what found
      room, in order: a message is received unless it met a full queue or the reader
      ended first. The packets received are those taken, and the reader ends with the
      first text or close signal it takes. */
  lemma {:induction false} ThroughExactly(capacity: nat, es: seq<Event>)
    ensures
      var s := Run(Fresh(capacity), es);
      && Taken(Fresh(capacity), es) + s.queue == Admitted(Fresh(capacity), es)
      && ReadSo(s, Taken(Fresh(capacity), es))
    decreases |es|
  {
    hide Run, Step, Takes, Admits, Taken, Admitted, ReadSo, Packets;
    if es == [] {
      NothingThrough(capacity, es);
    } else {
      var s, e := Run(Fresh(capacity), Init(es)), Last(es);
      var taken, admitted := Taken(Fresh(capacity), Init(es)), Admitted(Fresh(capacity), Init(es));
      ThroughExactly(capacity, Init(es));
      ThroughNext(capacity, es);
      ThroughStep(s, e);
      ReadStep(s, e, taken);
      assert (taken + Takes(s, e)) + Step(s, e).queue == taken + (Takes(s, e) + Step(s, e).queue);
      assert taken + (s.queue + Admits(s, e)) == (taken + s.queue) + Admits(s, e);
    }
  }

  lemma {:induction false} NothingThrough(capacity: nat, es: seq<Event>)
    requires es == []
    ensures Taken(Fresh(capacity), es) + Run(Fresh(capacity), es).queue == Admitted(Fresh(capacity), es)
    ensures ReadSo(Run(Fresh(capacity), es), Taken(Fresh(capacity), es))
  {
    assert Packets([]) == [];
  }

  lemma {:induction false} ThroughNext(capacity: nat, es: seq<Event>)
    requires es != []
    ensures
      var s := Run(Fresh(capacity), Init(es));
      && Run(Fresh(capacity), es) == Step(s, Last(es))
      && Taken(Fresh(capacity), es) == Taken(Fresh(capacity), Init(es)) + Takes(s, Last(es))
      && Admitted(Fresh(capacity), es) == Admitted(Fresh(capacity), Init(es)) + Admits(s, Last(es))
  {
    hide Step, Takes, Admits;
  }

  // --------------------------------------------------------- the close signal arrives

  predicate IsMessage(e: Event) { e.Binary? || e.TextMessage? }

  /** How many receives come before that of the first close signal. */
  function BeforeClose(queue: seq<ChannelEvent>): (n: nat)
    ensures n <= |queue|
  {
    if queue == [] || queue[0].CloseSignal? then 0 else 1 + BeforeClose(queue[1..])
  }

  /** A close signal is queued or on its way. */
  ghost predicate Closing(s: State) {
    Detached(s) > 0 || BeforeClose(s.queue) < |s.queue|
  }

  lemma {:induction false} BeforeCloseSnoc(queue: seq<ChannelEvent>)
    ensures BeforeClose(queue + [CloseSignal]) == BeforeClose(queue) < |queue| + 1
    decreases |queue|
  {
    if queue == [] {
    } else {
      assert (queue + [CloseSignal])[1..] == queue[1..] + [CloseSignal];
      BeforeCloseSnoc(queue[1..]);
    }
  }

  lemma {:induction false} CloseStarts(s: State)
    requires Inv(s) && s.live
    ensures Closing(Step(s, Close)) && BeforeClose(Step(s, Close).queue) <= s.capacity
  {
    BeforeCloseSnoc(s.queue);
  }

  /** A receive or a detached task can take a step. */
  predicate CanGoOn(s: State) { Enabled(s, Recv) || Enabled(s, DetachedPoll) || Enabled(s, DetachedPush) }

  /** Once closing and without new messages, a step other than a receive changes
      nothing about how many receives are left, and a receive takes one away. */
  lemma {:induction false} ClosingStep(s: State, e: Event)
    requires Inv(s) && Closing(s) && s.ended.None? && !IsMessage(e)
    ensures
      var t := Step(s, e);
      && (t.ended.None? ==> Closing(t))
      && (e != Recv || !Enabled(s, e) ==> BeforeClose(t.queue) == BeforeClose(s.queue) && t.ended.None?)
      && (e == Recv && Enabled(s, e) && t.ended.None? ==> BeforeClose(t.queue) + 1 == BeforeClose(s.queue))
    ensures CanGoOn(s)
  {
    BeforeCloseSnoc(s.queue);
  }

  /** How many receives a run completes. */
  ghost function Receives(s: State, es: seq<Event>): nat {
    if es == [] then 0
    else Receives(s, Init(es)) + if Last(es) == Recv && Enabled(Run(s, Init(es)), Recv) then 1 else 0
  }

  lemma {:induction false} ReceivesLeft(s: State, es: seq<Event>)
    requires Inv(s) && Closing(s) && s.ended.None? && forall i :: 0 <= i < |es| ==> !IsMessage(es[i])
    ensures
      var t := Run(s, es);
      && Inv(t)
      && (t.ended.None? ==> Closing(t) && Receives(s, es) + BeforeClose(t.queue) <= BeforeClose(s.queue))
      && (t.ended.Some? ==> Receives(s, es) <= BeforeClose(s.queue) + 1)
    decreases |es|
  {
    if es == [] {
    } else {
      ReceivesLeft(s, Init(es));
      var t := Run(s, Init(es));
      InvStep(t, Last(es));
      if t.ended.None? {
        ClosingStep(t, Last(es));
      } else {
        EndedStays(t, Last(es));
      }
      hide Step, Enabled, Inv, Closing;
    }
  }

  lemma {:induction false} EndedStays(s: State, e: Event)
    requires s.ended.Some?
    ensures Step(s, e).ended == s.ended && !Enabled(s, Recv)
  {
  }

  /** The close signal is never lost. Whatever came before, after the close callback
      has run and while no message arrives, the receiving side ends within capacity
      plus one receives, even if the queue was full; and until it ends, either a
      receive or a detached task can go on, so it is never stuck. */
  lemma {:induction false} CloseIsDelivered(capacity: nat, es: seq<Event>, fs: seq<Event>)
    requires capacity > 0
    requires Run(Fresh(capacity), es).live && Run(Fresh(capacity), es).ended.None?
    requires forall i :: 0 <= i < |fs| ==> !IsMessage(fs[i])
    ensures
      var s := Step(Run(Fresh(capacity), es), Close);
      var t := Run(s, fs);
      && Receives(s, fs) <= capacity + 1
      && (t.ended.None? ==> Receives(s, fs) <= capacity && CanGoOn(t))
  {
    var r := Run(Fresh(capacity), es);
    assert Packets([]) == [];
    InvRun(Fresh(capacity), es);
    CloseStarts(r);
    InvStep(r, Close);
    var s := Step(r, Close);
    assert s.ended.None?;
    ReceivesLeft(s, fs);
    var t := Run(s, fs);
    if t.ended.None? {
      ClosingStep(t, Close);
    }
  }

  /** The queue as the object its callbacks and its reader share. */
  class WebRtcDatagrams {
    const capacity: nat
    var queue: seq<ChannelEvent>
    var spawned: nat
    var waiting: nat
    var granted: nat
    var live: bool
    var ended: Option<PeerEnd>
    var messages: seq<Bytes>
    var received: seq<Bytes>

    function View(): State
      reads this
    {
      State(capacity, queue, spawned, waiting, granted, live, ended, messages, received)
    }

    constructor (capacity: nat)
      requires capacity > 0
      ensures View() == Fresh(capacity) && Inv(View())
    {
      this.capacity := capacity;
      queue, spawned, waiting, granted, live, ended, messages, received := [], 0, 0, 0, true, None, [], [];
      new;
      assert Packets([]) == [];
    }

    method OnMessage(isString: bool, data: Bytes)
      requires Inv(View()) && live
      modifies this
      ensures Inv(View()) && View() == Step(old(View()), if isString then TextMessage else Binary(data))
      ensures queue
           == old(queue) + if old(|queue| + granted) < capacity then [if isString then Text else Packet(data)] else []
    {
      hide Inv;
      InvStep(View(), if isString then TextMessage else Binary(data));
      var event := if isString then Text else Packet(data);
      if |queue| + granted < capacity {
        queue := queue + [event];
      }
      if !isString {
        messages := messages + [data];
      }
    }

    method OnClose()
      requires Inv(View()) && live
      modifies this
      ensures Inv(View()) && View() == Step(old(View()), Close)
      ensures if old(|queue| + granted) < capacity then queue == old(queue) + [CloseSignal] && spawned == old(spawned)
              else queue == old(queue) && spawned == old(spawned) + 1
    {
      hide Inv;
      InvStep(View(), Close);
      if |queue| + granted < capacity {
        queue := queue + [CloseSignal];
      } else {
        spawned := spawned + 1;
      }
    }

    /** The first poll of a detached task: it sends its close signal at once if there
        is room, and waits for room otherwise. */
    method PollDetached()
      requires Inv(View()) && spawned > 0
      modifies this
      ensures Inv(View()) && View() == Step(old(View()), DetachedPoll) && spawned == old(spawned) - 1
      ensures if old(|queue| + granted) < capacity then queue == old(queue) + [CloseSignal] && waiting == old(waiting)
              else queue == old(queue) && waiting == old(waiting) + 1
    {
      hide Inv;
      InvStep(View(), DetachedPoll);
      spawned := spawned - 1;
      if |queue| + granted < capacity {
        queue := queue + [CloseSignal];
      } else {
        waiting := waiting + 1;
      }
    }

    /** A detached task puts its close signal into the place it was given. */
    method PushDetached()
      requires Inv(View()) && granted > 0
      modifies this
      ensures Inv(View()) && View() == Step(old(View()), DetachedPush)
    {
      hide Inv;
      InvStep(View(), DetachedPush);
      queue, granted := queue + [CloseSignal], granted - 1;
    }

    /** One step of a callback or a detached task; one that is not possible does
        nothing. */
    method Callback(e: Event)
      requires Inv(View()) && e != Recv
      modifies this
      ensures Inv(View()) && View() == Step(old(View()), e) && (e == DropCallbacks ==> !live)
    {
      match e
      case Binary(b) => if live { OnMessage(false, b); }
      case TextMessage => if live { OnMessage(true, []); }
      case Close => if live { OnClose(); }
      case DetachedPoll => if spawned > 0 { PollDetached(); }
      case DetachedPush => if granted > 0 { PushDetached(); }
      case DropCallbacks =>
        InvStep(View(), e);
        live := false;
    }

    method RecvPacket() returns (r: RecvOutcome)
      requires Inv(View()) && ended.None?
      modifies this
      ensures Inv(View()) && View() == Step(old(View()), Recv) && r == Gives(old(View()))
      ensures old(queue) != [] ==>
        r == match old(queue)[0]
             case Packet(b) => Data(b)
             case Text => Finished(TextError)
             case CloseSignal => Finished(EndOfStream)
      ensures old(queue) == [] ==>
        r == if old(live) || old(spawned + waiting + granted) > 0 then Pending else Finished(EndOfStream)
      ensures r.Pending? ==> View() == old(View())
      ensures r.Data? ==> received == old(received) + [r.bytes] && ended.None?
      ensures r.Finished? ==> ended == Some(r.end) && received == old(received)
    {
      hide Inv;
      InvStep(View(), Recv);
      if queue == [] {
        if !live && spawned + waiting + granted == 0 {
          ended := Some(EndOfStream);
          return Finished(EndOfStream);
        }
        return Pending;
      }
      var event := queue[0];
      queue := queue[1..];
      if waiting > 0 {
        waiting, granted := waiting - 1, granted + 1;
      }
      match event {
        case Packet(b) =>
          received := received + [b];
          r := Data(b);
        case Text =>
          ended := Some(TextError);
          r := Finished(TextError);
        case CloseSignal =>
          ended := Some(EndOfStream);
          r := Finished(EndOfStream);
      }
    }
  }

  lemma {:induction false} RunAppend(s: State, es: seq<Event>, fs: seq<Event>)
    ensures Run(s, es + fs) == Run(Run(s, es), fs)
    decreases |fs|
  {
    hide Step;
    if fs == [] {
      assert es + fs == es;
    } else {
      assert Init(es + fs) == es + Init(fs) && Last(es + fs) == Last(fs);
      RunAppend(s, es, Init(fs));
    }
  }

  lemma {:induction false} RunSnoc(s: State, es: seq<Event>, e: Event)
    ensures Run(s, es + [e]) == Step(Run(s, es), e)
  {
    assert Init(es + [e]) == es;
  }
}
