/** The callbacks of one peer session: connection-state reports, the session-ID gate
    and the one-shot wait for the data channel.

    The first part takes the callbacks one at a time, the second lets any number of
    them overlap, cut where they suspend or touch shared state. */
module PeerSession {
  import opened Prelude
  import opened Subsequences
  import opened Subprotocol

  datatype PeerState = New | Connecting | Connected | Disconnected | Failed | Closed

  predicate IsTerminal(st: PeerState) { st.Disconnected? || st.Failed? || st.Closed? }

  /** The terminal states are these three. */
  lemma {:induction false} TerminalExactly(st: PeerState)
    ensures IsTerminal(st) <==> st in {Disconnected, Failed, Closed}
  {
  }

  datatype Report = PeerConnected(id: Bytes) | PeerDisconnected(id: Bytes)

  /** The wait for the data channel, and what ended it. */
  datatype Wait = Waiting | Opened(channel: nat) | Ended(state: PeerState)

  datatype Input = Publish(id: Bytes) | StateChange(state: PeerState) | ChannelOpen(channel: nat)

  datatype GateError = MissingSessionId | InvalidSessionId

  /** The check between the peer's session ID and its publication. */
  function Gate(id: Bytes): Result<Bytes, GateError> {
    if id == [] then Err(MissingSessionId)
    else if !IsSubprotocolToken(id) then Err(InvalidSessionId)
    else Ok(id)
  }

  datatype State = State(
    id: Option<Bytes>, connectSeen: bool, disconnectSent: bool, reports: seq<Report>, wait: Wait)

  function Start(): State { State(None, false, false, [], Waiting) }

  /** A terminal state takes the sender of the wait if it is still there. */
  function FailWait(w: Wait, st: PeerState): Wait {
    if IsTerminal(st) && w.Waiting? then Ended(st) else w
  }

  function Step(s: State, e: Input): State {
    match e
    case Publish(id) => if s.id.None? && Gate(id).Ok? then s.(id := Some(id)) else s
    case ChannelOpen(c) => if s.wait.Waiting? then s.(wait := Opened(c)) else s
    case StateChange(st) =>
      var t := s.(wait := FailWait(s.wait, st));
      if s.id.None? then t
      else if st.Connected? then t.(connectSeen := true, reports := s.reports + [PeerConnected(s.id.value)])
      else if IsTerminal(st) && s.connectSeen && !s.disconnectSent then
        t.(disconnectSent := true, reports := s.reports + [PeerDisconnected(s.id.value)])
      else t
  }

  function Run(es: seq<Input>): State {
    if es == [] then Start() else Step(Run(Init(es)), Last(es))
  }

  // ------------------------------------------------------------- serialised runs

  /** The published ID: the first one that passes the gate. */
  function KnownId(es: seq<Input>): Option<Bytes> {
    if es == [] then None
    else if KnownId(Init(es)).Some? then KnownId(Init(es))
    else if Last(es).Publish? && Gate(Last(es).id).Ok? then Some(Last(es).id)
    else None
  }

  /** At position `i` the peer connects while its ID is known. */
  ghost predicate ConnectsAt(es: seq<Input>, i: nat) {
    i < |es| && es[i] == StateChange(Connected) && KnownId(es[..i]).Some?
  }

  ghost predicate EverConnects(es: seq<Input>) { exists i: nat :: ConnectsAt(es, i) }

  predicate TerminalInput(e: Input) { e.StateChange? && IsTerminal(e.state) }

  /** Some terminal state follows a connection made with the ID known. */
  ghost predicate EverDisconnects(es: seq<Input>) {
    exists i: nat, j: nat :: ConnectsAt(es, i) && i < j < |es| && TerminalInput(es[j])
  }

  function CountDisconnects(reports: seq<Report>): nat {
    if reports == [] then 0 else CountDisconnects(Init(reports)) + if Last(reports).PeerDisconnected? then 1 else 0
  }

  lemma {:induction false} ConnectsKept(es: seq<Input>, i: nat)
    requires es != []
    ensures ConnectsAt(es, i)
       <==> || ConnectsAt(Init(es), i)
            || (i == |es| - 1 && Last(es) == StateChange(Connected) && KnownId(Init(es)).Some?)
  {
    if i < |es| - 1 {
      assert Init(es)[..i] == es[..i];
    } else if i == |es| - 1 {
      assert es[..i] == Init(es);
    }
  }

  lemma {:induction false} EverConnectsNext(es: seq<Input>)
    requires es != []
    ensures EverConnects(es)
       <==> EverConnects(Init(es)) || (Last(es) == StateChange(Connected) && KnownId(Init(es)).Some?)
  {
    if EverConnects(es) {
      var i: nat :| ConnectsAt(es, i);
      ConnectsKept(es, i);
    }
    if EverConnects(Init(es)) {
      var i: nat :| ConnectsAt(Init(es), i);
      ConnectsKept(es, i);
    }
    ConnectsKept(es, |es| - 1);
  }

  lemma {:induction false} EverDisconnectsNext(es: seq<Input>)
    requires es != []
    ensures EverDisconnects(es) <==> EverDisconnects(Init(es)) || (TerminalInput(Last(es)) && EverConnects(Init(es)))
  {
    if EverDisconnects(es) {
      var i: nat, j: nat :| ConnectsAt(es, i) && i < j < |es| && TerminalInput(es[j]);
      ConnectsKept(es, i);
      if j < |es| - 1 {
        assert TerminalInput(Init(es)[j]);
      }
    }
    if EverDisconnects(Init(es)) {
      var i: nat, j: nat :| ConnectsAt(Init(es), i) && i < j < |Init(es)| && TerminalInput(Init(es)[j]);
      ConnectsKept(es, i);
      assert TerminalInput(es[j]);
    }
    if TerminalInput(Last(es)) && EverConnects(Init(es)) {
      var i: nat :| ConnectsAt(Init(es), i);
      ConnectsKept(es, i);
      assert TerminalInput(es[|es| - 1]);
    }
  }

  lemma {:induction false} CountSnoc(reports: seq<Report>, r: Report)
    ensures CountDisconnects(reports + [r]) == CountDisconnects(reports) + if r.PeerDisconnected? then 1 else 0
  {
    assert Init(reports + [r]) == reports;
  }

  /** What the reports have to do with the flags. */
  ghost predicate ReportsSound(s: State) {
    && CountDisconnects(s.reports) == (if s.disconnectSent then 1 else 0)
    && (s.reports != [] ==> s.reports[0].PeerConnected?)
    && (s.connectSeen ==> s.reports != [])
    && (forall i :: 0 <= i < |s.reports| ==> s.id == Some(s.reports[i].id))
  }

  lemma {:induction false} ReportsStep(s: State, e: Input)
    requires ReportsSound(s)
    ensures ReportsSound(Step(s, e))
  {
    hide CountDisconnects, IsSubprotocolToken;
    if s.id.Some? {
      CountSnoc(s.reports, PeerConnected(s.id.value));
      CountSnoc(s.reports, PeerDisconnected(s.id.value));
    }
  }

  lemma {:induction false} ReportsRun(es: seq<Input>)
    ensures ReportsSound(Run(es))
    decreases |es|
  {
    if es == [] {
    } else {
      ReportsRun(Init(es));
      ReportsStep(Run(Init(es)), Last(es));
    }
  }

  /** Which flag says what, after any inputs. */
  lemma {:induction false} Flags(es: seq<Input>)
    ensures Run(es).id == KnownId(es)
    ensures Run(es).connectSeen <==> EverConnects(es)
    ensures Run(es).disconnectSent <==> EverDisconnects(es)
    decreases |es|
  {
    if es == [] {
    } else {
      Flags(Init(es));
      ReportsRun(Init(es));
      EverConnectsNext(es);
      EverDisconnectsNext(es);
      hide EverConnects, EverDisconnects, IsSubprotocolToken;
    }
  }

  /** What one more input makes a session report, after some inputs: a connect for every
      connected state with the ID known, a disconnect for the first of the three terminal
      states after one. */
  ghost function ReportIn(past: seq<Input>, e: Input): seq<Report> {
    var id := KnownId(past);
    if id == None || !e.StateChange? then []
    else if e.state == Connected then [PeerConnected(id.value)]
    else if e.state in {Disconnected, Failed, Closed} && EverConnects(past) && !EverDisconnects(past)
    then [PeerDisconnected(id.value)] else []
  }

  ghost function AllReports(es: seq<Input>): seq<Report> {
    if es == [] then [] else AllReports(Init(es)) + ReportIn(Init(es), Last(es))
  }

  /** The reports of a session are exactly these. */
  lemma {:induction false} ReportsExactly(es: seq<Input>)
    ensures Run(es).reports == AllReports(es)
    decreases |es|
  {
    if es == [] {
    } else {
      ReportsExactly(Init(es));
      Flags(Init(es));
      hide EverConnects, EverDisconnects, IsSubprotocolToken;
    }
  }

  /** For every sequence of states and every publication time of the ID: exactly one
      disconnect is reported if some terminal state follows a connection seen with
      the ID known, and none otherwise; it never comes before the first connect; and
      every ID reported is the one that passed the gate. */
  lemma {:induction false} DisconnectReportedOnce(es: seq<Input>)
    ensures
      var s := Run(es);
      && CountDisconnects(s.reports) == (if EverDisconnects(es) then 1 else 0)
      && (s.reports != [] ==> s.reports[0].PeerConnected?)
      && (forall i :: 0 <= i < |s.reports| ==>
            KnownId(es) == Some(s.reports[i].id) && IsSubprotocolToken(s.reports[i].id))
  {
    Flags(es);
    ReportsRun(es);
    KnownIdIsToken(es);
  }

  lemma {:induction false} KnownIdIsToken(es: seq<Input>)
    ensures KnownId(es).Some? ==> IsSubprotocolToken(KnownId(es).value)
    decreases |es|
  {
    if es == [] {
    } else {
      KnownIdIsToken(Init(es));
    }
  }

  /** The input that ends the wait, if it is one. */
  function EndsWait(e: Input): Wait {
    match e
    case ChannelOpen(c) => Opened(c)
    case StateChange(st) => FailWait(Waiting, st)
    case Publish(_) => Waiting
  }

  /** The wait ends with the first channel opening or terminal state, and nothing
      later changes that. */
  lemma {:induction false} WaitIsOneShot(es: seq<Input>, k: nat)
    requires k <= |es| && (forall i :: 0 <= i < k ==> EndsWait(es[i]) == Waiting)
    requires k < |es| ==> EndsWait(es[k]) != Waiting
    ensures Run(es).wait == if k < |es| then EndsWait(es[k]) else Waiting
    decreases |es|
  {
    if es == [] {
    } else {
      WaitIsOneShot(Init(es), if k < |es| then k else k - 1);
    }
  }

  /** The callbacks as methods on the state they share. */
  class Callbacks {
    var sessionId: Option<Bytes>
    var connectEmitted: bool
    var disconnectEmitted: bool
    var events: seq<Report>
    var wait: Wait

    function View(): State
      reads this
    {
      State(sessionId, connectEmitted, disconnectEmitted, events, wait)
    }

    constructor ()
      ensures View() == Start()
    {
      sessionId, connectEmitted, disconnectEmitted, events, wait := None, false, false, [], Waiting;
    }

    method PublishId(id: Bytes) returns (r: Result<(), GateError>)
      requires sessionId.None?
      modifies this
      ensures View() == Step(old(View()), Publish(id))
      ensures r == match Gate(id) case Ok(_) => Ok(()) case Err(e) => Err(e)
      ensures r.Ok? <==> sessionId == Some(id)
      ensures r == Err(MissingSessionId) <==> id == []
      ensures r == Err(InvalidSessionId) <==>
        exists i :: 0 <= i < |id| && !(0x21 <= id[i] <= 0x7E && id[i] != 0x2C)
    {
      if id == [] {
        return Err(MissingSessionId);
      }
      if !IsSubprotocolToken(id) {
        return Err(InvalidSessionId);
      }
      sessionId := Some(id);
      r := Ok(());
    }

    method FailDataChannelWait(st: PeerState)
      modifies this`wait
      ensures wait == FailWait(old(wait), st)
      ensures wait == if st in {Disconnected, Failed, Closed} && old(wait) == Waiting then Ended(st) else old(wait)
    {
      if IsTerminal(st) {
        if wait.Waiting? {
          wait := Ended(st);
        }
      }
    }

    method OnStateChange(st: PeerState)
      modifies this
      ensures View() == Step(old(View()), StateChange(st))
    {
      FailDataChannelWait(st);
      if sessionId.None? {
        return;
      }
      var id := sessionId.value;
      if st.Connected? {
        connectEmitted := true;
        events := events + [PeerConnected(id)];
      } else if IsTerminal(st) && connectEmitted {
        var before := disconnectEmitted;
        disconnectEmitted := true;
        if !before {
          events := events + [PeerDisconnected(id)];
        }
      }
    }

    method OnOpen(channel: nat)
      modifies this`wait
      ensures View() == Step(old(View()), ChannelOpen(channel))
      ensures wait == if old(wait) == Waiting then Opened(channel) else old(wait)
    {
      if wait.Waiting? {
        wait := Opened(channel);
      }
    }
  }

  // ---------------------------------------------------------- overlapping callbacks

  /** How far one state-change callback has come: invoked, ID read, connect flag set
      (its report waits for the candidate pair), connect flag found set, disconnect
      flag won, over. */
  datatype Stage =
    | Invoked(state: PeerState)
    | HasId(state: PeerState, id: Bytes)
    | Flagged(id: Bytes)
    | Loaded(id: Bytes)
    | Won(id: Bytes)
    | Over

  datatype Shared = Shared(base: State, tasks: map<nat, Stage>)

  datatype Move =
    | Outside(input: Input)
    | Invoke(task: nat, state: PeerState)
    | Advance(task: nat)

  function SetTask(s: Shared, k: nat, stage: Stage): Shared { s.(tasks := s.tasks[k := stage]) }

  /** One atomic step of one callback. */
  function AdvanceTask(s: Shared, k: nat): Shared
    requires k in s.tasks
  {
    var b := s.base;
    match s.tasks[k]
    case Invoked(st) => SetTask(s, k, if b.id.None? then Over else HasId(st, b.id.value))
    case HasId(st, id) =>
      if st.Connected? then SetTask(s.(base := b.(connectSeen := true)), k, Flagged(id))
      else SetTask(s, k, if IsTerminal(st) && b.connectSeen then Loaded(id) else Over)
    case Loaded(id) =>
      SetTask(s.(base := b.(disconnectSent := true)), k, if b.disconnectSent then Over else Won(id))
    case Flagged(id) => SetTask(s.(base := b.(reports := b.reports + [PeerConnected(id)])), k, Over)
    case Won(id) => SetTask(s.(base := b.(reports := b.reports + [PeerDisconnected(id)])), k, Over)
    case Over => s
  }

  function Take(s: Shared, m: Move): Shared {
    match m
    case Outside(input) => if input.StateChange? then s else s.(base := Step(s.base, input))
    case Invoke(k, st) =>
      if k in s.tasks then s
      else SetTask(s.(base := s.base.(wait := FailWait(s.base.wait, st))), k, Invoked(st))
    case Advance(k) => if k in s.tasks then AdvanceTask(s, k) else s
  }

  function TakeAll(s: Shared, ms: seq<Move>): Shared {
    if ms == [] then s else Take(TakeAll(s, Init(ms)), Last(ms))
  }

  /** Every ID a callback carries or has reported is the published one. */
  ghost predicate IdsAgree(s: Shared) {
    && (s.base.id.Some? ==> IsSubprotocolToken(s.base.id.value))
    && (forall k :: k in s.tasks && !s.tasks[k].Invoked? && !s.tasks[k].Over? ==> s.base.id == Some(s.tasks[k].id))
    && (forall i :: 0 <= i < |s.base.reports| ==> s.base.id == Some(s.base.reports[i].id))
  }

  /** Whoever won the disconnect flag is about to report, or has reported. */
  ghost predicate OneWinner(s: Shared) {
    && (forall j, k :: j in s.tasks && k in s.tasks && s.tasks[j].Won? && s.tasks[k].Won? ==> j == k)
    && (!s.base.disconnectSent ==>
          CountDisconnects(s.base.reports) == 0 && forall k :: k in s.tasks ==> !s.tasks[k].Won?)
    && CountDisconnects(s.base.reports) <= 1
    && (CountDisconnects(s.base.reports) == 1 ==> forall k :: k in s.tasks ==> !s.tasks[k].Won?)
  }

  ghost predicate HasWinner(s: Shared) { exists k :: k in s.tasks && s.tasks[k].Won? }

  /** A taken disconnect flag means that a disconnect is reported or about to be. */
  ghost predicate FlagIsKept(s: Shared) {
    s.base.disconnectSent ==> CountDisconnects(s.base.reports) == 1 || HasWinner(s)
  }

  ghost predicate SharedInv(s: Shared) { IdsAgree(s) && OneWinner(s) && FlagIsKept(s) }

  lemma {:induction false} AdvanceKeepsIds(s: Shared, k: nat)
    requires IdsAgree(s) && k in s.tasks
    ensures IdsAgree(AdvanceTask(s, k))
  {
    hide IsSubprotocolToken;
  }

  lemma {:induction false} AdvanceKeepsWinner(s: Shared, k: nat)
    requires OneWinner(s) && k in s.tasks
    ensures OneWinner(AdvanceTask(s, k))
  {
    if s.tasks[k].Flagged? || s.tasks[k].Won? {
      CountSnoc(s.base.reports, PeerConnected(s.tasks[k].id));
      CountSnoc(s.base.reports, PeerDisconnected(s.tasks[k].id));
    }
    hide CountDisconnects;
  }

  /** A winner whose own turn it is not is still a winner. */
  lemma {:induction false} WinnerStays(s: Shared, t: Shared, k: nat)
    requires forall j :: j in s.tasks && j != k ==> j in t.tasks && t.tasks[j] == s.tasks[j]
    requires HasWinner(s) && (k in s.tasks ==> !s.tasks[k].Won?)
    ensures HasWinner(t)
  {
    var j :| j in s.tasks && s.tasks[j].Won?;
    assert t.tasks[j].Won?;
  }

  lemma {:induction false} AdvanceKeepsFlag(s: Shared, k: nat)
    requires OneWinner(s) && FlagIsKept(s) && k in s.tasks
    ensures FlagIsKept(AdvanceTask(s, k))
  {
    var t := AdvanceTask(s, k);
    if s.tasks[k].Won? {
      CountSnoc(s.base.reports, PeerDisconnected(s.tasks[k].id));
    } else {
      if s.tasks[k].Flagged? {
        CountSnoc(s.base.reports, PeerConnected(s.tasks[k].id));
      }
      hide CountDisconnects, OneWinner, HasWinner;
      if HasWinner(s) {
        WinnerStays(s, t, k);
      } else if t.tasks[k].Won? {
        WinnerIs(t, k);
      }
    }
  }

  lemma {:induction false} WinnerIs(s: Shared, k: nat)
    requires k in s.tasks && s.tasks[k].Won?
    ensures HasWinner(s)
  {
  }

  lemma {:induction false} TakeKeeps(s: Shared, m: Move)
    requires SharedInv(s)
    ensures SharedInv(Take(s, m))
  {
    if m.Advance? && m.task in s.tasks {
      AdvanceKeepsIds(s, m.task);
      AdvanceKeepsWinner(s, m.task);
      AdvanceKeepsFlag(s, m.task);
    } else {
      hide AdvanceTask, CountDisconnects;
      if m.Invoke? && m.task !in s.tasks && HasWinner(s) {
        WinnerStays(s, Take(s, m), m.task);
      }
    }
  }

  /** A run of overlapping callbacks from the start of the session. */
  function After(ms: seq<Move>): Shared { TakeAll(Shared(Start(), map[]), ms) }

  lemma {:induction false} SharedInvRun(ms: seq<Move>)
    ensures SharedInv(After(ms))
    decreases |ms|
  {
    if ms == [] {
    } else {
      SharedInvRun(Init(ms));
      TakeKeeps(After(Init(ms)), Last(ms));
    }
  }

  // ------------------------------------- what a schedule of overlapping callbacks reports

  /** The stage of the callback that move `i` of a run advances. */
  ghost function StageAt(ms: seq<Move>, i: nat): Stage {
    if i < |ms| && ms[i].Advance? && ms[i].task in After(ms[..i]).tasks then After(ms[..i]).tasks[ms[i].task] else Over
  }

  /** Move `i` stores the connect flag; move `i` sends a connect. */
  ghost predicate StoresConnect(ms: seq<Move>, i: nat) { StageAt(ms, i).HasId? && StageAt(ms, i).state.Connected? }

  ghost predicate SendsConnect(ms: seq<Move>, i: nat) { StageAt(ms, i).Flagged? }

  /** Callback `k`, of a terminal state, reads the connect flag; takes the disconnect
      flag as the first to do so; sends the disconnect. */
  ghost predicate ReadsConnect(ms: seq<Move>, i: nat, k: nat) {
    i < |ms| && ms[i] == Advance(k) && StageAt(ms, i).HasId? && IsTerminal(StageAt(ms, i).state)
  }

  ghost predicate TakesDisconnect(ms: seq<Move>, i: nat, k: nat) {
    i < |ms| && ms[i] == Advance(k) && StageAt(ms, i).Loaded? && !After(ms[..i]).base.disconnectSent
  }

  ghost predicate SendsDisconnect(ms: seq<Move>, i: nat, k: nat) {
    i < |ms| && ms[i] == Advance(k) && StageAt(ms, i).Won?
  }

  ghost predicate EverStores(ms: seq<Move>) { exists i: nat :: StoresConnect(ms, i) }

  /** Some terminal callback reads the connect flag after it was stored. */
  ghost predicate ReadsAfterStore(ms: seq<Move>) {
    exists i: nat, j: nat, k: nat :: StoresConnect(ms, i) && i < j && ReadsConnect(ms, j, k)
  }

  /** No disconnect is decided and not yet sent; true when every callback is over. */
  ghost predicate Settled(s: Shared) { forall k :: k in s.tasks ==> !s.tasks[k].Loaded? && !s.tasks[k].Won? }

  /** A disconnect is sent or decided on. */
  ghost predicate Claimed(s: Shared) { s.base.disconnectSent || exists k :: k in s.tasks && s.tasks[k].Loaded? }

  lemma {:induction false} StageKept(ms: seq<Move>, n: nat, i: nat)
    requires i < n <= |ms|
    ensures StageAt(ms[..n], i) == StageAt(ms, i)
  {
    assert ms[..n][..i] == ms[..i];
  }

  lemma {:induction false} StageOfLast(ms: seq<Move>)
    requires ms != []
    ensures After(ms) == Take(After(Init(ms)), Last(ms))
    ensures StageAt(ms, |ms| - 1)
         == if Last(ms).Advance? && Last(ms).task in After(Init(ms)).tasks
            then After(Init(ms)).tasks[Last(ms).task] else Over
  {
    assert ms[..|ms| - 1] == Init(ms);
  }

  /** What one move does to the flags. */
  lemma {:induction false} FlagsTake(s: Shared, m: Move)
    ensures
      var stage := if m.Advance? && m.task in s.tasks then s.tasks[m.task] else Over;
      && (Take(s, m).base.connectSeen <==> s.base.connectSeen || (stage.HasId? && stage.state.Connected?))
      && (Claimed(Take(s, m)) <==> Claimed(s) || (stage.HasId? && IsTerminal(stage.state) && s.base.connectSeen))
  {
    hide IsSubprotocolToken;
    var t := Take(s, m);
    if m.Advance? && m.task in s.tasks {
      assert m.task in t.tasks && forall k :: k in s.tasks && k != m.task ==> k in t.tasks && t.tasks[k] == s.tasks[k];
    } else if m.Invoke? && m.task !in s.tasks {
      assert forall k :: k in s.tasks ==> k in t.tasks && t.tasks[k] == s.tasks[k];
      assert t.tasks[m.task].Invoked?;
    }
  }

  lemma {:induction false} EverStoresNext(ms: seq<Move>)
    requires ms != []
    ensures EverStores(ms) <==> EverStores(Init(ms)) || StoresConnect(ms, |ms| - 1)
  {
    hide StageAt;
    if EverStores(ms) {
      var i: nat :| StoresConnect(ms, i);
      StageBeyond(ms, i);
      if i < |ms| - 1 {
        StageKept(ms, |ms| - 1, i);
        assert StoresConnect(Init(ms), i);
      }
    }
    if EverStores(Init(ms)) {
      var i: nat :| StoresConnect(Init(ms), i);
      StageBeyond(Init(ms), i);
      StageKept(ms, |ms| - 1, i);
      assert StoresConnect(ms, i);
    }
  }

  lemma {:induction false} StageBeyond(ms: seq<Move>, i: nat)
    requires !StageAt(ms, i).Over?
    ensures i < |ms|
  {
  }

  lemma {:induction false} ReadsAfterStoreNext(ms: seq<Move>)
    requires ms != []
    ensures ReadsAfterStore(ms)
       <==> || ReadsAfterStore(Init(ms))
            || (EverStores(Init(ms)) && Last(ms).Advance? && ReadsConnect(ms, |ms| - 1, Last(ms).task))
  {
    hide StageAt;
    var n := |ms| - 1;
    if ReadsAfterStore(ms) {
      var i: nat, j: nat, k: nat :| StoresConnect(ms, i) && i < j && ReadsConnect(ms, j, k);
      StageKept(ms, n, i);
      assert StoresConnect(Init(ms), i);
      if j < n {
        StageKept(ms, n, j);
        assert ReadsConnect(Init(ms), j, k);
      }
    }
    if ReadsAfterStore(Init(ms)) {
      var i: nat, j: nat, k: nat :| StoresConnect(Init(ms), i) && i < j && ReadsConnect(Init(ms), j, k);
      StageKept(ms, n, i);
      StageKept(ms, n, j);
      assert StoresConnect(ms, i) && ReadsConnect(ms, j, k);
    }
    if EverStores(Init(ms)) && Last(ms).Advance? && ReadsConnect(ms, n, Last(ms).task) {
      var i: nat :| StoresConnect(Init(ms), i);
      StageBeyond(Init(ms), i);
      StageKept(ms, n, i);
      assert StoresConnect(ms, i);
    }
  }

  /** The flags of a run in terms of its schedule. */
  lemma {:induction false} FlagsOfSchedule(ms: seq<Move>)
    ensures After(ms).base.connectSeen <==> EverStores(ms)
    ensures Claimed(After(ms)) <==> ReadsAfterStore(ms)
    decreases |ms|
  {
    if ms == [] {
      assert forall i: nat :: StageAt(ms, i) == Over;
    } else {
      FlagsOfSchedule(Init(ms));
      FlagsTake(After(Init(ms)), Last(ms));
      StageOfLast(ms);
      EverStoresNext(ms);
      ReadsAfterStoreNext(ms);
      hide EverStores, ReadsAfterStore, Take, Claimed, After, StageAt;
    }
  }

  /** However the callbacks overlap, at most one disconnect is reported, and every
      report carries the one ID that passed the gate. Once no disconnect is under way,
      exactly one has been reported if some terminal callback read the connect flag
      after a connected one stored it, and none otherwise. */
  lemma {:induction false} AtMostOnceInterleaved(ms: seq<Move>)
    ensures
      var b := After(ms).base;
      && CountDisconnects(b.reports) <= 1
      && (CountDisconnects(b.reports) == 1 ==> ReadsAfterStore(ms))
      && (Settled(After(ms)) ==> CountDisconnects(b.reports) == if ReadsAfterStore(ms) then 1 else 0)
      && (forall i :: 0 <= i < |b.reports| ==> b.id == Some(b.reports[i].id) && IsSubprotocolToken(b.reports[i].id))
  {
    SharedInvRun(ms);
    FlagsOfSchedule(ms);
    hide ReadsAfterStore, After, CountDisconnects, IsSubprotocolToken;
  }

  // -------------------------------------------------------- which report comes first

  lemma {:induction false} ReportsTake(s: Shared, m: Move)
    ensures
      var stage := if m.Advance? && m.task in s.tasks then s.tasks[m.task] else Over;
      Take(s, m).base.reports
        == s.base.reports + if stage.Flagged? then [PeerConnected(stage.id)]
                            else if stage.Won? then [PeerDisconnected(stage.id)] else []
  {
    hide IsSubprotocolToken;
  }

  lemma {:induction false} ReportsGrow(ms: seq<Move>, n: nat)
    requires n <= |ms|
    ensures After(ms[..n]).base.reports <= After(ms).base.reports
    decreases |ms|
  {
    if n == |ms| {
      assert ms[..n] == ms;
    } else {
      assert ms[..n] == Init(ms)[..n];
      ReportsGrow(Init(ms), n);
      StageOfLast(ms);
      ReportsTake(After(Init(ms)), Last(ms));
      hide After, Take;
    }
  }

  /** Move `c` makes the first report. */
  ghost predicate FirstReport(ms: seq<Move>, c: nat) {
    && c < |ms| && After(ms[..c]).base.reports == []
    && After(ms).base.reports != []
    && (StageAt(ms, c).Flagged? || StageAt(ms, c).Won?)
    && (StageAt(ms, c).Won? <==> After(ms).base.reports[0].PeerDisconnected?)
  }

  lemma {:induction false} FirstReportExists(ms: seq<Move>) returns (c: nat)
    requires After(ms).base.reports != []
    ensures FirstReport(ms, c)
    decreases |ms|
  {
    assert ms != [];
    var n := |ms| - 1;
    StageOfLast(ms);
    ReportsTake(After(Init(ms)), Last(ms));
    assert ms[..n] == Init(ms);
    if After(Init(ms)).base.reports == [] {
      c := n;
    } else {
      c := FirstReportExists(Init(ms));
      StageKept(ms, n, c);
      assert Init(ms)[..c] == ms[..c];
    }
  }

  /** How the callback that won the disconnect flag got there. */
  ghost predicate Claims(ms: seq<Move>, i: nat, a: nat, b: nat, k: nat) {
    StoresConnect(ms, i) && i < a && ReadsConnect(ms, a, k) && a < b && TakesDisconnect(ms, b, k)
  }

  lemma {:induction false} LoadedHistory(ms: seq<Move>, k: nat) returns (i: nat, a: nat)
    requires k in After(ms).tasks && After(ms).tasks[k].Loaded?
    ensures StoresConnect(ms, i) && i < a && ReadsConnect(ms, a, k)
    decreases |ms|
  {
    assert ms != [];
    var n := |ms| - 1;
    StageOfLast(ms);
    var s := After(Init(ms));
    assert ms[..n] == Init(ms);
    if k in s.tasks && s.tasks[k].Loaded? {
      i, a := LoadedHistory(Init(ms), k);
      StageKept(ms, n, a);
    } else {
      LoadedNext(s, Last(ms), k);
      FlagsOfSchedule(Init(ms));
      i :| StoresConnect(Init(ms), i);
      a := n;
    }
    StageKept(ms, n, i);
  }

  lemma {:induction false} LoadedNext(s: Shared, m: Move, k: nat)
    requires k in Take(s, m).tasks && Take(s, m).tasks[k].Loaded? && !(k in s.tasks && s.tasks[k].Loaded?)
    ensures m == Advance(k) && k in s.tasks && s.tasks[k].HasId? && IsTerminal(s.tasks[k].state) && s.base.connectSeen
  {
    hide IsSubprotocolToken;
  }

  lemma {:induction false} WonNext(s: Shared, m: Move, k: nat)
    requires k in Take(s, m).tasks && Take(s, m).tasks[k].Won? && !(k in s.tasks && s.tasks[k].Won?)
    ensures m == Advance(k) && k in s.tasks && s.tasks[k].Loaded? && !s.base.disconnectSent
  {
    hide IsSubprotocolToken;
  }

  lemma {:induction false} WonHistory(ms: seq<Move>, k: nat) returns (i: nat, a: nat, b: nat)
    requires k in After(ms).tasks && After(ms).tasks[k].Won?
    ensures Claims(ms, i, a, b, k)
    decreases |ms|
  {
    assert ms != [];
    var n := |ms| - 1;
    StageOfLast(ms);
    var s := After(Init(ms));
    assert ms[..n] == Init(ms);
    if k in s.tasks && s.tasks[k].Won? {
      i, a, b := WonHistory(Init(ms), k);
      StageKept(ms, n, b);
      assert Init(ms)[..b] == ms[..b];
    } else {
      WonNext(s, Last(ms), k);
      i, a := LoadedHistory(Init(ms), k);
      b := n;
    }
    StageKept(ms, n, i);
    StageKept(ms, n, a);
  }

  /** A terminal callback reads the connect flag, takes the disconnect flag and sends
      its report, all between a store of the connect flag and the first connect sent. */
  ghost predicate Overtakes(ms: seq<Move>, i: nat, a: nat, b: nat, c: nat, k: nat) {
    Claims(ms, i, a, b, k) && b < c && SendsDisconnect(ms, c, k) && forall j :: 0 <= j < c ==> !SendsConnect(ms, j)
  }

  lemma {:induction false} NoConnectBefore(ms: seq<Move>, c: nat, j: nat)
    requires j < c <= |ms| && After(ms[..c]).base.reports == []
    ensures !SendsConnect(ms, j)
  {
    if SendsConnect(ms, j) {
      assert Init(ms[..j + 1]) == ms[..j] && ms[..c][..j + 1] == ms[..j + 1];
      StageOfLast(ms[..j + 1]);
      ReportsTake(After(ms[..j]), ms[j]);
      ReportsGrow(ms[..c], j + 1);
      assert false;
    }
  }

  lemma {:induction false} CountFirst(reports: seq<Report>)
    requires reports != [] && reports[0].PeerDisconnected?
    ensures CountDisconnects(reports) >= 1
    decreases |reports|
  {
    if |reports| == 1 {
    } else {
      CountFirst(Init(reports));
    }
  }

  lemma {:induction false} OvertakenReportsFirst(ms: seq<Move>, i: nat, a: nat, b: nat, c: nat, k: nat)
    requires Overtakes(ms, i, a, b, c, k)
    ensures After(ms).base.reports != [] && After(ms).base.reports[0].PeerDisconnected?
  {
    var s := After(ms[..c]);
    SharedInvRun(ms[..c]);
    if s.base.reports != [] {
      var d := FirstReportExists(ms[..c]);
      StageKept(ms, c, d);
      assert !SendsConnect(ms, d);
      CountFirst(s.base.reports);
      assert false;
    }
    assert Init(ms[..c + 1]) == ms[..c];
    StageOfLast(ms[..c + 1]);
    ReportsTake(s, ms[c]);
    ReportsGrow(ms, c + 1);
  }

  /** The first report is a disconnect exactly when a terminal callback reads, wins and
      sends between a store of the connect flag and the first connect sent. */
  lemma {:induction false} DisconnectFirstExactly(ms: seq<Move>)
    ensures After(ms).base.reports != [] && After(ms).base.reports[0].PeerDisconnected?
       <==> exists i: nat, a: nat, b: nat, c: nat, k: nat :: Overtakes(ms, i, a, b, c, k)
  {
    hide StageAt, After;
    if After(ms).base.reports != [] && After(ms).base.reports[0].PeerDisconnected? {
      var c := FirstReportExists(ms);
      StageIsOfTask(ms, c);
      var k := ms[c].task;
      var i, a, b := WonHistory(ms[..c], k);
      StageKept(ms, c, i);
      StageKept(ms, c, a);
      StageKept(ms, c, b);
      assert ms[..c][..b] == ms[..b];
      forall j | 0 <= j < c ensures !SendsConnect(ms, j) {
        NoConnectBefore(ms, c, j);
      }
      assert Overtakes(ms, i, a, b, c, k);
    }
    if i: nat, a: nat, b: nat, c: nat, k: nat :| Overtakes(ms, i, a, b, c, k) {
      OvertakenReportsFirst(ms, i, a, b, c, k);
    }
  }

  lemma {:induction false} StageIsOfTask(ms: seq<Move>, i: nat)
    requires !StageAt(ms, i).Over?
    ensures i < |ms| && ms[i].Advance?
    ensures ms[i].task in After(ms[..i]).tasks && After(ms[..i]).tasks[ms[i].task] == StageAt(ms, i)
  {
  }

  /** A callback that runs to its end without another in between. */
  function Whole(k: nat, st: PeerState): seq<Move> {
    [Invoke(k, st), Advance(k), Advance(k), Advance(k), Advance(k)]
  }

  lemma {:induction false} TakeAllAppend(s: Shared, ms: seq<Move>, ns: seq<Move>)
    ensures TakeAll(s, ms + ns) == TakeAll(TakeAll(s, ms), ns)
    decreases |ns|
  {
    hide Take;
    if ns == [] {
      assert ms + ns == ms;
    } else {
      assert Init(ms + ns) == ms + Init(ns) && Last(ms + ns) == Last(ns);
      TakeAllAppend(s, ms, Init(ns));
    }
  }

  lemma {:induction false} TakeSnoc(s: Shared, ms: seq<Move>, m: Move)
    ensures TakeAll(s, ms + [m]) == Take(TakeAll(s, ms), m)
  {
    assert Init(ms + [m]) == ms;
  }

  lemma {:induction false} TakeThree(s: Shared, a: Move, b: Move, c: Move)
    ensures TakeAll(s, [a, b, c]) == Take(Take(Take(s, a), b), c)
  {
    hide Take;
    TakeSnoc(s, [], a);
    TakeSnoc(s, [a], b);
    TakeSnoc(s, [a, b], c);
    assert [] + [a] == [a] && [a] + [b] == [a, b] && [a, b] + [c] == [a, b, c];
  }

  lemma {:induction false} TakeFour(s: Shared, a: Move, b: Move, c: Move, d: Move)
    ensures TakeAll(s, [a, b, c, d]) == Take(Take(Take(Take(s, a), b), c), d)
  {
    hide Take;
    TakeThree(s, a, b, c);
    TakeSnoc(s, [a, b, c], d);
    assert [a, b, c] + [d] == [a, b, c, d];
  }

  /** Taken one at a time, the overlapping callbacks are the serialised ones. */
  lemma {:induction false} WholeIsSerial(s: Shared, k: nat, st: PeerState)
    requires k !in s.tasks
    ensures TakeAll(s, Whole(k, st)) == Shared(Step(s.base, StateChange(st)), s.tasks[k := Over])
  {
    TakeFour(s, Invoke(k, st), Advance(k), Advance(k), Advance(k));
    TakeSnoc(s, [Invoke(k, st), Advance(k), Advance(k), Advance(k)], Advance(k));
    assert Whole(k, st) == [Invoke(k, st), Advance(k), Advance(k), Advance(k)] + [Advance(k)];
    var t := Take(Take(s, Invoke(k, st)), Advance(k));
    assert t.tasks == s.tasks[k := t.tasks[k]];
  }

  /** The same inputs as overlapping callbacks that happen not to overlap. */
  function Serialised(es: seq<Input>): seq<Move> {
    if es == [] then []
    else Serialised(Init(es)) + if Last(es).StateChange? then Whole(|es| - 1, Last(es).state) else [Outside(Last(es))]
  }

  /** The serialised machine is the overlapping one restricted to callbacks that run
      one after another, so there the first report is always a connect. */
  lemma {:induction false} SerialisedRuns(es: seq<Input>)
    ensures After(Serialised(es)).base == Run(es)
    ensures forall k :: k in After(Serialised(es)).tasks ==> k < |es|
    decreases |es|
  {
    if es == [] {
    } else {
      hide Take, Step;
      SerialisedRuns(Init(es));
      var s0 := Shared(Start(), map[]);
      var s := TakeAll(s0, Serialised(Init(es)));
      if Last(es).StateChange? {
        TakeAllAppend(s0, Serialised(Init(es)), Whole(|es| - 1, Last(es).state));
        WholeIsSerial(s, |es| - 1, Last(es).state);
      } else {
        TakeSnoc(s0, Serialised(Init(es)), Outside(Last(es)));
        OutsideIsStep(s, Last(es));
      }
    }
  }

  lemma {:induction false} OutsideIsStep(s: Shared, e: Input)
    requires !e.StateChange?
    ensures Take(s, Outside(e)) == Shared(Step(s.base, e), s.tasks)
  {
  }

  /** That the first report is a connect does depend on callbacks not overlapping:
      here a terminal callback overtakes one still waiting for its candidate pair. */
  lemma {:induction false} OvertakenConnect()
    ensures
      var id := [0x61];
      var ms := [Outside(Publish(id)), Invoke(0, Connected), Advance(0), Advance(0)]
                + Whole(1, Closed) + [Advance(0)];
      After(ms).base.reports == [PeerDisconnected(id), PeerConnected(id)]
  {
    var id: Bytes := [0x61];
    assert IsSubprotocolToken(id);
    var s0 := Shared(Start(), map[]);
    var first := [Outside(Publish(id)), Invoke(0, Connected), Advance(0), Advance(0)];
    var s1 := Take(Take(Take(Take(s0, first[0]), first[1]), first[2]), first[3]);
    TakeFour(s0, first[0], first[1], first[2], first[3]);
    assert s1.base == Start().(id := Some(id), connectSeen := true) && s1.tasks == map[0 := Flagged(id)];
    TakeAllAppend(s0, first, Whole(1, Closed));
    WholeIsSerial(s1, 1, Closed);
    var s2 := TakeAll(s1, Whole(1, Closed));
    TakeSnoc(s0, first + Whole(1, Closed), Advance(0));
  }

  /** A disconnect can also be missed: here the terminal callback reads the connect
      flag before the connected one stores it, and nothing is reported later. */
  lemma {:induction false} MissedDisconnect()
    ensures
      var id := [0x61];
      var ms := [Outside(Publish(id)), Invoke(0, Connected), Advance(0)]
                + Whole(1, Closed) + [Advance(0)] + [Advance(0)];
      && After(ms).base.reports == [PeerConnected(id)]
      && (forall k :: k in After(ms).tasks ==> After(ms).tasks[k].Over?)
  {
    var id: Bytes := [0x61];
    assert IsSubprotocolToken(id);
    var s0 := Shared(Start(), map[]);
    var first := [Outside(Publish(id)), Invoke(0, Connected), Advance(0)];
    var s1 := Take(Take(Take(s0, first[0]), first[1]), first[2]);
    TakeThree(s0, first[0], first[1], first[2]);
    assert s1.base == Start().(id := Some(id)) && s1.tasks == map[0 := HasId(Connected, id)];
    TakeAllAppend(s0, first, Whole(1, Closed));
    WholeIsSerial(s1, 1, Closed);
    TakeSnoc(s0, first + Whole(1, Closed), Advance(0));
    TakeSnoc(s0, first + Whole(1, Closed) + [Advance(0)], Advance(0));
  }
}
