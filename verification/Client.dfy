/**
 frontend/src/lib/client.ts: one WSClient among the browser's timers, sockets and
 clock. A step is one event-loop turn; callbacks do not call back into the client.
 */
module Client {
  import opened Prelude
  import opened Codec
  import opened Protocol

  const RECONNECT_DELAY: nat := 2000
  const HEARTBEAT_INTERVAL: nat := 3000
  const HEARTBEAT_TIMEOUT: nat := 5000
  const SILENCE: nat := HEARTBEAT_INTERVAL + HEARTBEAT_TIMEOUT
  const FRAME_PONG: byte := 0x0e

  datatype Phase = Connecting | Open | Closing | Closed

  datatype TimerKind = PingTimer | PongTimeout | ReconnectTimer

  datatype Timer = Timer(kind: TimerKind, due: nat)

  datatype Window = Window(now: nat, sockets: seq<Phase>, pending: map<nat, Timer>, next: nat)

  /**
   heartbeatTimer, heartbeatTimeout and reconnectTimer are handles: a handle may
   outlive its timer. wasOpened holds the sockets whose open event came,
   validating those whose close handler is waiting for /validate. The last three
   fields are history: when the latest open event or decoded frame came, whether
   connect() was called after the last disconnect(), and whether an auth error has
   been reported since the last connect().
   */
  datatype State = State(
    w: Window,
    ws: Option<nat>,
    heartbeatTimer: Option<nat>,
    heartbeatTimeout: Option<nat>,
    awaitingPong: bool,
    reconnectTimer: Option<nat>,
    shouldReconnect: bool,
    wasOpened: set<nat>,
    validating: set<nat>,
    last: nat,
    started: bool,
    rejected: bool)

  const START: State :=
    State(Window(0, [], map[], 0), None, None, None, false, None, true, {}, {}, 0, false, false)

  // ---------------------------------------------------------------------
  // The browser

  function SetTimeoutIn(w: Window, kind: TimerKind, delay: nat): Window
  {
    w.(pending := w.pending[w.next := Timer(kind, w.now + delay)], next := w.next + 1)
  }

  function ClearIn(w: Window, handle: Option<nat>): Window
  {
    if handle.Some? then w.(pending := w.pending - {handle.value}) else w
  }

  function CloseIn(w: Window, i: nat): Window
  {
    if i < |w.sockets| && (w.sockets[i].Connecting? || w.sockets[i].Open?)
    then w.(sockets := w.sockets[i := Closing]) else w
  }

  // ---------------------------------------------------------------------
  // The client

  predicate SocketOpen(c: State)
  {
    c.ws.Some? && c.ws.value < |c.w.sockets| && c.w.sockets[c.ws.value].Open?
  }

  function StopHeartbeatIn(c: State): State
  {
    c.(w := ClearIn(ClearIn(c.w, c.heartbeatTimer), c.heartbeatTimeout),
       heartbeatTimer := None, heartbeatTimeout := None, awaitingPong := false)
  }

  function StartHeartbeatIn(c: State): State
  {
    var s := StopHeartbeatIn(c);
    s.(w := SetTimeoutIn(s.w, PingTimer, HEARTBEAT_INTERVAL), heartbeatTimer := Some(s.w.next))
  }

  function HandlePongIn(c: State): State
  {
    StartHeartbeatIn(c.(w := ClearIn(c.w, c.heartbeatTimeout), heartbeatTimeout := None, awaitingPong := false))
  }

  function OpenSocketIn(c: State): State
  {
    if c.ws.Some? then c
    else c.(w := c.w.(sockets := c.w.sockets + [Connecting]), ws := Some(|c.w.sockets|))
  }

  function ConnectIn(c: State): State
  {
    OpenSocketIn(c.(shouldReconnect := true, started := true, rejected := false))
  }

  function ScheduleReconnectIn(c: State): State
  {
    c.(w := SetTimeoutIn(c.w, ReconnectTimer, RECONNECT_DELAY), reconnectTimer := Some(c.w.next))
  }

  function DisconnectIn(c: State): State
  {
    var w := ClearIn(c.w, c.reconnectTimer);
    StopHeartbeatIn(c.(w := if c.ws.Some? then CloseIn(w, c.ws.value) else w, ws := None,
                       reconnectTimer := None, shouldReconnect := false, started := false))
  }

  function OnOpenIn(c: State, i: nat): State
  {
    StartHeartbeatIn(c.(wasOpened := c.wasOpened + {i}, last := c.w.now))
  }

  /** A message that does not decode is logged and otherwise ignored. */
  function OnMessageIn(c: State, data: seq<byte>): State
  {
    match DecodeFrame(data)
    case Success(f) =>
      var c' := c.(last := c.w.now);
      if f.typ == FRAME_PONG then HandlePongIn(c') else StartHeartbeatIn(c')
    case Failure(_) => c
  }

  /** The close handler up to its await. */
  function OnCloseIn(c: State, i: nat): State
  {
    var c' := StopHeartbeatIn(c.(ws := None));
    if !c.shouldReconnect then c'
    else if i !in c.wasOpened then c'.(validating := c'.validating + {i})
    else ScheduleReconnectIn(c')
  }

  /** The close handler after /validate answered 401, or anything else. */
  function OnValidatedIn(c: State, i: nat, unauthorized: bool): State
  {
    var c' := c.(validating := c.validating - {i});
    if unauthorized then c'.(shouldReconnect := false, rejected := true) else ScheduleReconnectIn(c')
  }

  function OnTimerIn(c: State, kind: TimerKind): State
  {
    match kind
    case PingTimer =>
      if !SocketOpen(c) then c
      else c.(awaitingPong := true, w := SetTimeoutIn(c.w, PongTimeout, HEARTBEAT_TIMEOUT),
              heartbeatTimeout := Some(c.w.next))
    case PongTimeout =>
      if !c.awaitingPong then c
      else c.(awaitingPong := false, w := if SocketOpen(c) then CloseIn(c.w, c.ws.value) else c.w)
    case ReconnectTimer => OpenSocketIn(c.(reconnectTimer := None))
  }

  // ---------------------------------------------------------------------
  // Runs

  datatype Step =
    | Connect
    | Disconnect
    | Opened(i: nat)
    | Message(i: nat, data: seq<byte>)
    | PeerCloses(i: nat)                        // the server starts the closing handshake
    | CloseEvent(i: nat)
    | Validated(i: nat, unauthorized: bool)
    | Fire(t: nat)
    | Tick(ms: nat)

  /** Time never passes a pending timer; messages reach open sockets only. */
  predicate Enabled(c: State, step: Step)
  {
    match step
    case Connect => true
    case Disconnect => true
    case Opened(i) => i < |c.w.sockets| && c.w.sockets[i].Connecting?
    case Message(i, _) => i < |c.w.sockets| && c.w.sockets[i].Open?
    case PeerCloses(i) => i < |c.w.sockets| && c.w.sockets[i].Open?
    case CloseEvent(i) => i < |c.w.sockets| && !c.w.sockets[i].Closed?
    case Validated(i, _) => i in c.validating
    case Fire(t) => t in c.w.pending && c.w.pending[t].due == c.w.now
    case Tick(ms) => forall t | t in c.w.pending :: c.w.now + ms <= c.w.pending[t].due
  }

  function Put(c: State, i: nat, p: Phase): State
    requires i < |c.w.sockets|
  {
    c.(w := c.w.(sockets := c.w.sockets[i := p]))
  }

  function Fired(c: State, t: nat): State
  {
    c.(w := c.w.(pending := c.w.pending - {t}))
  }

  /** A disabled step changes nothing. */
  function Apply(c: State, step: Step): State
  {
    if !Enabled(c, step) then c
    else match step
      case Connect => ConnectIn(c)
      case Disconnect => DisconnectIn(c)
      case Opened(i) => OnOpenIn(Put(c, i, Open), i)
      case Message(i, data) => OnMessageIn(c, data)
      case PeerCloses(i) => Put(c, i, Closing)
      case CloseEvent(i) => OnCloseIn(Put(c, i, Closed), i)
      case Validated(i, unauthorized) => OnValidatedIn(c, i, unauthorized)
      case Fire(t) => OnTimerIn(Fired(c, t), c.w.pending[t].kind)
      case Tick(ms) => c.(w := c.w.(now := c.w.now + ms))
  }

  function RunFrom(c: State, run: seq<Step>): State
  {
    if run == [] then c else Apply(RunFrom(c, run[..|run| - 1]), run[|run| - 1])
  }

  /**
   What a caller has to respect: connect() only when no socket given up by an earlier
   disconnect() is still closing, and disconnect() only when no /validate request is
   in flight and the one reconnect timer pending, if any, is the latest.
   */
  predicate Permitted(c: State, step: Step)
  {
    match step
    case Connect => forall i | 0 <= i < |c.w.sockets| :: !c.w.sockets[i].Closed? ==> c.ws == Some(i)
    case Disconnect => Settled(c)
    case _ => true
  }

  predicate Settled(c: State)
  {
    && c.validating == {}
    && forall t | t in c.w.pending :: c.w.pending[t].kind.ReconnectTimer? ==> c.reconnectTimer == Some(t)
  }

  predicate Patient(run: seq<Step>)
  {
    run == [] || (Patient(run[..|run| - 1]) && Permitted(RunFrom(START, run[..|run| - 1]), run[|run| - 1]))
  }

  // ---------------------------------------------------------------------
  // The classes

  class BrowserWindow {
    var now: nat
    var sockets: seq<Phase>
    var pending: map<nat, Timer>
    var next: nat

    ghost function View(): Window
      reads this
    {
      Window(now, sockets, pending, next)
    }

    constructor ()
      ensures View() == START.w
    {
      now, sockets, pending, next := 0, [], map[], 0;
    }

    method SetTimeout(kind: TimerKind, delay: nat) returns (handle: nat)
      modifies this
      ensures View() == SetTimeoutIn(old(View()), kind, delay) && handle == old(next)
    {
      handle := next;
      pending := pending[next := Timer(kind, now + delay)];
      next := next + 1;
    }

    method ClearTimeout(handle: nat)
      modifies this
      ensures View() == ClearIn(old(View()), Some(handle))
    {
      pending := pending - {handle};
    }

    method NewSocket() returns (i: nat)
      modifies this
      ensures View() == old(View()).(sockets := old(sockets) + [Connecting]) && i == |old(sockets)|
    {
      i := |sockets|;
      sockets := sockets + [Connecting];
    }

    method Close(i: nat)
      modifies this
      ensures View() == CloseIn(old(View()), i)
    {
      if i < |sockets| && (sockets[i] == Connecting || sockets[i] == Open) {
        sockets := sockets[i := Closing];
      }
    }
  }

  /** The client; wasOpened and validating are the state of the socket handlers'
      closures, the ghost fields the history. */
  class WSClient {
    const window: BrowserWindow
    var ws: Option<nat>
    var heartbeatTimer: Option<nat>
    var heartbeatTimeout: Option<nat>
    var awaitingPong: bool
    var reconnectTimer: Option<nat>
    var shouldReconnect: bool
    var wasOpened: set<nat>
    var validating: set<nat>
    ghost var last: nat
    ghost var started: bool
    ghost var rejected: bool

    ghost function View(): State
      reads this, window
    {
      State(window.View(), ws, heartbeatTimer, heartbeatTimeout, awaitingPong, reconnectTimer, shouldReconnect,
            wasOpened, validating, last, started, rejected)
    }

    constructor (window: BrowserWindow)
      requires window.View() == START.w
      ensures View() == START && this.window == window
    {
      this.window := window;
      ws, heartbeatTimer, heartbeatTimeout, reconnectTimer := None, None, None, None;
      awaitingPong, shouldReconnect, wasOpened, validating := false, true, {}, {};
      last, started, rejected := 0, false, false;
    }

    method Connect()
      modifies this, window
      ensures View() == ConnectIn(old(View()))
    {
      shouldReconnect := true;
      started, rejected := true, false;
      OpenSocket();
    }

    method OpenSocket()
      modifies this, window
      ensures View() == OpenSocketIn(old(View()))
    {
      if ws.Some? {
        return;
      }
      var i := window.NewSocket();
      ws := Some(i);
    }

    method StopHeartbeat()
      modifies this, window
      ensures View() == StopHeartbeatIn(old(View()))
    {
      if heartbeatTimer.Some? {
        window.ClearTimeout(heartbeatTimer.value);
        heartbeatTimer := None;
      }
      if heartbeatTimeout.Some? {
        window.ClearTimeout(heartbeatTimeout.value);
        heartbeatTimeout := None;
      }
      awaitingPong := false;
    }

    method StartHeartbeat()
      modifies this, window
      ensures View() == StartHeartbeatIn(old(View()))
    {
      StopHeartbeat();
      awaitingPong := false;
      var handle := window.SetTimeout(PingTimer, HEARTBEAT_INTERVAL);
      heartbeatTimer := Some(handle);
    }

    method HandlePong()
      modifies this, window
      ensures View() == HandlePongIn(old(View()))
    {
      awaitingPong := false;
      if heartbeatTimeout.Some? {
        window.ClearTimeout(heartbeatTimeout.value);
        heartbeatTimeout := None;
      }
      StartHeartbeat();
    }

    method Disconnect()
      modifies this, window
      ensures View() == DisconnectIn(old(View()))
    {
      shouldReconnect := false;
      started := false;
      if reconnectTimer.Some? {
        window.ClearTimeout(reconnectTimer.value);
        reconnectTimer := None;
      }
      if ws.Some? {
        window.Close(ws.value);
        ws := None;
      }
      StopHeartbeat();
    }

    method OnOpen(i: nat)
      modifies this, window
      ensures View() == OnOpenIn(old(View()), i)
    {
      wasOpened := wasOpened + {i};
      last := window.now;
      StartHeartbeat();
    }

    method OnMessage(data: seq<byte>)
      modifies this, window
      ensures View() == OnMessageIn(old(View()), data)
    {
      match DecodeFrame(data) {
        case Failure(_) =>
        case Success(frame) =>
          last := window.now;
          if frame.typ == FRAME_PONG {
            HandlePong();
            return;
          }
          StartHeartbeat();
      }
    }

    method OnClose(i: nat)
      modifies this, window
      ensures View() == OnCloseIn(old(View()), i)
    {
      ws := None;
      StopHeartbeat();
      if !shouldReconnect {
        return;
      }
      if i !in wasOpened {
        validating := validating + {i};
        return;
      }
      ScheduleReconnect();
    }

    method ScheduleReconnect()
      modifies this, window
      ensures View() == ScheduleReconnectIn(old(View()))
    {
      var handle := window.SetTimeout(ReconnectTimer, RECONNECT_DELAY);
      reconnectTimer := Some(handle);
    }

    method OnValidated(i: nat, unauthorized: bool)
      modifies this, window
      ensures View() == OnValidatedIn(old(View()), i, unauthorized)
    {
      validating := validating - {i};
      if unauthorized {
        shouldReconnect := false;
        rejected := true;
        return;
      }
      ScheduleReconnect();
    }

    method SocketIsOpen() returns (isOpen: bool)
      ensures isOpen == SocketOpen(View())
    {
      isOpen := ws.Some? && ws.value < |window.sockets| && window.sockets[ws.value] == Open;
    }

    method OnPingTimer()
      modifies this, window
      ensures View() == OnTimerIn(old(View()), PingTimer)
    {
      var isOpen := SocketIsOpen();
      if !isOpen {
        return;
      }
      awaitingPong := true;
      var handle := window.SetTimeout(PongTimeout, HEARTBEAT_TIMEOUT);
      heartbeatTimeout := Some(handle);
    }

    method OnPongTimeout()
      modifies this, window
      ensures View() == OnTimerIn(old(View()), PongTimeout)
    {
      if !awaitingPong {
        return;
      }
      awaitingPong := false;
      var isOpen := SocketIsOpen();
      if isOpen {
        window.Close(ws.value);
      }
    }

    method OnReconnectTimer()
      modifies this, window
      ensures View() == OnTimerIn(old(View()), ReconnectTimer)
    {
      reconnectTimer := None;
      OpenSocket();
    }

    /** One turn of the event loop: what the browser does, then the handler. */
    method Turn(step: Step)
      requires Enabled(View(), step)
      modifies this, window
      ensures View() == Apply(old(View()), step)
    {
      match step {
        case Connect => Connect();
        case Disconnect => Disconnect();
        case Opened(i) =>
          window.sockets := window.sockets[i := Open];
          OnOpen(i);
        case Message(i, data) => OnMessage(data);
        case PeerCloses(i) => window.sockets := window.sockets[i := Closing];
        case CloseEvent(i) =>
          window.sockets := window.sockets[i := Closed];
          OnClose(i);
        case Validated(i, unauthorized) => OnValidated(i, unauthorized);
        case Fire(t) =>
          var kind := window.pending[t].kind;
          window.ClearTimeout(t);
          match kind {
            case PingTimer => OnPingTimer();
            case PongTimeout => OnPongTimeout();
            case ReconnectTimer => OnReconnectTimer();
          }
        case Tick(ms) => window.now := window.now + ms;
      }
    }
  }

  // ---------------------------------------------------------------------
  // The invariant

  ghost predicate Timely(c: State)
  {
    forall t | t in c.w.pending :: t < c.w.next && c.w.now <= c.w.pending[t].due
  }

  ghost predicate Beats(w: Window, t: nat)
  {
    t in w.pending && !w.pending[t].kind.ReconnectTimer?
  }

  /** At most one live heartbeat timer: the one its handle names. */
  ghost predicate OneBeat(c: State)
  {
    && (forall t | Beats(c.w, t) ::
          c.w.pending[t].kind.PingTimer? ==> c.heartbeatTimer == Some(t) && !c.awaitingPong)
    && (forall t | Beats(c.w, t) ::
          c.w.pending[t].kind.PongTimeout? ==> c.heartbeatTimeout == Some(t) && c.awaitingPong)
  }

  ghost predicate NoBeat(c: State)
  {
    forall t | t in c.w.pending :: c.w.pending[t].kind.ReconnectTimer?
  }

  /** While the socket is open the next heartbeat timer is due a fixed time after
      the last activity. */
  ghost predicate Guarded(c: State)
  {
    SocketOpen(c) ==>
      if c.awaitingPong
      then c.heartbeatTimeout.Some? && c.heartbeatTimeout.value in c.w.pending
           && c.w.pending[c.heartbeatTimeout.value] == Timer(PongTimeout, c.last + SILENCE)
      else c.heartbeatTimer.Some? && c.heartbeatTimer.value in c.w.pending
           && c.w.pending[c.heartbeatTimer.value] == Timer(PingTimer, c.last + HEARTBEAT_INTERVAL)
  }

  ghost predicate AtMostOne(sockets: seq<Phase>)
  {
    forall i, j | 0 <= i < j < |sockets| :: sockets[i].Closed? || sockets[j].Closed?
  }

  ghost predicate OneSocket(c: State)
  {
    && (c.ws.Some? ==> c.ws.value < |c.w.sockets| && !c.w.sockets[c.ws.value].Closed? && c.started)
    && (forall i | 0 <= i < |c.w.sockets| :: !c.w.sockets[i].Closed? ==>
          c.ws == Some(i) || (c.ws.None? && !c.started && c.w.sockets[i].Closing?))
    && AtMostOne(c.w.sockets)
  }

  /** A started client has a socket, or is about to get one, or was rejected. */
  ghost predicate Alive(c: State)
  {
    && (c.started ==>
          (c.rejected <==> !c.shouldReconnect)
          && (c.shouldReconnect ==>
                || c.ws.Some? || c.validating != {}
                || exists t :: t in c.w.pending && c.w.pending[t].kind.ReconnectTimer?))
    && (!c.started ==>
          c.validating == {} && (forall t | t in c.w.pending :: !c.w.pending[t].kind.ReconnectTimer?)
          && (c.shouldReconnect ==> c.w.sockets == []))
  }

  /** A handle names a timer of its own kind, or none that is pending. */
  ghost predicate Names(w: Window, handle: Option<nat>, kind: TimerKind)
  {
    handle.Some? ==> handle.value < w.next && (handle.value in w.pending ==> w.pending[handle.value].kind == kind)
  }

  ghost predicate Handles(c: State)
  {
    && Names(c.w, c.heartbeatTimer, PingTimer)
    && Names(c.w, c.heartbeatTimeout, PongTimeout)
    && Names(c.w, c.reconnectTimer, ReconnectTimer)
  }

  ghost predicate Inv(c: State)
  {
    Timely(c) && Handles(c) && OneBeat(c) && (c.ws.None? ==> NoBeat(c)) && Guarded(c) && OneSocket(c) && Alive(c)
  }

  /** Stopping the heartbeat leaves exactly the reconnect timers. */
  lemma Stopped(c: State)
    requires Timely(c) && Handles(c) && OneBeat(c)
    ensures var r := StopHeartbeatIn(c);
            && Timely(r) && Handles(r) && OneBeat(r)
            && NoBeat(r)
            && r == c.(w := c.w.(pending := r.w.pending), heartbeatTimer := None, heartbeatTimeout := None,
                       awaitingPong := false)
            && (forall t | t in r.w.pending :: t in c.w.pending && r.w.pending[t] == c.w.pending[t])
            && (forall t | t in c.w.pending && c.w.pending[t].kind.ReconnectTimer? :: t in r.w.pending)
  {
  }

  lemma Started(c: State)
    requires Timely(c) && Handles(c) && OneBeat(c) && c.ws.Some? && c.last == c.w.now
    ensures var r := StartHeartbeatIn(c);
            && Timely(r) && Handles(r) && OneBeat(r) && Guarded(r)
            && r == c.(w := c.w.(pending := r.w.pending, next := r.w.next), heartbeatTimer := r.heartbeatTimer,
                       heartbeatTimeout := r.heartbeatTimeout, awaitingPong := r.awaitingPong)
            && (forall t | t in c.w.pending && c.w.pending[t].kind.ReconnectTimer? :: t in r.w.pending)
            && (forall t | t in r.w.pending && r.w.pending[t].kind.ReconnectTimer? :: t in c.w.pending)
  {
    Stopped(c);
    hide StopHeartbeatIn;
  }

  lemma StepKeepsInv(c: State, step: Step)
    requires Inv(c) && Permitted(c, step) && Enabled(c, step)
    ensures Inv(Apply(c, step))
  {
    hide Timely, Handles, OneBeat, Guarded, OneSocket, Alive, StopHeartbeatIn, StartHeartbeatIn;
    match step
    case Connect => ConnectKeepsInv(c);
    case Disconnect => DisconnectKeepsInv(c);
    case Opened(i) => OpenedKeepsInv(c, i);
    case Message(i, data) => MessageKeepsInv(c, i, data);
    case PeerCloses(i) => PeerClosesKeepsInv(c, i);
    case CloseEvent(i) => CloseEventKeepsInv(c, i);
    case Validated(i, unauthorized) => ValidatedKeepsInv(c, i, unauthorized);
    case Fire(t) => FireKeepsInv(c, t);
    case Tick(ms) => TickKeepsInv(c, ms);
  }

  lemma SamePending(c: State, c': State)
    requires Timely(c) && OneBeat(c) && Handles(c)
    requires c'.w == c.w.(sockets := c'.w.sockets) && c'.awaitingPong == c.awaitingPong
    requires c'.heartbeatTimer == c.heartbeatTimer && c'.heartbeatTimeout == c.heartbeatTimeout
    requires c'.reconnectTimer == c.reconnectTimer
    ensures Timely(c') && OneBeat(c') && Handles(c')
  {
  }

  lemma Cleared(c: State)
    requires Timely(c) && OneBeat(c) && Handles(c)
    ensures var r := c.(w := ClearIn(c.w, c.reconnectTimer), reconnectTimer := None);
            Timely(r) && OneBeat(r) && Handles(r)
  {
  }

  /** Scheduling a reconnect keeps a started client alive. */
  lemma Scheduled(c: State)
    requires Timely(c) && Handles(c) && OneBeat(c) && (c.ws.None? ==> NoBeat(c)) && Guarded(c)
    requires c.started && (c.rejected <==> !c.shouldReconnect)
    ensures var r := ScheduleReconnectIn(c);
            Timely(r) && Handles(r) && OneBeat(r) && (r.ws.None? ==> NoBeat(r)) && Guarded(r) && Alive(r)
  {
    var r := ScheduleReconnectIn(c);
    assert c.w.next in r.w.pending && r.w.pending[c.w.next].kind.ReconnectTimer?;
  }

  lemma ConnectKeepsInv(c: State)
    requires Inv(c) && Permitted(c, Connect)
    ensures Inv(ConnectIn(c))
  {
  }

  lemma DisconnectKeepsInv(c: State)
    requires Inv(c) && Settled(c)
    ensures Inv(DisconnectIn(c))
  {
    hide StopHeartbeatIn, Timely, OneBeat, Handles;
    var c1 := c.(w := ClearIn(c.w, c.reconnectTimer), reconnectTimer := None);
    assert Timely(c1) && OneBeat(c1) && Handles(c1) by { Cleared(c); }
    assert forall t | t in c1.w.pending :: !c1.w.pending[t].kind.ReconnectTimer?;
    var c2 := c1.(w := if c.ws.Some? then CloseIn(c1.w, c.ws.value) else c1.w, ws := None,
                  shouldReconnect := false, started := false);
    SamePending(c1, c2);
    Stopped(c2);
    OneGivenUp(c, c2);
    hide OneSocket;
  }

  lemma OneGivenUp(c: State, r: State)
    requires OneSocket(c) && r.ws == None && !r.started
    requires r.w.sockets == if c.ws.Some? then CloseIn(c.w, c.ws.value).sockets else c.w.sockets
    ensures OneSocket(r)
  {
  }

  lemma OpenedKeepsInv(c: State, i: nat)
    requires Inv(c) && Enabled(c, Opened(i))
    ensures Inv(Apply(c, Opened(i)))
  {
    hide StartHeartbeatIn;
    Started(Put(c, i, Open).(wasOpened := c.wasOpened + {i}, last := c.w.now));
  }

  lemma MessageKeepsInv(c: State, i: nat, data: seq<byte>)
    requires Inv(c) && Enabled(c, Message(i, data))
    ensures Inv(Apply(c, Message(i, data)))
  {
    hide StartHeartbeatIn, DecodeFrame;
    var c' := c.(last := c.w.now);
    Started(c');
    PongIsActivity(c');
  }

  lemma PongIsActivity(c: State)
    ensures HandlePongIn(c) == StartHeartbeatIn(c)
  {
  }

  lemma PeerClosesKeepsInv(c: State, i: nat)
    requires Inv(c) && Enabled(c, PeerCloses(i))
    ensures Inv(Apply(c, PeerCloses(i)))
  {
  }

  lemma CloseEventKeepsInv(c: State, i: nat)
    requires Inv(c) && Enabled(c, CloseEvent(i))
    ensures Inv(Apply(c, CloseEvent(i)))
  {
    hide StopHeartbeatIn, Timely, OneBeat, Handles;
    var c1 := Put(c, i, Closed).(ws := None);
    assert Timely(c1) && OneBeat(c1) && Handles(c1) by { SamePending(c, c1); }
    Stopped(c1);
    var c2 := StopHeartbeatIn(c1);
    assert OneSocket(c2);
    if c.shouldReconnect && i in c.wasOpened {
      Scheduled(c2);
    } else {
      SamePending(c2, Apply(c, CloseEvent(i)));
    }
  }

  lemma ValidatedKeepsInv(c: State, i: nat, unauthorized: bool)
    requires Inv(c) && Enabled(c, Validated(i, unauthorized))
    ensures Inv(Apply(c, Validated(i, unauthorized)))
  {
  }

  lemma FireKeepsInv(c: State, t: nat)
    requires Inv(c) && Enabled(c, Fire(t))
    ensures Inv(Apply(c, Fire(t)))
  {
    hide Inv, OnTimerIn;
    match c.w.pending[t].kind
    case PingTimer => PingKeepsInv(c, t);
    case PongTimeout => PongKeepsInv(c, t);
    case ReconnectTimer => ReconnectKeepsInv(c, t);
  }

  lemma PingKeepsInv(c: State, t: nat)
    requires Inv(c) && Enabled(c, Fire(t)) && c.w.pending[t].kind.PingTimer?
    ensures Inv(OnTimerIn(Fired(c, t), PingTimer))
  {
    assert NoBeat(Fired(c, t));
  }

  lemma PongKeepsInv(c: State, t: nat)
    requires Inv(c) && Enabled(c, Fire(t)) && c.w.pending[t].kind.PongTimeout?
    ensures Inv(OnTimerIn(Fired(c, t), PongTimeout))
  {
    assert NoBeat(Fired(c, t));
  }

  lemma ReconnectKeepsInv(c: State, t: nat)
    requires Inv(c) && Enabled(c, Fire(t)) && c.w.pending[t].kind.ReconnectTimer?
    ensures Inv(OnTimerIn(Fired(c, t), ReconnectTimer))
  {
    assert c.started;
  }

  lemma TickKeepsInv(c: State, ms: nat)
    requires Inv(c) && Enabled(c, Tick(ms))
    ensures Inv(Apply(c, Tick(ms)))
  {
  }

  // ---------------------------------------------------------------------
  // What a patient caller gets

  lemma {:induction false} PatientKeepsInv(run: seq<Step>)
    requires Patient(run)
    ensures Inv(RunFrom(START, run))
  {
    if run == [] {
      assert Inv(START);
    } else {
      hide Inv, Permitted;
      var front, step := run[..|run| - 1], run[|run| - 1];
      PatientKeepsInv(front);
      var c := RunFrom(START, front);
      if Enabled(c, step) {
        StepKeepsInv(c, step);
      } else {
        assert Apply(c, step) == c;
      }
    }
  }

  ghost predicate Unused(c: State)
  {
    c.w.sockets == [] && c.w.pending == map[] && c.validating == {}
  }

  /** Before the first disconnect() every caller is patient, however often it calls
      connect(). */
  lemma {:induction false} PatientUntilDisconnect(run: seq<Step>)
    requires Disconnect !in run
    ensures Patient(run)
  {
    if run != [] {
      var front, step := run[..|run| - 1], run[|run| - 1];
      assert step in run && forall x | x in front :: x in run;
      PatientUntilDisconnect(front);
      PatientKeepsInv(front);
      UntilDisconnect(front);
    }
  }

  /** Without disconnect() nothing is ever given up. */
  lemma {:induction false} UntilDisconnect(run: seq<Step>)
    requires Disconnect !in run
    ensures RunFrom(START, run).started || Unused(RunFrom(START, run))
  {
    if run != [] {
      assert run[|run| - 1] in run && forall x | x in run[..|run| - 1] :: x in run;
      UntilDisconnect(run[..|run| - 1]);
      var c := RunFrom(START, run[..|run| - 1]);
      if c.started {
        StaysStarted(c, run[|run| - 1]);
      } else {
        UnusedUntilConnect(c, run[|run| - 1]);
      }
    }
  }

  lemma UnusedUntilConnect(c: State, step: Step)
    requires Unused(c)
    ensures Apply(c, step).started || Unused(Apply(c, step))
  {
    if step == Disconnect {
      assert c.w.pending == map[];
    }
  }

  /** The heartbeat: while the client's socket is open it has been silent for at most
      eight seconds, and there is exactly one live heartbeat timer. */
  lemma HeartbeatBound(run: seq<Step>)
    requires Patient(run)
    ensures var c := RunFrom(START, run);
            && (forall i | 0 <= i < |c.w.sockets| && c.w.sockets[i].Open? ::
                  c.ws == Some(i) && c.w.now <= c.last + 8000
                  && (exists t :: Beats(c.w, t) && c.w.pending[t].due ==
                                    c.last + if c.awaitingPong then 8000 else 3000))
            && (forall t, u | Beats(c.w, t) && Beats(c.w, u) :: t == u)
  {
    PatientKeepsInv(run);
    var c := RunFrom(START, run);
    if SocketOpen(c) {
      var t := if c.awaitingPong then c.heartbeatTimeout.value else c.heartbeatTimer.value;
      assert Beats(c.w, t);
    }
  }

  /** A timer that fires closes an open socket exactly when it is the pong timeout, and
      then the silence has lasted exactly eight seconds. */
  lemma HeartbeatClosesAtExactly(run: seq<Step>, t: nat)
    requires Patient(run) && Enabled(RunFrom(START, run), Fire(t))
    ensures var c := RunFrom(START, run);
            var c' := Apply(c, Fire(t));
            (exists i :: 0 <= i < |c.w.sockets| && c.w.sockets[i].Open? && !c'.w.sockets[i].Open?)
            <==> c.w.pending[t].kind.PongTimeout? && SocketOpen(c) && c.w.now == c.last + 8000
  {
    PatientKeepsInv(run);
    hide RunFrom;
    var c := RunFrom(START, run);
    if c.w.pending[t].kind.PongTimeout? && SocketOpen(c) {
      assert c.awaitingPong;
      assert c.w.sockets[c.ws.value].Open?;
    }
  }

  /** At most one socket is not closed; it is the client's own unless disconnect() gave
      it up, and then it is closing and the client wants no other. */
  lemma AtMostOneSocket(run: seq<Step>)
    requires Patient(run)
    ensures var c := RunFrom(START, run);
            && AtMostOne(c.w.sockets)
            && (forall i | 0 <= i < |c.w.sockets| :: !c.w.sockets[i].Closed? ==>
                  c.ws == Some(i) || (c.w.sockets[i].Closing? && !c.started))
            && (c.ws.Some? ==> c.ws.value < |c.w.sockets| && !c.w.sockets[c.ws.value].Closed?)
  {
    PatientKeepsInv(run);
  }

  /** No reconnect is lost: a started client has a socket, a reconnect timer or a
      validation in flight, or has been rejected since its last connect(). */
  lemma NeverStranded(run: seq<Step>)
    requires Patient(run)
    ensures var c := RunFrom(START, run);
            c.started ==>
              || c.ws.Some? || c.validating != {} || c.rejected
              || exists t :: t in c.w.pending && c.w.pending[t].kind.ReconnectTimer?
  {
    PatientKeepsInv(run);
  }

  /** When the latest open event or decodable message came. */
  function LatestActivity(run: seq<Step>): nat
  {
    if run == [] then 0
    else
      var front, step := run[..|run| - 1], run[|run| - 1];
      if Enabled(RunFrom(START, front), step)
         && (step.Opened? || (step.Message? && DecodeFrame(step.data).Success?))
      then RunFrom(START, front).w.now
      else LatestActivity(front)
  }

  /** Only open events and messages that decode count as activity, in any run. */
  lemma {:induction false} LastIsLatest(run: seq<Step>)
    ensures RunFrom(START, run).last == LatestActivity(run)
  {
    hide DecodeFrame;
    if run != [] {
      LastIsLatest(run[..|run| - 1]);
      LastAfter(RunFrom(START, run[..|run| - 1]), run[|run| - 1]);
      hide Apply, Enabled;
    }
  }

  lemma LastAfter(c: State, step: Step)
    ensures Apply(c, step).last ==
              if Enabled(c, step) && (step.Opened? || (step.Message? && DecodeFrame(step.data).Success?))
              then c.w.now else c.last
  {
    hide DecodeFrame;
  }

  /** The open event of socket i came during the run. */
  predicate OpenedDuring(run: seq<Step>, i: nat)
  {
    run != []
    && (OpenedDuring(run[..|run| - 1], i)
        || (run[|run| - 1] == Opened(i) && Enabled(RunFrom(START, run[..|run| - 1]), Opened(i))))
  }

  lemma {:induction false} OpenedIsKnown(run: seq<Step>, i: nat)
    ensures i in RunFrom(START, run).wasOpened <==> OpenedDuring(run, i)
  {
    if run != [] {
      OpenedIsKnown(run[..|run| - 1], i);
      OpenedAfter(RunFrom(START, run[..|run| - 1]), run[|run| - 1]);
      hide Apply, Enabled;
    }
  }

  lemma OpenedAfter(c: State, step: Step)
    ensures Apply(c, step).wasOpened ==
              if Enabled(c, step) && step.Opened? then c.wasOpened + {step.i} else c.wasOpened
  {
    hide DecodeFrame;
  }

  /** A client that wants connections asks /validate exactly about the sockets that close
      unopened; a socket that had opened is to be replaced in two seconds. */
  lemma ClosesExactly(run: seq<Step>, i: nat)
    requires Enabled(RunFrom(START, run), CloseEvent(i)) && RunFrom(START, run).shouldReconnect
    ensures var c := RunFrom(START, run);
            var c' := RunFrom(START, run + [CloseEvent(i)]);
            && c'.ws.None?
            && c'.validating == (if OpenedDuring(run, i) then c.validating else c.validating + {i})
            && (OpenedDuring(run, i) <==>
                  exists t :: t in c'.w.pending && t !in c.w.pending
                              && c'.w.pending[t] == Timer(ReconnectTimer, c.w.now + 2000))
  {
    assert (run + [CloseEvent(i)])[..|run|] == run;
    OpenedIsKnown(run, i);
    AnyRunTimely(run);
    var c := RunFrom(START, run);
    hide RunFrom, OpenedDuring;
    StepTimely(c, CloseEvent(i));
    if i in c.wasOpened {
      assert c.w.next in Apply(c, CloseEvent(i)).w.pending;
    }
  }

  // ---------------------------------------------------------------------
  // When connect() keeps to one socket

  /** At most one socket is unclosed now and after every later run without
      disconnect(). */
  ghost predicate OneForEver(c: State)
  {
    forall run :: Disconnect !in run ==> AtMostOne(RunFrom(c, run).w.sockets)
  }

  /** In any run, connect() keeps to one socket for ever exactly when every socket that is
      not closed is the client's own. */
  lemma ConnectKeepsOneExactly(run: seq<Step>)
    ensures OneForEver(ConnectIn(RunFrom(START, run))) <==> Permitted(RunFrom(START, run), Connect)
  {
    HeldIsUnclosed(run);
    var c := RunFrom(START, run);
    hide RunFrom, OneForEver, AtMostOne;
    if Permitted(c, Connect) {
      SoleForEver(ConnectIn(c));
    } else {
      SecondSocket(c);
      NotEvenNow(ConnectIn(c));
    }
  }

  lemma SoleForEver(c: State)
    requires Sole(c)
    ensures OneForEver(c)
  {
    forall later: seq<Step> | Disconnect !in later
      ensures AtMostOne(RunFrom(c, later).w.sockets)
    {
      StaysSole(c, later);
    }
  }

  lemma NotEvenNow(c: State)
    requires !AtMostOne(c.w.sockets)
    ensures !OneForEver(c)
  {
    assert RunFrom(c, []) == c;
    assert Disconnect !in [];
  }

  /** The client never holds a closed socket. */
  ghost predicate Holds(c: State)
  {
    c.ws.Some? ==> c.ws.value < |c.w.sockets| && !c.w.sockets[c.ws.value].Closed?
  }

  ghost predicate Sole(c: State)
  {
    Holds(c) && forall i | 0 <= i < |c.w.sockets| :: !c.w.sockets[i].Closed? ==> c.ws == Some(i)
  }

  lemma {:induction false} HeldIsUnclosed(run: seq<Step>)
    ensures Holds(RunFrom(START, run))
  {
    if run != [] {
      HeldIsUnclosed(run[..|run| - 1]);
      HoldsStep(RunFrom(START, run[..|run| - 1]), run[|run| - 1]);
    }
  }

  /** Timers leave the sockets alone. */
  lemma SocketsKept(c: State)
    ensures StartHeartbeatIn(c).w.sockets == c.w.sockets && StartHeartbeatIn(c).ws == c.ws
    ensures StopHeartbeatIn(c).w.sockets == c.w.sockets && StopHeartbeatIn(c).ws == c.ws
    ensures HandlePongIn(c).w.sockets == c.w.sockets && HandlePongIn(c).ws == c.ws
    ensures ScheduleReconnectIn(c).w.sockets == c.w.sockets && ScheduleReconnectIn(c).ws == c.ws
  {
  }

  lemma SocketsDisconnected(c: State)
    ensures var r := DisconnectIn(c);
            && r.ws == None
            && r.w.sockets == if c.ws.Some? then CloseIn(c.w, c.ws.value).sockets else c.w.sockets
  {
    hide StopHeartbeatIn;
    var w := ClearIn(c.w, c.reconnectTimer);
    SocketsKept(c.(w := if c.ws.Some? then CloseIn(w, c.ws.value) else w, ws := None,
                   reconnectTimer := None, shouldReconnect := false, started := false));
  }

  lemma SocketsFired(c: State, t: nat)
    requires t in c.w.pending
    ensures var r := OnTimerIn(Fired(c, t), c.w.pending[t].kind);
            if c.w.pending[t].kind.ReconnectTimer?
            then r.w.sockets == OpenSocketIn(c).w.sockets && r.ws == OpenSocketIn(c).ws
            else r.ws == c.ws && (r.w.sockets == c.w.sockets
                                  || (c.ws.Some? && r.w.sockets == CloseIn(c.w, c.ws.value).sockets))
  {
  }

  /** What a step does to the sockets and to the client's own. */
  lemma SocketsAfter(c: State, step: Step)
    requires Enabled(c, step)
    ensures var r := Apply(c, step);
            match step
            case Opened(i) => r.w.sockets == c.w.sockets[i := Open] && r.ws == c.ws
            case PeerCloses(i) => r.w.sockets == c.w.sockets[i := Closing] && r.ws == c.ws
            case CloseEvent(i) => r.w.sockets == c.w.sockets[i := Closed] && r.ws == None
            case Connect => r.w.sockets == OpenSocketIn(c).w.sockets && r.ws == OpenSocketIn(c).ws
            case Disconnect =>
              r.ws == None && r.w.sockets == if c.ws.Some? then CloseIn(c.w, c.ws.value).sockets else c.w.sockets
            case Fire(t) =>
              if c.w.pending[t].kind.ReconnectTimer?
              then r.w.sockets == OpenSocketIn(c).w.sockets && r.ws == OpenSocketIn(c).ws
              else r.ws == c.ws && (r.w.sockets == c.w.sockets
                                    || (c.ws.Some? && r.w.sockets == CloseIn(c.w, c.ws.value).sockets))
            case _ => r.w.sockets == c.w.sockets && r.ws == c.ws
  {
    hide StartHeartbeatIn, StopHeartbeatIn, HandlePongIn, ScheduleReconnectIn, DecodeFrame, DisconnectIn, OnTimerIn;
    match step
    case Disconnect => SocketsDisconnected(c);
    case Fire(t) => SocketsFired(c, t);
    case Opened(i) => SocketsKept(Put(c, i, Open).(wasOpened := c.wasOpened + {i}, last := c.w.now));
    case Message(i, data) => SocketsKept(c.(last := c.w.now));
    case CloseEvent(i) =>
      SocketsKept(Put(c, i, Closed).(ws := None));
      SocketsKept(StopHeartbeatIn(Put(c, i, Closed).(ws := None)));
    case Validated(i, _) => SocketsKept(c.(validating := c.validating - {i}));
    case _ =>
  }

  lemma HoldsStep(c: State, step: Step)
    requires Holds(c)
    ensures Holds(Apply(c, step))
  {
    if Enabled(c, step) {
      SocketsAfter(c, step);
      hide Apply;
    }
  }

  lemma {:induction false} StaysSole(c: State, run: seq<Step>)
    requires Sole(c) && Disconnect !in run
    ensures Sole(RunFrom(c, run))
  {
    if run != [] {
      var front, step := run[..|run| - 1], run[|run| - 1];
      assert step in run && forall x | x in front :: x in run;
      StaysSole(c, front);
      SoleStep(RunFrom(c, front), step);
    }
  }

  lemma SoleStep(c: State, step: Step)
    requires Sole(c) && step != Disconnect
    ensures Sole(Apply(c, step))
  {
    if Enabled(c, step) {
      SocketsAfter(c, step);
      hide Apply;
    }
  }

  /** An unclosed socket that is not the client's makes two with the one it has or gets. */
  lemma SecondSocket(c: State)
    requires Holds(c) && !Permitted(c, Connect)
    ensures !AtMostOne(ConnectIn(c).w.sockets)
  {
    var i :| 0 <= i < |c.w.sockets| && !c.w.sockets[i].Closed? && c.ws != Some(i);
    var sockets := ConnectIn(c).w.sockets;
    assert sockets[i] == c.w.sockets[i];
    var j := if c.ws.Some? then c.ws.value else |c.w.sockets|;
    assert !sockets[j].Closed?;
  }

  lemma StaysStarted(c: State, step: Step)
    requires c.started && step != Disconnect
    ensures Apply(c, step).started
    ensures !Enabled(c, step) ==> Apply(c, step) == c
  {
    hide DecodeFrame;
  }

  // ---------------------------------------------------------------------
  // When disconnect() is final

  lemma {:induction false} AnyRunTimely(run: seq<Step>)
    ensures Timely(RunFrom(START, run)) && Handles(RunFrom(START, run))
  {
    if run != [] {
      AnyRunTimely(run[..|run| - 1]);
      StepTimely(RunFrom(START, run[..|run| - 1]), run[|run| - 1]);
    }
  }

  lemma StepTimely(c: State, step: Step)
    requires Timely(c) && Handles(c)
    ensures Timely(Apply(c, step)) && Handles(Apply(c, step))
  {
    hide StartHeartbeatIn, StopHeartbeatIn, DisconnectIn, HandlePongIn, DecodeFrame, OnTimerIn, Timely, Handles;
    if Enabled(c, step) {
      match step
      case Connect => SameTimers(c, ConnectIn(c));
      case Disconnect => TimelyDisconnect(c);
      case Opened(i) =>
        var c1 := Put(c, i, Open).(wasOpened := c.wasOpened + {i}, last := c.w.now);
        SameTimers(c, c1);
        TimelyHeartbeat(c1);
      case Message(i, data) =>
        var c1 := c.(last := c.w.now);
        SameTimers(c, c1);
        TimelyHeartbeat(c1);
        PongIsActivity(c1);
      case PeerCloses(i) => SameTimers(c, Put(c, i, Closing));
      case CloseEvent(i) =>
        var c1 := Put(c, i, Closed).(ws := None);
        SameTimers(c, c1);
        TimelyHeartbeat(c1);
        var c2 := StopHeartbeatIn(c1);
        SameTimers(c2, c2.(validating := c2.validating + {i}));
        TimelySchedule(c2);
      case Validated(i, unauthorized) =>
        var c1 := c.(validating := c.validating - {i});
        SameTimers(c, c1);
        SameTimers(c1, c1.(shouldReconnect := false, rejected := true));
        TimelySchedule(c1);
      case Fire(t) => TimelyTimer(c, t);
      case Tick(ms) => TimelyTick(c, ms);
    }
  }

  lemma TimelySchedule(c: State)
    requires Timely(c) && Handles(c)
    ensures Timely(ScheduleReconnectIn(c)) && Handles(ScheduleReconnectIn(c))
  {
  }

  lemma TimelyTick(c: State, ms: nat)
    requires Timely(c) && Handles(c) && Enabled(c, Tick(ms))
    ensures Timely(Apply(c, Tick(ms))) && Handles(Apply(c, Tick(ms)))
  {
  }

  lemma TimelyHeartbeat(c: State)
    requires Timely(c) && Handles(c)
    ensures Timely(StopHeartbeatIn(c)) && Handles(StopHeartbeatIn(c))
    ensures Timely(StartHeartbeatIn(c)) && Handles(StartHeartbeatIn(c))
  {
  }

  lemma TimelyTimer(c: State, t: nat)
    requires Timely(c) && Handles(c) && t in c.w.pending
    ensures var r := OnTimerIn(Fired(c, t), c.w.pending[t].kind); Timely(r) && Handles(r)
  {
    var c' := Fired(c, t);
    assert Timely(c') && Handles(c');
    hide Fired;
    match c.w.pending[t].kind
    case PingTimer => assert Timely(OnTimerIn(c', PingTimer)) && Handles(OnTimerIn(c', PingTimer));
    case PongTimeout => SameTimers(c', OnTimerIn(c', PongTimeout));
    case ReconnectTimer => SameTimers(c', OnTimerIn(c', ReconnectTimer));
  }

  lemma SameTimers(c: State, c': State)
    requires Timely(c) && Handles(c)
    requires c'.w == c.w.(sockets := c'.w.sockets)
    requires c'.heartbeatTimer == c.heartbeatTimer && c'.heartbeatTimeout == c.heartbeatTimeout
    requires c'.reconnectTimer == c.reconnectTimer || c'.reconnectTimer == None
    ensures Timely(c') && Handles(c')
  {
  }

  lemma TimelyDisconnect(c: State)
    requires Timely(c) && Handles(c)
    ensures Timely(DisconnectIn(c)) && Handles(DisconnectIn(c))
  {
  }

  /** No way back to a socket without connect(). */
  ghost predicate Final(c: State)
  {
    forall run :: Connect !in run ==> |RunFrom(c, run).w.sockets| == |c.w.sockets|
  }

  /** A client told not to reconnect stays without a new socket exactly when no /validate
      request is in flight and no reconnect timer is pending. */
  lemma FinalExactly(c: State)
    requires Timely(c) && Handles(c) && Holds(c) && !c.shouldReconnect
    ensures Final(c) <==> GivenUp(c)
  {
    hide Handles, Timely, Holds, RunFrom;
    if GivenUp(c) {
      forall later: seq<Step> | Connect !in later
        ensures |RunFrom(c, later).w.sockets| == |c.w.sockets|
      {
        GivenUpStays(c, later);
      }
    } else if c.ws.None? {
      var later := WayBack(c);
    } else {
      var step := CloseEvent(c.ws.value);
      CloseLeaves(c);
      var later := WayBack(Apply(c, step));
      RunCons(c, step, later);
      assert Connect !in [step] + later;
    }
  }

  /** The close event of the client's socket takes no way back away. */
  lemma CloseLeaves(c: State)
    requires Timely(c) && Handles(c) && Holds(c) && c.ws.Some? && !c.shouldReconnect && !GivenUp(c)
    ensures var r := Apply(c, CloseEvent(c.ws.value));
            Timely(r) && r.ws.None? && !GivenUp(r) && |r.w.sockets| == |c.w.sockets|
  {
    StepTimely(c, CloseEvent(c.ws.value));
    var r := Apply(c, CloseEvent(c.ws.value));
    if t :| t in c.w.pending && c.w.pending[t].kind.ReconnectTimer? {
      assert t in r.w.pending && r.w.pending[t] == c.w.pending[t];
    }
  }

  lemma WayBack(c: State) returns (run: seq<Step>)
    requires Timely(c) && c.ws.None? && !c.shouldReconnect && !GivenUp(c)
    ensures Connect !in run && |RunFrom(c, run).w.sockets| > |c.w.sockets|
  {
    hide Timely, RunFrom;
    if i :| i in c.validating {
      TimelyValidated(c, i);
      var later := Reopens(Apply(c, Validated(i, false)), c.w.next);
      RunCons(c, Validated(i, false), later);
      run := [Validated(i, false)] + later;
    } else {
      var t :| t in c.w.pending && c.w.pending[t].kind.ReconnectTimer?;
      run := Reopens(c, t);
    }
  }

  /** disconnect() is final exactly when it is called with no /validate request in
      flight and no reconnect timer pending but the latest. */
  lemma DisconnectIsFinal(run: seq<Step>)
    ensures Final(DisconnectIn(RunFrom(START, run))) <==> Settled(RunFrom(START, run))
  {
    AnyRunTimely(run);
    var c := RunFrom(START, run);
    TimelyDisconnect(c);
    DisconnectLeaves(c);
    hide DisconnectIn, Handles, Timely, Final;
    FinalExactly(DisconnectIn(c));
  }

  /** A 401 is final exactly when it answers the only /validate request in flight and no
      reconnect timer is pending. */
  lemma RejectionIsFinal(run: seq<Step>, i: nat)
    requires i in RunFrom(START, run).validating
    ensures var c := RunFrom(START, run);
            Final(RunFrom(START, run + [Validated(i, true)])) <==>
              c.validating == {i} && forall t | t in c.w.pending :: !c.w.pending[t].kind.ReconnectTimer?
  {
    var c := RunFrom(START, run);
    AnyRunTimely(run);
    HeldIsUnclosed(run);
    StepTimely(c, Validated(i, true));
    HoldsStep(c, Validated(i, true));
    assert (run + [Validated(i, true)])[..|run|] == run;
    FinalExactly(Apply(c, Validated(i, true)));
    assert c.validating - {i} == {} <==> c.validating == {i};
  }

  lemma TimelyValidated(c: State, i: nat)
    requires Timely(c) && i in c.validating
    ensures var r := Apply(c, Validated(i, false));
            && Timely(r) && r.ws == c.ws && r.w.sockets == c.w.sockets
            && c.w.next in r.w.pending && r.w.pending[c.w.next].kind.ReconnectTimer?
  {
  }

  /** disconnect() clears no reconnect timer but the one its handle names. */
  lemma DisconnectLeaves(c: State)
    requires Handles(c)
    ensures var d := DisconnectIn(c);
            && d.ws.None? && !d.shouldReconnect && d.validating == c.validating
            && (forall t | t in d.w.pending ::
                  t in c.w.pending && d.w.pending[t] == c.w.pending[t] && c.reconnectTimer != Some(t))
            && (forall t | t in c.w.pending && c.w.pending[t].kind.ReconnectTimer? && c.reconnectTimer != Some(t) ::
                  t in d.w.pending)
  {
  }

  ghost predicate GivenUp(c: State)
  {
    !c.shouldReconnect && c.validating == {} && forall t | t in c.w.pending :: !c.w.pending[t].kind.ReconnectTimer?
  }

  lemma {:induction false} GivenUpStays(c: State, run: seq<Step>)
    requires GivenUp(c) && Connect !in run
    ensures GivenUp(RunFrom(c, run)) && |RunFrom(c, run).w.sockets| == |c.w.sockets|
  {
    if run != [] {
      var front, step := run[..|run| - 1], run[|run| - 1];
      assert step in run && forall x | x in front :: x in run;
      GivenUpStays(c, front);
      GivenUpStep(RunFrom(c, front), step);
    }
  }

  lemma GivenUpStep(c: State, step: Step)
    requires GivenUp(c) && step != Connect
    ensures GivenUp(Apply(c, step)) && |Apply(c, step).w.sockets| == |c.w.sockets|
  {
    hide DecodeFrame, StartHeartbeatIn, StopHeartbeatIn, HandlePongIn;
    if Enabled(c, step) {
      match step
      case Disconnect =>
        var w := ClearIn(c.w, c.reconnectTimer);
        GivenUpHeartbeat(c.(w := if c.ws.Some? then CloseIn(w, c.ws.value) else w, ws := None,
                            reconnectTimer := None, shouldReconnect := false, started := false));
      case Opened(i) => GivenUpHeartbeat(Put(c, i, Open).(wasOpened := c.wasOpened + {i}, last := c.w.now));
      case Message(i, data) =>
        GivenUpHeartbeat(c.(last := c.w.now));
        PongIsActivity(c.(last := c.w.now));
      case CloseEvent(i) => GivenUpHeartbeat(Put(c, i, Closed).(ws := None));
      case _ =>
    }
  }

  lemma GivenUpHeartbeat(c: State)
    requires GivenUp(c)
    ensures GivenUp(StartHeartbeatIn(c)) && StartHeartbeatIn(c).w.sockets == c.w.sockets
    ensures GivenUp(StopHeartbeatIn(c)) && StopHeartbeatIn(c).w.sockets == c.w.sockets
  {
  }

  lemma {:induction false} RunCons(c: State, step: Step, run: seq<Step>)
    ensures RunFrom(c, [step] + run) == RunFrom(Apply(c, step), run)
    decreases |run|
  {
    var all := [step] + run;
    if run == [] {
      assert all[..0] == [];
    } else {
      RunCons(c, step, run[..|run| - 1]);
      assert all[..|all| - 1] == [step] + run[..|run| - 1];
    }
  }

  /** With no socket and a reconnect timer pending, waiting opens one. */
  lemma {:induction false} Reopens(c: State, t: nat) returns (run: seq<Step>)
    requires Timely(c) && c.ws.None? && t in c.w.pending && c.w.pending[t].kind.ReconnectTimer?
    ensures Connect !in run && |RunFrom(c, run).w.sockets| > |c.w.sockets|
    decreases c.w.pending[t].due - c.w.now, |c.w.pending|
  {
    var step := Tick(1);
    if u :| u in c.w.pending && c.w.pending[u].due == c.w.now {
      step := Fire(u);
      FireWithoutSocket(c, u);
    } else {
      TickWithoutSocket(c);
    }
    hide Timely, RunFrom, Apply;
    var c' := Apply(c, step);
    if |c'.w.sockets| > |c.w.sockets| {
      RunSingle(c, step);
      return [step];
    }
    var rest := Reopens(c', t);
    RunCons(c, step, rest);
    run := [step] + rest;
  }

  lemma RunSingle(c: State, step: Step)
    ensures RunFrom(c, [step]) == Apply(c, step)
  {
    assert [step][..0] == [];
  }

  lemma TickWithoutSocket(c: State)
    requires Timely(c) && forall u | u in c.w.pending :: c.w.pending[u].due != c.w.now
    ensures var r := Apply(c, Tick(1));
            Timely(r) && r == c.(w := c.w.(now := c.w.now + 1))
            && forall u | u in c.w.pending :: c.w.now < c.w.pending[u].due
  {
  }

  lemma FireWithoutSocket(c: State, u: nat)
    requires Timely(c) && c.ws.None? && Enabled(c, Fire(u))
    ensures var r := Apply(c, Fire(u));
            && Timely(r) && r.w.now == c.w.now
            && (c.w.pending[u].kind.ReconnectTimer? ==> |r.w.sockets| > |c.w.sockets|)
            && (!c.w.pending[u].kind.ReconnectTimer? ==> r.ws.None? && r.w.sockets == c.w.sockets)
            && r.w.pending == c.w.pending - {u} && |r.w.pending| < |c.w.pending|
  {
    assert c.w.pending == (c.w.pending - {u})[u := c.w.pending[u]];
  }

  // ---------------------------------------------------------------------
  // What an impatient caller can get

  lemma Next(run: seq<Step>, k: nat)
    requires k < |run|
    ensures RunFrom(START, run[..k + 1]) == Apply(RunFrom(START, run[..k]), run[k])
  {
    assert run[..k + 1][..k] == run[..k];
  }

  const IMPATIENT: seq<Step> :=
    [Connect, Opened(0), Disconnect, Connect, Opened(1), CloseEvent(0), Tick(2000), Fire(2), Tick(7000)]

  /** connect() right after disconnect(): the old socket's late close event takes the
      new socket away, so there are two, and the open one has no heartbeat. */
  lemma ConnectAfterDisconnectLosesSocket()
    ensures var c := RunFrom(START, IMPATIENT);
            && c.w.sockets == [Closed, Open, Connecting] && c.ws == Some(2)
            && c.w.pending == map[] && c.w.now > c.last + SILENCE
            && !Patient(IMPATIENT)
  {
    LosesSocket();
    var phases := [Closed, Open, Connecting];
    assert !AtMostOne(phases) by {
      assert phases[1] == Open && phases[2] == Connecting;
    }
    if Patient(IMPATIENT) {
      AtMostOneSocket(IMPATIENT);
      assert false;
    }
  }

  lemma LosesSocket()
    ensures RunFrom(START, IMPATIENT)
            == START.(w := Window(9000, [Closed, Open, Connecting], map[], 3), ws := Some(2), wasOpened := {0, 1},
                      started := true)
  {
    var run := IMPATIENT;
    assert run[..9] == run;
    LateCloseEvent();
    Next(run, 6);
    Next(run, 7);
    Next(run, 8);
    hide RunFrom;
    var c7 := START.(w := Window(2000, [Closed, Open], map[2 := Timer(ReconnectTimer, 2000)], 3),
                     reconnectTimer := Some(2), wasOpened := {0, 1}, started := true);
    assert RunFrom(START, run[..7]) == c7;
    assert RunFrom(START, run[..8])
           == c7.(w := Window(2000, [Closed, Open, Connecting], map[], 3), ws := Some(2), reconnectTimer := None);
  }

  lemma LateCloseEvent()
    ensures RunFrom(START, IMPATIENT[..6])
            == START.(w := Window(0, [Closed, Open], map[2 := Timer(ReconnectTimer, 2000)], 3),
                      reconnectTimer := Some(2), wasOpened := {0, 1}, started := true)
  {
    SecondSocketOpens();
    Next(IMPATIENT, 5);
    hide RunFrom;
  }

  lemma SecondSocketOpens()
    ensures RunFrom(START, IMPATIENT[..5])
            == START.(w := Window(0, [Closing, Open], map[1 := Timer(PingTimer, 3000)], 2), ws := Some(1),
                      heartbeatTimer := Some(1), wasOpened := {0, 1}, started := true)
  {
    var run := IMPATIENT;
    assert run[..0] == [];
    assert RunFrom(START, run[..0]) == START;
    Next(run, 0);
    Next(run, 1);
    Next(run, 2);
    Next(run, 3);
    Next(run, 4);
    hide RunFrom;
    var c2 := START.(w := Window(0, [Open], map[0 := Timer(PingTimer, 3000)], 1), ws := Some(0),
                     heartbeatTimer := Some(0), wasOpened := {0}, started := true);
    assert RunFrom(START, run[..2]) == c2;
    var c3 := START.(w := Window(0, [Closing], map[], 1), shouldReconnect := false, wasOpened := {0});
    assert RunFrom(START, run[..3]) == c3;
    assert {0} + {1} == {0, 1};
  }

  const RACE: seq<Step> := [Connect, CloseEvent(0), Disconnect, Validated(0, false), Tick(2000), Fire(0)]

  /** disconnect() while /validate is in flight: two seconds later there is a socket. */
  lemma DisconnectDuringValidationReconnects()
    ensures var c := RunFrom(START, RACE);
            !c.started && !c.shouldReconnect && c.ws == Some(1) && c.w.sockets == [Closed, Connecting]
  {
    var run := RACE;
    assert run[..6] == run;
    RaceLost();
    Next(run, 3);
    Next(run, 4);
    Next(run, 5);
    hide RunFrom;
    var c4 := START.(w := Window(0, [Closed], map[0 := Timer(ReconnectTimer, 2000)], 1), shouldReconnect := false,
                     reconnectTimer := Some(0));
    assert RunFrom(START, run[..4]) == c4;
    assert RunFrom(START, run[..5]) == c4.(w := c4.w.(now := 2000));
  }

  lemma RaceLost()
    ensures RunFrom(START, RACE[..3])
            == START.(w := Window(0, [Closed], map[], 0), shouldReconnect := false, validating := {0})
  {
    var run := RACE;
    assert run[..0] == [];
    assert RunFrom(START, run[..0]) == START;
    Next(run, 0);
    Next(run, 1);
    Next(run, 2);
    hide RunFrom;
    assert RunFrom(START, run[..2]) == START.(w := Window(0, [Closed], map[], 0), validating := {0}, started := true);
  }
}
