/**
 * The whiteboard's connection to the server: opening the socket for a room,
 * the bounded reconnect counter, dropping messages while the socket is not
 * open, the room guards on outgoing drawing messages, the dispatch of
 * incoming messages and disconnecting.
 */
module WhiteboardSync {
  import opened Wrappers

  const MaxReconnectAttempts := 5

  /** A mouse position on the canvas, in whole pixels. */
  datatype Point = Point(x: int, y: int)

  /** The draw action the board broadcasts: one pen segment. */
  datatype DrawData = Pen(from: Point, to: Point, color: string, lineWidth: nat, isEraser: bool)

  /** The state of the current socket; `NoSocket` is a null connection. */
  datatype Socket = NoSocket | Connecting | Open | Closed

  datatype Outgoing =
    | Join(joinRoom: Option<string>, email: string)
    | DrawMsg(room: string, data: DrawData)
    | ClearMsg(room: string)
    | StateMsg(room: string, state: string)

  /** What an incoming message does to the local canvas. */
  datatype Effect = ApplyDraw | ApplyState | ClearLocal | NoEffect

  /**
   * The module's globals, the number of reconnect timers still pending and
   * the messages actually written to the socket.
   */
  datatype Sync = Sync(socket: Socket, room: Option<string>, connected: bool, attempts: nat, timers: nat, sent: seq<Outgoing>)

  const Initial := Sync(NoSocket, None, false, 0, 0, [])

  /** The counter never passes its maximum. */
  predicate Valid(s: Sync) {
    s.attempts <= MaxReconnectAttempts
  }

  /** The stored user's address, or `anonymous`. */
  function UserEmail(stored: Option<string>): string {
    if Truthy(stored) then stored.value else "anonymous"
  }

  /** sendMessage: written only to an open socket, otherwise dropped. */
  function Send(s: Sync, m: Outgoing): Sync {
    if s.socket == Open then s.(sent := s.sent + [m]) else s
  }

  /** initWhiteboardSync: nothing while a socket is open; otherwise remember the room and open a new socket. */
  function Init(s: Sync, room: Option<string>): Sync {
    if s.socket == Open then s else s.(room := room, socket := Connecting)
  }

  /**
   * The open handler. `current` says whether the socket that opened is the one
   * the module holds; a handler of an abandoned socket still runs.
   */
  function Opened(s: Sync, current: bool, stored: Option<string>): Sync {
    var s1 := s.(socket := if current then Open else s.socket, connected := true, attempts := 0);
    Send(s1, Join(s1.room, UserEmail(stored)))
  }

  /** attemptReconnect: count one more attempt and schedule a timer, unless the maximum is reached. */
  function Reconnect(s: Sync): Sync {
    if s.attempts >= MaxReconnectAttempts then s else s.(attempts := s.attempts + 1, timers := s.timers + 1)
  }

  /** The close handler, then attemptReconnect. */
  function Closing(s: Sync, current: bool): Sync {
    Reconnect(s.(socket := if current then Closed else s.socket, connected := false))
  }

  /** A pending reconnect timer fires: it reconnects to the current room, if there still is one. */
  function TimerFired(s: Sync): Sync {
    if s.timers == 0 then s
    else
      var s1 := s.(timers := s.timers - 1);
      if Truthy(s1.room) then Init(s1, s1.room) else s1
  }

  function BroadcastDraw(s: Sync, d: DrawData): Sync {
    if !Truthy(s.room) then s else Send(s, DrawMsg(s.room.value, d))
  }

  function BroadcastClear(s: Sync): Sync {
    if !Truthy(s.room) then s else Send(s, ClearMsg(s.room.value))
  }

  /** sendCanvasState, with the canvas's image (None when there is no canvas). */
  function SendCanvasState(s: Sync, canvas: Option<string>): Sync {
    if canvas.None? || !Truthy(s.room) then s else Send(s, StateMsg(s.room.value, canvas.value))
  }

  /** handleIncomingMessage by message type; a joining user or a state request is answered with the canvas. */
  function Dispatch(s: Sync, kind: string, canvas: Option<string>): (Sync, Effect) {
    match kind
    case "whiteboard-draw" => (s, ApplyDraw)
    case "whiteboard-state" => (s, ApplyState)
    case "whiteboard-clear" => (s, ClearLocal)
    case "whiteboard-request-state" => (SendCanvasState(s, canvas), NoEffect)
    case "user-joined" => (SendCanvasState(s, canvas), NoEffect)
    case _ => (s, NoEffect)
  }

  /** disconnectWhiteboardSync: close and forget the socket, and forget the room. */
  function Disconnect(s: Sync): Sync {
    s.(socket := NoSocket, connected := false, room := None)
  }

  // ---------------------------------------------------------------- single steps

  /** A message is written exactly when the socket is open, and then it is the only new one. */
  lemma SendOnlyWhenOpen(s: Sync, m: Outgoing)
    ensures Send(s, m).sent == if s.socket == Open then s.sent + [m] else s.sent
    ensures Send(s, m).(sent := s.sent) == s
  {
  }

  /** A successful open resets the counter, marks the module connected and joins the current room. */
  lemma OpenJoins(s: Sync, stored: Option<string>)
    ensures var t := Opened(s, true, stored);
      t.socket == Open && t.connected && t.attempts == 0 && t.room == s.room
      && t.sent == s.sent + [Join(s.room, UserEmail(stored))]
  {
  }

  /** An open socket is kept: initialising again changes nothing. */
  lemma InitWhileOpen(s: Sync, room: Option<string>)
    requires s.socket == Open
    ensures Init(s, room) == s
  {
  }

  /** Without a room, the three broadcasts send nothing and change nothing. */
  lemma NoRoomNoBroadcast(s: Sync, d: DrawData, canvas: Option<string>)
    requires !Truthy(s.room)
    ensures BroadcastDraw(s, d) == s && BroadcastClear(s) == s && SendCanvasState(s, canvas) == s
  {
  }

  /** Exactly a joining user and a state request make the client send its canvas. */
  lemma DispatchAnswers(s: Sync, kind: string, canvas: Option<string>)
    ensures (kind == "user-joined" || kind == "whiteboard-request-state") ==>
      Dispatch(s, kind, canvas).0 == SendCanvasState(s, canvas)
    ensures !(kind == "user-joined" || kind == "whiteboard-request-state") ==> Dispatch(s, kind, canvas).0 == s
  {
  }

  // ---------------------------------------------------------------- event sequences

  datatype Event =
    | EvInit(room: Option<string>)
    | EvOpen(current: bool, stored: Option<string>)
    | EvClose(current: bool)
    | EvTimer
    | EvDraw(d: DrawData)
    | EvClear
    | EvState(canvas: Option<string>)
    | EvMessage(kind: string, canvas: Option<string>)
    | EvDisconnect

  function Step(s: Sync, e: Event): Sync {
    match e
    case EvInit(room) => Init(s, room)
    case EvOpen(current, stored) => Opened(s, current, stored)
    case EvClose(current) => Closing(s, current)
    case EvTimer => TimerFired(s)
    case EvDraw(d) => BroadcastDraw(s, d)
    case EvClear => BroadcastClear(s)
    case EvState(canvas) => SendCanvasState(s, canvas)
    case EvMessage(kind, canvas) => Dispatch(s, kind, canvas).0
    case EvDisconnect => Disconnect(s)
  }

  function Run(s: Sync, es: seq<Event>): Sync
    decreases |es|
  {
    if es == [] then s else Step(Run(s, es[..|es| - 1]), es[|es| - 1])
  }

  /** Every handler keeps the counter within its maximum. */
  lemma StepKeepsValid(s: Sync, e: Event)
    requires Valid(s)
    ensures Valid(Step(s, e))
  {
  }

  /** reconnectAttempts never exceeds 5, whatever happens. */
  lemma {:induction false} AttemptsBounded(es: seq<Event>)
    ensures Valid(Run(Initial, es))
    decreases |es|
  {
    if es != [] {
      AttemptsBounded(es[..|es| - 1]);
      StepKeepsValid(Run(Initial, es[..|es| - 1]), es[|es| - 1]);
    }
  }

  /** After five closes in a row no further timer is scheduled, however often the socket closes again. */
  lemma ClosesStopAtMaximum(s: Sync, current: bool)
    requires s.attempts == MaxReconnectAttempts
    ensures Closing(s, current).timers == s.timers && Closing(s, current).attempts == s.attempts
  {
  }

  /** What may still happen after disconnecting without a new initialisation: stale handlers, timers, user actions. */
  predicate Stale(e: Event) {
    match e
    case EvInit(_) => false
    case EvOpen(current, _) => !current
    case EvClose(current) => !current
    case _ => true
  }

  /**
   * After disconnecting, no pending timer and no stale handler reconnects:
   * there stays no socket and no room, and nothing more is sent.
   */
  lemma {:induction false} DisconnectIsFinal(s: Sync, es: seq<Event>)
    requires forall k :: 0 <= k < |es| ==> Stale(es[k])
    ensures var t := Run(Disconnect(s), es); t.socket == NoSocket && t.room == None && t.sent == s.sent
    decreases |es|
  {
    if es != [] {
      DisconnectIsFinal(s, es[..|es| - 1]);
    }
  }

  // ---------------------------------------------------------------- the module's globals

  class SyncClient {
    var socket: Socket
    var room: Option<string>
    var connected: bool
    var attempts: nat
    var timers: nat
    var sent: seq<Outgoing>

    ghost function Snapshot(): Sync
      reads this
    {
      Sync(socket, room, connected, attempts, timers, sent)
    }

    constructor ()
      ensures Snapshot() == Initial
    {
      socket, room, connected, attempts, timers, sent := NoSocket, None, false, 0, 0, [];
    }

    method SendMessage(m: Outgoing)
      modifies this
      ensures Snapshot() == Send(old(Snapshot()), m)
    {
      if socket == Open {
        sent := sent + [m];
      }
    }

    method InitSync(r: Option<string>)
      modifies this
      ensures Snapshot() == Init(old(Snapshot()), r)
    {
      if socket == Open {
        return;
      }
      room := r;
      socket := Connecting;
    }

    method OnOpen(current: bool, stored: Option<string>)
      modifies this
      ensures Snapshot() == Opened(old(Snapshot()), current, stored)
    {
      if current {
        socket := Open;
      }
      connected := true;
      attempts := 0;
      SendMessage(Join(room, UserEmail(stored)));
    }

    method AttemptReconnect()
      modifies this
      ensures Snapshot() == Reconnect(old(Snapshot()))
    {
      if attempts >= MaxReconnectAttempts {
        return;
      }
      attempts := attempts + 1;
      timers := timers + 1;
    }

    method OnClose(current: bool)
      modifies this
      ensures Snapshot() == Closing(old(Snapshot()), current)
    {
      if current {
        socket := Closed;
      }
      connected := false;
      AttemptReconnect();
    }

    method OnTimer()
      modifies this
      ensures Snapshot() == TimerFired(old(Snapshot()))
    {
      if timers == 0 {
        return;
      }
      timers := timers - 1;
      if Truthy(room) {
        InitSync(room);
      }
    }

    method Draw(d: DrawData)
      modifies this
      ensures Snapshot() == BroadcastDraw(old(Snapshot()), d)
    {
      if !Truthy(room) {
        return;
      }
      SendMessage(DrawMsg(room.value, d));
    }

    method Clear()
      modifies this
      ensures Snapshot() == BroadcastClear(old(Snapshot()))
    {
      if !Truthy(room) {
        return;
      }
      SendMessage(ClearMsg(room.value));
    }

    method SendState(canvas: Option<string>)
      modifies this
      ensures Snapshot() == SendCanvasState(old(Snapshot()), canvas)
    {
      if canvas.None? || !Truthy(room) {
        return;
      }
      SendMessage(StateMsg(room.value, canvas.value));
    }

    method HandleIncoming(kind: string, canvas: Option<string>) returns (effect: Effect)
      modifies this
      ensures (Snapshot(), effect) == Dispatch(old(Snapshot()), kind, canvas)
    {
      if kind == "whiteboard-draw" {
        effect := ApplyDraw;
      } else if kind == "whiteboard-state" {
        effect := ApplyState;
      } else if kind == "whiteboard-clear" {
        effect := ClearLocal;
      } else if kind == "whiteboard-request-state" || kind == "user-joined" {
        SendState(canvas);
        effect := NoEffect;
      } else {
        effect := NoEffect;
      }
    }

    method DisconnectSync()
      modifies this
      ensures Snapshot() == Disconnect(old(Snapshot()))
    {
      if socket != NoSocket {
        socket := NoSocket;
      }
      connected := false;
      room := None;
    }
  }
}
