/**
 * backend/websocket.js: the signalling and whiteboard hub. A `Server` holds
 * the tables the handlers mutate in place: `rooms` (room -> its connections,
 * in insertion order, as the JavaScript Set iterates them), `clients`
 * (connection -> {room, email}), the per-room whiteboard state, and each
 * connection's heartbeat flag. Each socket send is an `Effect` appended to
 * `outbox`; which connections are still open is `open`, maintained by the
 * socket layer.
 *
 * Every method is specified by a function on the `Hub` value of the old
 * tables; the lemmas state the handlers' promises over those functions.
 */
module RoomRegistry {
  import opened Wrappers
  import opened Grouping

  /** A connection: the identity of a `ws` object. */
  type Conn = nat

  const MaxRoomCapacity: nat := 10

  datatype ClientInfo = ClientInfo(room: string, email: Option<string>)

  /** The JSON messages the server sends. */
  datatype Outgoing =
    | ErrorNotice(message: string)
    | UserJoined(joined: Option<string>)
    | UserLeft(left: Option<string>)
    | RoomInfo(participants: seq<Option<string>>)
    | OfferOut(offer: string)
    | AnswerOut(answer: string)
    | IceOut(candidate: string)
    | DrawOut(drawData: string)
    | StateOut(state: string)
    | ClearOut
    | RequestStateOut(requesterId: int)

  datatype Effect =
    | Send(target: Conn, message: Outgoing)
    | Ping(pinged: Conn)
    | Terminate(terminated: Conn)

  /** A parsed incoming message, by its `type` field. */
  datatype Incoming =
    | Join(room: string, email: Option<string>)
    | Offer(room: string, offer: string)
    | Answer(room: string, answer: string)
    | IceCandidate(room: string, candidate: string)
    | Leave
    | Chat
    | BoardJoin(room: string, email: Option<string>)
    | BoardDraw(room: string, drawData: string)
    | BoardState(room: string, state: string)
    | BoardClear(room: string)
    | BoardRequestState(room: string)
    | Unrecognised

  /** The server's tables as one value. */
  datatype Hub = Hub(
    rooms: map<string, seq<Conn>>,
    clients: map<Conn, ClientInfo>,
    states: map<string, string>,
    alive: map<Conn, bool>,
    open: set<Conn>,
    connected: seq<Conn>,
    outbox: seq<Effect>)

  /** No room set is empty and none lists a connection twice. */
  ghost predicate WellFormed(h: Hub) {
    forall r :: r in h.rooms ==> h.rooms[r] != [] && NoDuplicates(h.rooms[r])
  }

  /** `rooms.get(room)`, with a missing room read as the fresh empty set. */
  function MembersOf(rooms: map<string, seq<Conn>>, room: string): seq<Conn> {
    if room in rooms then rooms[room] else []
  }

  /** `set.add(c)`: a present element keeps its place; a new one goes last. */
  function AddMember(members: seq<Conn>, c: Conn): (r: seq<Conn>)
    ensures forall x :: x in r <==> x in members || x == c
    ensures NoDuplicates(members) ==> NoDuplicates(r)
    ensures |r| == if c in members then |members| else |members| + 1
  {
    if c in members then members else members + [c]
  }

  /** `set.delete(c)`. */
  function RemoveMember(members: seq<Conn>, c: Conn): (r: seq<Conn>)
    ensures forall x :: x in r <==> x in members && x != c
    ensures NoDuplicates(members) ==> NoDuplicates(r)
  {
    var p := (x: Conn) => x != c;
    assert forall x :: x in Filter(members, p) <==> x in members && x != c by {
      forall x { FilterMembership(members, p, x); }
    }
    assert NoDuplicates(members) ==> NoDuplicates(Filter(members, p)) by {
      if NoDuplicates(members) { FilterNoDuplicates(members, p); }
    }
    Filter(members, p)
  }

  /** The members a broadcast from `sender` reaches: open members other than the sender. */
  function Recipients(members: seq<Conn>, sender: Conn, open: set<Conn>): (r: seq<Conn>)
    ensures forall x :: x in r <==> x in members && x != sender && x in open
  {
    var p := (x: Conn) => x != sender && x in open;
    assert forall x :: x in Filter(members, p) <==> x in members && p(x) by {
      forall x { FilterMembership(members, p, x); }
    }
    Filter(members, p)
  }

  /** One send of `m` to each of `cs`, in order. */
  function Sends(cs: seq<Conn>, m: Outgoing): (r: seq<Effect>)
    ensures |r| == |cs|
    ensures forall i :: 0 <= i < |cs| ==> r[i] == Send(cs[i], m)
  {
    seq(|cs|, i requires 0 <= i < |cs| => Send(cs[i], m))
  }

  /** The sends of `broadcastToRoom(room, m, sender)`; a room not in the table gets none. */
  function Broadcast(rooms: map<string, seq<Conn>>, room: string, m: Outgoing, sender: Conn, open: set<Conn>): seq<Effect> {
    if room in rooms then Sends(Recipients(rooms[room], sender, open), m) else []
  }

  /** A broadcast delivers `m` to exactly the open members of the room other than the sender, and sends nothing else. */
  lemma BroadcastReaches(rooms: map<string, seq<Conn>>, room: string, m: Outgoing, sender: Conn, open: set<Conn>, c: Conn)
    ensures Send(c, m) in Broadcast(rooms, room, m, sender, open) <==>
              room in rooms && c in rooms[room] && c != sender && c in open
    ensures forall e :: e in Broadcast(rooms, room, m, sender, open) ==> e.Send? && e.message == m
  {
    if room in rooms {
      var cs := Recipients(rooms[room], sender, open);
      if c in cs {
        var i :| 0 <= i < |cs| && cs[i] == c;
        assert Sends(cs, m)[i] == Send(c, m);
      }
    }
  }

  /** The members other than `ws`, in set order. */
  function Others(members: seq<Conn>, ws: Conn): (r: seq<Conn>)
    ensures forall x :: x in r <==> x in members && x != ws
  {
    RemoveMember(members, ws)
  }

  /**
   * The `room-info` participant list: the email of every other member. A
   * member without a client record makes `clients.get(client).email` throw,
   * so there is no list (None).
   */
  function Participants(members: seq<Conn>, ws: Conn, clients: map<Conn, ClientInfo>): (p: Option<seq<Option<string>>>)
    ensures p.Some? <==> forall x :: x in members && x != ws ==> x in clients
    ensures p.Some? ==> |p.value| == |Others(members, ws)|
                        && forall i :: 0 <= i < |p.value| ==>
                             Others(members, ws)[i] in clients && p.value[i] == clients[Others(members, ws)[i]].email
  {
    var o := Others(members, ws);
    if forall i :: 0 <= i < |o| ==> o[i] in clients then
      Some(seq(|o|, i requires 0 <= i < |o| => clients[o[i]].email))
    else
      assert exists i :: 0 <= i < |o| && o[i] !in clients;
      None
  }

  /** `handleJoin`. */
  function JoinHub(h: Hub, ws: Conn, room: string, email: Option<string>): Hub {
    if room in h.rooms && |h.rooms[room]| >= MaxRoomCapacity then
      h.(outbox := h.outbox + [Send(ws, ErrorNotice("Room is full"))])
    else
      var clients := h.clients[ws := ClientInfo(room, email)];
      var rooms := h.rooms[room := AddMember(MembersOf(h.rooms, room), ws)];
      var info := match Participants(rooms[room], ws, clients)
        case Some(p) => [Send(ws, RoomInfo(p))]
        case None => [];
      h.(rooms := rooms, clients := clients,
         outbox := h.outbox + Broadcast(rooms, room, UserJoined(email), ws, h.open) + info)
  }

  /** Removes `ws` from the set of `room`, dropping the room once its set is empty. */
  function Detach(rooms: map<string, seq<Conn>>, room: string, ws: Conn): map<string, seq<Conn>> {
    if room in rooms then
      var rest := RemoveMember(rooms[room], ws);
      if |rest| == 0 then rooms - {room} else rooms[room := rest]
    else rooms
  }

  /** `handleDisconnect`: acts on the recorded room only. */
  function DisconnectHub(h: Hub, ws: Conn): Hub {
    if ws !in h.clients then h
    else
      var info := h.clients[ws];
      var rooms := Detach(h.rooms, info.room, ws);
      h.(rooms := rooms, clients := h.clients - {ws},
         outbox := h.outbox + Broadcast(rooms, info.room, UserLeft(info.email), ws, h.open))
  }

  /** `message.email || 'anonymous'`. */
  function BoardEmail(email: Option<string>): string {
    if email.Some? && email.value != "" then email.value else "anonymous"
  }

  /** `handleWhiteboardJoin`: no capacity check; the stored state is sent before the others are told. */
  function BoardJoinHub(h: Hub, ws: Conn, room: string, email: Option<string>): Hub {
    var e := Some(BoardEmail(email));
    var rooms := h.rooms[room := AddMember(MembersOf(h.rooms, room), ws)];
    var state := if room in h.states then [Send(ws, StateOut(h.states[room]))] else [];
    h.(rooms := rooms, clients := h.clients[ws := ClientInfo(room, e)],
       outbox := h.outbox + state + Broadcast(rooms, room, UserJoined(e), ws, h.open))
  }

  /** Offer, answer, ICE candidate and draw: a broadcast and nothing else. */
  function RelayHub(h: Hub, ws: Conn, room: string, m: Outgoing): Hub {
    h.(outbox := h.outbox + Broadcast(h.rooms, room, m, ws, h.open))
  }

  /** `handleWhiteboardState`: overwrite the stored state, then broadcast it. */
  function BoardStateHub(h: Hub, ws: Conn, room: string, state: string): Hub {
    h.(states := h.states[room := state], outbox := h.outbox + Broadcast(h.rooms, room, StateOut(state), ws, h.open))
  }

  /** `handleWhiteboardClear`: forget the stored state, then broadcast the clear. */
  function BoardClearHub(h: Hub, ws: Conn, room: string): Hub {
    h.(states := h.states - {room}, outbox := h.outbox + Broadcast(h.rooms, room, ClearOut, ws, h.open))
  }

  /** The first open member other than `ws`, if any. */
  function Forwardee(members: seq<Conn>, ws: Conn, open: set<Conn>): (f: Option<Conn>)
    ensures f.Some? <==> exists x :: x in members && x != ws && x in open
    ensures f.Some? ==> f.value in members && f.value != ws && f.value in open
  {
    var r := Recipients(members, ws, open);
    if r == [] then None else assert r[0] in r; Some(r[0])
  }

  /**
   * The forwardee is the first member in room order that is open and not the
   * requester: every member before it is the requester or closed.
   */
  lemma ForwardeeFirst(members: seq<Conn>, ws: Conn, open: set<Conn>, k: nat)
    requires k < |members| && members[k] != ws && members[k] in open
    requires forall j :: 0 <= j < k ==> members[j] == ws || members[j] !in open
    ensures Forwardee(members, ws, open) == Some(members[k])
  {
    NoneBefore(members, ws, open, k);
    RecipientsSnoc(members, ws, open, k);
    RecipientsPrefix(members, ws, open, k + 1);
  }

  /**
   * `handleWhiteboardRequestState`: the stored state when there is one;
   * otherwise, in a room of more than one member, a request to one other open
   * member. `now` is `Date.now()`.
   */
  function RequestStateHub(h: Hub, ws: Conn, room: string, now: int): Hub {
    if room in h.states then h.(outbox := h.outbox + [Send(ws, StateOut(h.states[room]))])
    else if room in h.rooms && |h.rooms[room]| > 1 then
      match Forwardee(h.rooms[room], ws, h.open)
      case Some(c) => h.(outbox := h.outbox + [Send(c, RequestStateOut(now))])
      case None => h
    else h
  }

  /**
   * The message switch. 'chat' calls a handler that is not defined; the model
   * stops at the caught ReferenceError and leaves the tables as they were (what
   * the catch block then does is not modelled). Unknown types match no case.
   */
  function Handle(h: Hub, ws: Conn, msg: Incoming, now: int): Hub {
    match msg
    case Join(room, email) => JoinHub(h, ws, room, email)
    case Offer(room, offer) => RelayHub(h, ws, room, OfferOut(offer))
    case Answer(room, answer) => RelayHub(h, ws, room, AnswerOut(answer))
    case IceCandidate(room, candidate) => RelayHub(h, ws, room, IceOut(candidate))
    case Leave => DisconnectHub(h, ws)
    case Chat => h
    case BoardJoin(room, email) => BoardJoinHub(h, ws, room, email)
    case BoardDraw(room, drawData) => RelayHub(h, ws, room, DrawOut(drawData))
    case BoardState(room, state) => BoardStateHub(h, ws, room, state)
    case BoardClear(room) => BoardClearHub(h, ws, room)
    case BoardRequestState(room) => RequestStateHub(h, ws, room, now)
    case Unrecognised => h
  }

  /** A new connection starts alive and open. */
  function ConnectHub(h: Hub, ws: Conn): Hub {
    h.(connected := h.connected + [ws], open := h.open + {ws}, alive := h.alive[ws := true])
  }

  /** A pong marks the connection alive. */
  function PongHub(h: Hub, ws: Conn): Hub {
    h.(alive := h.alive[ws := true])
  }

  /** A closed socket is disconnected and leaves the server's connection list. */
  function CloseHub(h: Hub, ws: Conn): Hub {
    var d := DisconnectHub(h, ws);
    d.(open := d.open - {ws}, connected := RemoveMember(d.connected, ws))
  }

  /** One connection's turn in the heartbeat sweep. */
  function SweepStep(h: Hub, c: Conn): Hub {
    if c in h.alive && !h.alive[c] then
      var d := DisconnectHub(h, c);
      d.(open := d.open - {c}, outbox := d.outbox + [Terminate(c)])
    else
      h.(alive := h.alive[c := false], outbox := h.outbox + [Ping(c)])
  }

  /** The sweep over the connections `cs`, in order. */
  function Sweep(h: Hub, cs: seq<Conn>): Hub
    decreases |cs|
  {
    if cs == [] then h else SweepStep(Sweep(h, cs[..|cs| - 1]), cs[|cs| - 1])
  }

  // ---------------------------------------------------------------- join

  /** A join to a room of 10 or more answers 'Room is full' and changes no table. */
  lemma JoinFullRoom(h: Hub, ws: Conn, room: string, email: Option<string>)
    requires room in h.rooms && |h.rooms[room]| >= MaxRoomCapacity
    ensures JoinHub(h, ws, room, email) == h.(outbox := h.outbox + [Send(ws, ErrorNotice("Room is full"))])
  {
  }

  /**
   * A join below capacity records {room, email}, adds the connection to the
   * room (creating it if absent) and leaves every other room alone.
   */
  lemma JoinRecords(h: Hub, ws: Conn, room: string, email: Option<string>)
    requires !(room in h.rooms && |h.rooms[room]| >= MaxRoomCapacity)
    ensures var j := JoinHub(h, ws, room, email);
      j.clients == h.clients[ws := ClientInfo(room, email)]
      && room in j.rooms && ws in j.rooms[room]
      && (forall x :: x in j.rooms[room] <==> x in MembersOf(h.rooms, room) || x == ws)
      && (forall r :: r != room ==> (r in j.rooms <==> r in h.rooms) && (r in h.rooms ==> j.rooms[r] == h.rooms[r]))
      && j.states == h.states && j.alive == h.alive
  {
  }

  /** The room-info reply lists the other members' emails only, one per other member. */
  lemma RoomInfoListsOthers(h: Hub, ws: Conn, room: string, email: Option<string>)
    requires WellFormed(h)
    requires !(room in h.rooms && |h.rooms[room]| >= MaxRoomCapacity)
    ensures var j := JoinHub(h, ws, room, email);
      var p := Participants(j.rooms[room], ws, j.clients);
      p.Some? ==> |p.value| == |j.rooms[room]| - 1 && j.outbox[|j.outbox| - 1] == Send(ws, RoomInfo(p.value))
  {
    var j := JoinHub(h, ws, room, email);
    RemovePresent(j.rooms[room], ws);
  }

  /** Removing an element that is absent changes nothing. */
  lemma {:induction false} RemoveAbsent(members: seq<Conn>, ws: Conn)
    requires ws !in members
    ensures RemoveMember(members, ws) == members
    decreases |members|
  {
    if members != [] {
      var n := |members| - 1;
      RemoveAbsent(members[..n], ws);
      assert members == members[..n] + [members[n]];
    }
  }

  /** Removing an element listed once shortens the set by exactly one. */
  lemma {:induction false} RemovePresent(members: seq<Conn>, ws: Conn)
    requires NoDuplicates(members) && ws in members
    ensures |RemoveMember(members, ws)| == |members| - 1
    decreases |members|
  {
    var n := |members| - 1;
    var init := members[..n];
    assert NoDuplicates(init);
    assert members == init + [members[n]];
    if members[n] == ws {
      assert ws !in init;
      RemoveAbsent(init, ws);
    } else {
      assert ws in init;
      RemovePresent(init, ws);
    }
  }

  /** The room table after a join: unchanged when the room is full, else the joiner added to its room. */
  lemma JoinRooms(h: Hub, ws: Conn, room: string, email: Option<string>)
    ensures JoinHub(h, ws, room, email).rooms ==
      if room in h.rooms && |h.rooms[room]| >= MaxRoomCapacity then h.rooms
      else h.rooms[room := AddMember(MembersOf(h.rooms, room), ws)]
  {
  }

  /** Join alone never takes a room past 10 members. */
  lemma JoinKeepsCapacity(h: Hub, ws: Conn, room: string, email: Option<string>)
    requires forall r :: r in h.rooms ==> |h.rooms[r]| <= MaxRoomCapacity
    ensures var j := JoinHub(h, ws, room, email);
      forall r :: r in j.rooms ==> |j.rooms[r]| <= MaxRoomCapacity
  {
    var rooms := JoinHub(h, ws, room, email).rooms;
    JoinRooms(h, ws, room, email);
    forall r | r in rooms ensures |rooms[r]| <= MaxRoomCapacity {
      if r == room && !(room in h.rooms && |h.rooms[room]| >= MaxRoomCapacity) {
        assert |rooms[r]| <= |MembersOf(h.rooms, room)| + 1;
      }
    }
  }

  /**
   * Whiteboard join has no capacity check: a new connection always joins,
   * so a room at capacity grows past it.
   */
  lemma BoardJoinIgnoresCapacity(h: Hub, ws: Conn, room: string, email: Option<string>)
    requires ws !in MembersOf(h.rooms, room)
    ensures var j := BoardJoinHub(h, ws, room, email);
      room in j.rooms && ws in j.rooms[room] && |j.rooms[room]| == |MembersOf(h.rooms, room)| + 1
    ensures |MembersOf(h.rooms, room)| >= MaxRoomCapacity ==>
      |BoardJoinHub(h, ws, room, email).rooms[room]| > MaxRoomCapacity
  {
  }

  // ---------------------------------------------------------- disconnect

  /** Disconnecting a connection without a client record changes nothing. */
  lemma DisconnectUnknown(h: Hub, ws: Conn)
    requires ws !in h.clients
    ensures DisconnectHub(h, ws) == h
  {
  }

  /**
   * Disconnect deletes the client record, removes the connection from its
   * recorded room only, deletes that room exactly when nothing else is left in
   * it, and tells the remaining open members.
   */
  lemma DisconnectRemoves(h: Hub, ws: Conn)
    requires ws in h.clients
    ensures var d := DisconnectHub(h, ws);
      var room := h.clients[ws].room;
      d.clients == h.clients - {ws}
      && (room in d.rooms ==> ws !in d.rooms[room] && d.rooms[room] != [])
      && (room in d.rooms <==> room in h.rooms && exists x :: x in h.rooms[room] && x != ws)
      && (forall r :: r != room ==> (r in d.rooms <==> r in h.rooms) && (r in h.rooms ==> d.rooms[r] == h.rooms[r]))
      && d.outbox == h.outbox + Broadcast(d.rooms, room, UserLeft(h.clients[ws].email), ws, h.open)
      && d.states == h.states && d.alive == h.alive && d.open == h.open && d.connected == h.connected
  {
    var room := h.clients[ws].room;
    if room in h.rooms {
      var rest := RemoveMember(h.rooms[room], ws);
      assert rest != [] ==> rest[0] in rest;
      if exists x :: x in h.rooms[room] && x != ws {
        var x :| x in h.rooms[room] && x != ws;
        assert x in rest;
      }
    }
  }

  /**
   * A second join overwrites the client record but leaves the connection in
   * its first room's set, and the later disconnect leaves it there: membership
   * is not one room per connection.
   */
  lemma StaleMembership(h: Hub, ws: Conn, a: string, b: string, e1: Option<string>, e2: Option<string>)
    requires a != b
    requires !(a in h.rooms && |h.rooms[a]| >= MaxRoomCapacity)
    requires !(b in h.rooms && |h.rooms[b]| >= MaxRoomCapacity)
    ensures var h2 := JoinHub(JoinHub(h, ws, a, e1), ws, b, e2);
      var h3 := DisconnectHub(h2, ws);
      ws in h2.rooms[a] && h2.clients[ws] == ClientInfo(b, e2)
      && a in h3.rooms && ws in h3.rooms[a] && ws !in h3.clients
  {
    var h2 := JoinHub(JoinHub(h, ws, a, e1), ws, b, e2);
    DisconnectRemoves(h2, ws);
  }

  /**
   * A member without a client record (a stale member, as above) makes the
   * participant lookup throw: the joiner is still recorded and announced but
   * gets no room-info.
   */
  lemma StaleMemberBlocksRoomInfo(h: Hub, ws: Conn, room: string, email: Option<string>, stale: Conn)
    requires !(room in h.rooms && |h.rooms[room]| >= MaxRoomCapacity)
    requires stale in MembersOf(h.rooms, room) && stale != ws && stale !in h.clients
    ensures var j := JoinHub(h, ws, room, email);
      j.outbox == h.outbox + Broadcast(j.rooms, room, UserJoined(email), ws, h.open)
      && j.clients[ws] == ClientInfo(room, email)
  {
    var j := JoinHub(h, ws, room, email);
    assert stale in j.rooms[room] && stale !in j.clients;
  }

  // ----------------------------------------------------- whiteboard state

  /** After a state update, a state request and a whiteboard join get that state. */
  lemma StoredStateServed(h: Hub, ws: Conn, room: string, state: string, other: Conn, now: int, email: Option<string>)
    ensures var s := BoardStateHub(h, ws, room, state);
      s.states[room] == state
      && RequestStateHub(s, other, room, now).outbox == s.outbox + [Send(other, StateOut(state))]
      && BoardJoinHub(s, other, room, email).outbox[|s.outbox|] == Send(other, StateOut(state))
  {
  }

  /**
   * After a clear nothing is stored, and a state request adds at most one
   * send: a request to some other open member of the room.
   */
  lemma ClearedStateNotServed(h: Hub, ws: Conn, room: string, other: Conn, now: int)
    ensures var c := BoardClearHub(h, ws, room);
      room !in c.states
      && var r := RequestStateHub(c, other, room, now);
         r.outbox[..|c.outbox|] == c.outbox && |r.outbox| <= |c.outbox| + 1
         && forall i :: |c.outbox| <= i < |r.outbox| ==> r.outbox[i].Send? && r.outbox[i].message == RequestStateOut(now)
  {
  }

  /**
   * With no stored state, a request is forwarded to exactly one other open
   * member, the first in set order, and only when the room has more than one
   * member; nothing else changes.
   */
  lemma RequestForwarded(h: Hub, ws: Conn, room: string, now: int)
    requires room !in h.states
    ensures var r := RequestStateHub(h, ws, room, now);
      r.(outbox := h.outbox) == h
      && (|r.outbox| == |h.outbox| + 1 <==>
            room in h.rooms && |h.rooms[room]| > 1 && exists x :: x in h.rooms[room] && x != ws && x in h.open)
      && (|r.outbox| != |h.outbox| + 1 ==> r.outbox == h.outbox)
      && (|r.outbox| == |h.outbox| + 1 ==>
            var e := r.outbox[|h.outbox|];
            r.outbox == h.outbox + [e] && e.Send? && e.message == RequestStateOut(now)
            && e.target in h.rooms[room] && e.target != ws && e.target in h.open
            && e.target == Recipients(h.rooms[room], ws, h.open)[0])
  {
  }

  // ----------------------------------------------------------- heartbeat

  /**
   * In a sweep a connection whose flag is false is disconnected and
   * terminated; any other is marked not alive and pinged.
   */
  lemma SweepStepEffect(h: Hub, c: Conn)
    ensures var s := SweepStep(h, c);
      if c in h.alive && !h.alive[c] then
        c !in s.clients && c !in s.open && s.outbox[|s.outbox| - 1] == Terminate(c) && s.alive == h.alive
      else
        s.alive == h.alive[c := false] && s.outbox == h.outbox + [Ping(c)] && s.clients == h.clients
  {
  }

  /** A pong before the sweep saves the connection: it is pinged, not terminated. */
  lemma PongSaves(h: Hub, c: Conn)
    ensures SweepStep(PongHub(h, c), c).outbox == h.outbox + [Ping(c)]
  {
  }

  /** Facts every sweep step keeps. */
  lemma SweepStepMonotone(h: Hub, d: Conn)
    ensures var s := SweepStep(h, d);
      s.clients.Keys <= h.clients.Keys && s.open <= h.open
      && |h.outbox| <= |s.outbox| && s.outbox[..|h.outbox|] == h.outbox
      && forall x :: x != d ==> (x in s.alive <==> x in h.alive) && (x in h.alive ==> s.alive[x] == h.alive[x])
  {
  }

  /** A sweep keeps the outbox's old content, never adds clients or open connections, and leaves unswept flags alone. */
  lemma {:induction false} SweepMonotone(h: Hub, cs: seq<Conn>, x: Conn)
    ensures var s := Sweep(h, cs);
      s.clients.Keys <= h.clients.Keys && s.open <= h.open
      && |h.outbox| <= |s.outbox| && s.outbox[..|h.outbox|] == h.outbox
      && (x !in cs ==> (x in s.alive <==> x in h.alive) && (x in h.alive ==> s.alive[x] == h.alive[x]))
    decreases |cs|
  {
    if cs != [] {
      var n := |cs| - 1;
      SweepMonotone(h, cs[..n], x);
      SweepStepMonotone(Sweep(h, cs[..n]), cs[n]);
      assert x !in cs ==> x !in cs[..n] && x != cs[n];
    }
  }

  /** After a sweep over `cs`, every connection in `cs` is flagged not alive. */
  lemma {:induction false} SweepMarks(h: Hub, cs: seq<Conn>, c: Conn)
    requires NoDuplicates(cs) && c in cs
    ensures c in Sweep(h, cs).alive && !Sweep(h, cs).alive[c]
    decreases |cs|
  {
    var n := |cs| - 1;
    assert NoDuplicates(cs[..n]);
    var before := Sweep(h, cs[..n]);
    if cs[n] == c {
      SweepStepEffect(before, c);
    } else {
      assert c in cs[..n];
      SweepMarks(h, cs[..n], c);
      SweepStepMonotone(before, cs[n]);
    }
  }

  /** A sweep over `cs` disconnects and terminates a connection of `cs` that entered it flagged not alive. */
  lemma {:induction false} SweepRemovesDead(h: Hub, cs: seq<Conn>, c: Conn)
    requires NoDuplicates(cs) && c in cs && c in h.alive && !h.alive[c]
    ensures var s := Sweep(h, cs);
      c !in s.clients && c !in s.open && Terminate(c) in s.outbox
    decreases |cs|
  {
    var n := |cs| - 1;
    assert NoDuplicates(cs[..n]);
    var before := Sweep(h, cs[..n]);
    var s := SweepStep(before, cs[n]);
    if cs[n] == c {
      assert c !in cs[..n];
      SweepMonotone(h, cs[..n], c);
      SweepStepEffect(before, c);
    } else {
      assert c in cs[..n];
      SweepRemovesDead(h, cs[..n], c);
      SweepStepMonotone(before, cs[n]);
      var i :| 0 <= i < |before.outbox| && before.outbox[i] == Terminate(c);
      assert s.outbox[i] == s.outbox[..|before.outbox|][i];
    }
  }

  /**
   * A connection that answers no ping between two sweeps is disconnected and
   * terminated by the second.
   */
  lemma UnansweredPingTerminates(h: Hub, cs: seq<Conn>, c: Conn)
    requires NoDuplicates(cs) && c in cs
    ensures var s := Sweep(Sweep(h, cs), cs);
      c !in s.clients && c !in s.open && Terminate(c) in s.outbox
  {
    SweepMarks(h, cs, c);
    SweepRemovesDead(Sweep(h, cs), cs, c);
  }

  // ---------------------------------------------------------- well-formed

  /** Every handler keeps rooms non-empty and free of repeated connections. */
  lemma HandleWellFormed(h: Hub, ws: Conn, msg: Incoming, now: int)
    requires WellFormed(h)
    ensures WellFormed(Handle(h, ws, msg, now))
  {
    match msg
    case Join(room, email) => JoinWellFormed(h, ws, room, email);
    case BoardJoin(room, email) => BoardJoinWellFormed(h, ws, room, email);
    case Leave => DisconnectWellFormed(h, ws);
    case _ => assert Handle(h, ws, msg, now).rooms == h.rooms;
  }

  /** Adding a connection to a room, new or not, keeps every room set non-empty and duplicate-free. */
  lemma AddWellFormed(h: Hub, ws: Conn, room: string)
    requires WellFormed(h)
    ensures WellFormed(h.(rooms := h.rooms[room := AddMember(MembersOf(h.rooms, room), ws)]))
  {
    var joined := AddMember(MembersOf(h.rooms, room), ws);
    assert ws in joined;
  }

  lemma JoinWellFormed(h: Hub, ws: Conn, room: string, email: Option<string>)
    requires WellFormed(h)
    ensures WellFormed(JoinHub(h, ws, room, email))
  {
    AddWellFormed(h, ws, room);
  }

  lemma BoardJoinWellFormed(h: Hub, ws: Conn, room: string, email: Option<string>)
    requires WellFormed(h)
    ensures WellFormed(BoardJoinHub(h, ws, room, email))
  {
    AddWellFormed(h, ws, room);
  }

  lemma DisconnectWellFormed(h: Hub, ws: Conn)
    requires WellFormed(h)
    ensures WellFormed(DisconnectHub(h, ws))
  {
  }

  /** The heartbeat sweep keeps rooms well formed too. */
  lemma {:induction false} SweepWellFormed(h: Hub, cs: seq<Conn>)
    requires WellFormed(h)
    ensures WellFormed(Sweep(h, cs))
    decreases |cs|
  {
    if cs != [] {
      SweepWellFormed(h, cs[..|cs| - 1]);
      DisconnectWellFormed(Sweep(h, cs[..|cs| - 1]), cs[|cs| - 1]);
    }
  }

  /** The loop of `broadcastToRoom`: appends one send per open member other than the sender, in member order. */
  method SendToOthers(outbox: seq<Effect>, members: seq<Conn>, m: Outgoing, sender: Conn, open: set<Conn>)
    returns (sent: seq<Effect>)
    ensures sent == outbox + Sends(Recipients(members, sender, open), m)
  {
    sent := outbox;
    for i := 0 to |members|
      invariant sent == outbox + Sends(Recipients(members[..i], sender, open), m)
    {
      RecipientsSnoc(members, sender, open, i);
      if members[i] != sender && members[i] in open {
        SendsSnoc(Recipients(members[..i], sender, open), members[i], m);
        sent := sent + [Send(members[i], m)];
      }
    }
    assert members[..|members|] == members;
  }

  /** The request loop of `handleWhiteboardRequestState`: it stops at the first member other than `ws` whose socket is open. */
  method FirstOpenOther(members: seq<Conn>, ws: Conn, open: set<Conn>) returns (f: Option<Conn>)
    ensures f == Forwardee(members, ws, open)
  {
    for i := 0 to |members|
      invariant Recipients(members[..i], ws, open) == []
    {
      RecipientsSnoc(members, ws, open, i);
      if members[i] != ws && members[i] in open {
        RecipientsPrefix(members, ws, open, i + 1);
        return Some(members[i]);
      }
    }
    assert members[..|members|] == members;
    return None;
  }

  /** The recipients among a prefix of the members are a prefix of all the recipients. */
  lemma RecipientsPrefix(members: seq<Conn>, sender: Conn, open: set<Conn>, k: nat)
    requires k <= |members|
    ensures var r, q := Recipients(members, sender, open), Recipients(members[..k], sender, open);
      |q| <= |r| && r[..|q|] == q
  {
    FilterPrefix(members, (x: Conn) => x != sender && x in open, k);
  }

  /** A room prefix holding only the requester and closed members has no recipient. */
  lemma {:induction false} NoneBefore(members: seq<Conn>, ws: Conn, open: set<Conn>, k: nat)
    requires k <= |members|
    requires forall j :: 0 <= j < k ==> members[j] == ws || members[j] !in open
    ensures Recipients(members[..k], ws, open) == []
    decreases k
  {
    if k > 0 {
      NoneBefore(members, ws, open, k - 1);
      RecipientsSnoc(members, ws, open, k - 1);
    }
  }

  lemma RecipientsSnoc(members: seq<Conn>, sender: Conn, open: set<Conn>, i: nat)
    requires i < |members|
    ensures Recipients(members[..i + 1], sender, open) ==
      Recipients(members[..i], sender, open) + (if members[i] != sender && members[i] in open then [members[i]] else [])
  {
    assert members[..i + 1][..i] == members[..i];
  }

  lemma SendsSnoc(cs: seq<Conn>, x: Conn, m: Outgoing)
    ensures Sends(cs + [x], m) == Sends(cs, m) + [Send(x, m)]
  {
  }

  /** The hub's tables, updated in place by the handlers. */
  class Server {
    var rooms: map<string, seq<Conn>>
    var clients: map<Conn, ClientInfo>
    /** `whiteboardStates`. */
    var states: map<string, string>
    /** `ws.isAlive` of each connection. */
    var alive: map<Conn, bool>
    /** The connections whose `readyState` is OPEN. */
    var open: set<Conn>
    /** `wss.clients`, in connection order. */
    var connected: seq<Conn>
    /** Every send, ping and terminate so far, oldest first. */
    var outbox: seq<Effect>

    ghost function Snapshot(): Hub
      reads this
    {
      Hub(rooms, clients, states, alive, open, connected, outbox)
    }

    constructor ()
      ensures Snapshot() == Hub(map[], map[], map[], map[], {}, [], [])
    {
      rooms, clients, states, alive := map[], map[], map[], map[];
      open, connected, outbox := {}, [], [];
    }

    /** A new `ws` object: tracked, open, and alive. */
    method Connect(ws: Conn)
      requires ws !in connected
      modifies this
      ensures Snapshot() == ConnectHub(old(Snapshot()), ws)
      ensures NoDuplicates(old(connected)) ==> NoDuplicates(connected)
    {
      connected := connected + [ws];
      open := open + {ws};
      alive := alive[ws := true];
    }

    /** The `pong` listener. */
    method Pong(ws: Conn)
      modifies this
      ensures Snapshot() == PongHub(old(Snapshot()), ws)
    {
      alive := alive[ws := true];
    }

    /** `broadcastToRoom`: one send per open member other than the sender. */
    method BroadcastToRoom(room: string, m: Outgoing, sender: Conn)
      modifies this
      ensures Snapshot() == old(Snapshot()).(outbox := old(outbox) + Broadcast(old(rooms), room, m, sender, old(open)))
    {
      if room in rooms {
        var sent := SendToOthers(outbox, rooms[room], m, sender, open);
        outbox := sent;
      } else {
        assert outbox + Broadcast(rooms, room, m, sender, open) == outbox;
      }
    }

    /** `handleJoin`. */
    method HandleJoin(ws: Conn, room: string, email: Option<string>)
      modifies this
      ensures Snapshot() == JoinHub(old(Snapshot()), ws, room, email)
    {
      if room in rooms && |rooms[room]| >= MaxRoomCapacity {
        outbox := outbox + [Send(ws, ErrorNotice("Room is full"))];
        return;
      }
      clients := clients[ws := ClientInfo(room, email)];
      rooms := rooms[room := AddMember(MembersOf(rooms, room), ws)];
      BroadcastToRoom(room, UserJoined(email), ws);
      var participants := Participants(rooms[room], ws, clients);
      if participants.Some? {
        outbox := outbox + [Send(ws, RoomInfo(participants.value))];
      } else {
        assert outbox + [] == outbox;
      }
    }

    /** `handleDisconnect`. */
    method HandleDisconnect(ws: Conn)
      modifies this
      ensures Snapshot() == DisconnectHub(old(Snapshot()), ws)
    {
      if ws in clients {
        var info := clients[ws];
        if info.room in rooms {
          var rest := RemoveMember(rooms[info.room], ws);
          if |rest| == 0 {
            rooms := rooms - {info.room};
          } else {
            rooms := rooms[info.room := rest];
          }
        }
        BroadcastToRoom(info.room, UserLeft(info.email), ws);
        clients := clients - {ws};
      }
    }

    /** `handleWhiteboardJoin`. */
    method HandleBoardJoin(ws: Conn, room: string, email: Option<string>)
      modifies this
      ensures Snapshot() == BoardJoinHub(old(Snapshot()), ws, room, email)
    {
      var e := Some(BoardEmail(email));
      clients := clients[ws := ClientInfo(room, e)];
      rooms := rooms[room := AddMember(MembersOf(rooms, room), ws)];
      if room in states {
        outbox := outbox + [Send(ws, StateOut(states[room]))];
      } else {
        assert outbox + [] == outbox;
      }
      BroadcastToRoom(room, UserJoined(e), ws);
    }

    /** `handleWhiteboardRequestState`. */
    method HandleRequestState(ws: Conn, room: string, now: int)
      modifies this
      ensures Snapshot() == RequestStateHub(old(Snapshot()), ws, room, now)
    {
      if room in states {
        outbox := outbox + [Send(ws, StateOut(states[room]))];
      } else if room in rooms && |rooms[room]| > 1 {
        var target := FirstOpenOther(rooms[room], ws, open);
        if target.Some? {
          outbox := outbox + [Send(target.value, RequestStateOut(now))];
        }
      }
    }

    /** The message listener's switch. */
    method OnMessage(ws: Conn, msg: Incoming, now: int)
      modifies this
      ensures Snapshot() == Handle(old(Snapshot()), ws, msg, now)
    {
      match msg
      case Join(room, email) => HandleJoin(ws, room, email);
      case Offer(room, offer) => BroadcastToRoom(room, OfferOut(offer), ws);
      case Answer(room, answer) => BroadcastToRoom(room, AnswerOut(answer), ws);
      case IceCandidate(room, candidate) => BroadcastToRoom(room, IceOut(candidate), ws);
      case Leave => HandleDisconnect(ws);
      case Chat =>
      case BoardJoin(room, email) => HandleBoardJoin(ws, room, email);
      case BoardDraw(room, drawData) => BroadcastToRoom(room, DrawOut(drawData), ws);
      case BoardState(room, state) =>
        states := states[room := state];
        BroadcastToRoom(room, StateOut(state), ws);
      case BoardClear(room) =>
        states := states - {room};
        BroadcastToRoom(room, ClearOut, ws);
      case BoardRequestState(room) => HandleRequestState(ws, room, now);
      case Unrecognised =>
    }

    /** The `close` listener, after the socket layer has dropped the connection. */
    method OnClose(ws: Conn)
      modifies this
      ensures Snapshot() == CloseHub(old(Snapshot()), ws)
    {
      HandleDisconnect(ws);
      open := open - {ws};
      connected := RemoveMember(connected, ws);
    }

    /** One run of the heartbeat interval over `wss.clients`. */
    method HeartbeatSweep()
      modifies this
      ensures Snapshot() == Sweep(old(Snapshot()), old(connected))
    {
      var cs := connected;
      for i := 0 to |cs|
        invariant Snapshot() == Sweep(old(Snapshot()), cs[..i])
      {
        assert cs[..i + 1][..i] == cs[..i];
        var c := cs[i];
        if c in alive && !alive[c] {
          HandleDisconnect(c);
          open := open - {c};
          outbox := outbox + [Terminate(c)];
        } else {
          alive := alive[c := false];
          outbox := outbox + [Ping(c)];
        }
      }
      assert cs[..|cs|] == cs;
    }
  }
}
