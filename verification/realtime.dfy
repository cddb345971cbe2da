/** backend/src/socket/socketHandler.ts: the Socket.IO distributor. A
    handshake is accepted only after its token verifies; an accepted session
    joins its facility room (when its claims name a facility) and its user
    room, and may later join any triage room. An event emitted to a room
    reaches the sessions in that room. The hub is the state record: the
    claims of each connected session and the members of each room. */
module Realtime {
  import opened Wrappers
  import opened Text
  import opened Js
  import opened Jwt

  type SessionId = nat

  datatype Hub = Hub(sessions: map<SessionId, Claims>, rooms: map<string, set<SessionId>>)

  const EmptyHub := Hub(map[], map[])

  const FacilityPrefix := "facility:"
  const UserPrefix := "user:"
  const TriagePrefix := "triage:"

  function FacilityRoom(facilityId: string): string { FacilityPrefix + facilityId }
  function UserRoom(userId: string): string { UserPrefix + userId }
  function TriageRoom(triageId: string): string { TriagePrefix + triageId }

  predicate IsFacilityRoom(room: string) { StartsWith(room, FacilityPrefix) }

  /** The facility a facility room belongs to. */
  function RoomFacility(room: string): string
    requires IsFacilityRoom(room)
  {
    room[|FacilityPrefix|..]
  }

  /** The three room families never collide, and each name determines its id. */
  lemma RoomNamesDisjoint(a: string, b: string)
    ensures IsFacilityRoom(FacilityRoom(a)) && RoomFacility(FacilityRoom(a)) == a
    ensures !IsFacilityRoom(UserRoom(b)) && !IsFacilityRoom(TriageRoom(b))
    ensures UserRoom(a) != TriageRoom(b)
    ensures UserRoom(a) == UserRoom(b) ==> a == b
    ensures TriageRoom(a) == TriageRoom(b) ==> a == b
  {
    assert FacilityRoom(a)[..|FacilityPrefix|] == FacilityPrefix;
    assert FacilityRoom(a)[|FacilityPrefix|..] == a;
    assert UserRoom(b)[0] == 'u' && TriageRoom(b)[0] == 't';
    assert UserRoom(a)[0] != TriageRoom(b)[0];
    if UserRoom(a) == UserRoom(b) {
      assert a == UserRoom(a)[|UserPrefix|..] && b == UserRoom(b)[|UserPrefix|..];
    }
    if TriageRoom(a) == TriageRoom(b) {
      assert a == TriageRoom(a)[|TriagePrefix|..] && b == TriageRoom(b)[|TriagePrefix|..];
    }
  }

  /** Why a handshake was refused: 'Authentication error', 'JWT_SECRET not
      configured', 'Invalid token'. */
  datatype Rejection = AuthenticationError | SecretNotConfigured | InvalidToken

  /** The `io.use` middleware (lines 6-31). */
  function Authorize(token: Option<string>, secret: Option<string>, verify: Verifier): (r: Result<Claims, Rejection>)
    ensures !GivenText(token) ==> r == Err(AuthenticationError)
    ensures GivenText(token) && !GivenText(secret) ==> r == Err(SecretNotConfigured)
    ensures GivenText(token) && GivenText(secret) && verify(token.value, secret.value).None? ==> r == Err(InvalidToken)
    ensures r.Ok? <==> GivenText(token) && GivenText(secret) && verify(token.value, secret.value).Some?
    ensures r.Ok? ==> r.value == verify(token.value, secret.value).value
  {
    if !GivenText(token) then Err(AuthenticationError)
    else if !GivenText(secret) then Err(SecretNotConfigured)
    else match verify(token.value, secret.value)
      case None => Err(InvalidToken)
      case Some(claims) => Ok(claims)
  }

  /** The sessions in a room: those an event emitted to it reaches. */
  function Members(hub: Hub, room: string): set<SessionId> {
    if room in hub.rooms then hub.rooms[room] else {}
  }

  /** `socket.join(room)`. */
  function Join(hub: Hub, room: string, sid: SessionId): (h: Hub)
    ensures h.sessions == hub.sessions
    ensures Members(h, room) == Members(hub, room) + {sid}
    ensures forall r :: r != room ==> Members(h, r) == Members(hub, r)
    ensures h.rooms.Keys == hub.rooms.Keys + {room}
  {
    hub.(rooms := hub.rooms[room := Members(hub, room) + {sid}])
  }

  /** The connection handler (lines 33-43): record the claims, join the
      facility room when the claims carry a truthy facility, then the user room. */
  function OnConnection(hub: Hub, sid: SessionId, claims: Claims): (h: Hub)
    ensures h.sessions == hub.sessions[sid := claims]
    ensures sid in Members(h, UserRoom(claims.userId))
    ensures GivenText(claims.facilityId) ==> sid in Members(h, FacilityRoom(claims.facilityId.value))
    ensures forall room :: room != UserRoom(claims.userId)
                           && !(GivenText(claims.facilityId) && room == FacilityRoom(claims.facilityId.value)) ==>
              Members(h, room) == Members(hub, room)
  {
    var h := hub.(sessions := hub.sessions[sid := claims]);
    var h' := if GivenText(claims.facilityId) then Join(h, FacilityRoom(claims.facilityId.value), sid) else h;
    Join(h', UserRoom(claims.userId), sid)
  }

  datatype Handshake = Handshake(hub: Hub, outcome: Result<Claims, Rejection>)

  /** A connection attempt with a fresh socket id. */
  function Connect(hub: Hub, sid: SessionId, token: Option<string>, secret: Option<string>, verify: Verifier): (r: Handshake)
    requires sid !in hub.sessions
    ensures r.outcome == Authorize(token, secret, verify)
    ensures r.outcome.Err? ==> r.hub == hub
    ensures r.outcome.Ok? ==> r.hub.sessions == hub.sessions[sid := r.outcome.value]
    ensures r.outcome.Ok? ==> sid in Members(r.hub, UserRoom(r.outcome.value.userId))
    ensures r.outcome.Ok? ==> forall room :: IsFacilityRoom(room) ==>
              (sid in Members(r.hub, room) <==>
                 (GivenText(r.outcome.value.facilityId) && room == FacilityRoom(r.outcome.value.facilityId.value))
                 || sid in Members(hub, room))
    ensures forall room :: IsFacilityRoom(room) && !(r.outcome.Ok? && sid in Members(r.hub, room)) ==>
              Members(r.hub, room) == Members(hub, room)
  {
    match Authorize(token, secret, verify)
    case Err(why) => Handshake(hub, Err(why))
    case Ok(claims) =>
      RoomNamesDisjoint("", claims.userId);
      Handshake(OnConnection(hub, sid, claims), Ok(claims))
  }

  /** `triage:subscribe` (lines 46-48): any connected session may join the
      room of any triage id; there is no ownership check. */
  function Subscribe(hub: Hub, sid: SessionId, triageId: string): (h: Hub)
    ensures sid in hub.sessions ==> sid in Members(h, TriageRoom(triageId))
    ensures h.sessions == hub.sessions
    ensures forall room :: IsFacilityRoom(room) ==> Members(h, room) == Members(hub, room)
  {
    RoomNamesDisjoint("", triageId);
    if sid in hub.sessions then Join(hub, TriageRoom(triageId), sid) else hub
  }

  /** Disconnection. The application's handler only logs (lines 50-52); it
      is Socket.IO itself that drops the socket from every room. */
  function Disconnect(hub: Hub, sid: SessionId): (h: Hub)
    ensures sid !in h.sessions
    ensures forall room :: sid !in Members(h, room)
    ensures forall room :: Members(h, room) == Members(hub, room) - {sid}
  {
    Hub(hub.sessions - {sid}, map room | room in hub.rooms :: hub.rooms[room] - {sid})
  }

  // ---------------------------------------------------------------------------
  // The hub invariant and its consequence for facility events.

  /** Room members are connected sessions. */
  predicate MembersConnected(hub: Hub) {
    forall room, s :: room in hub.rooms && s in hub.rooms[room] ==> s in hub.sessions
  }

  /** A facility room holds only sessions whose claims name that facility. */
  predicate FacilityRoomsScoped(hub: Hub) {
    forall room, s :: room in hub.rooms && s in hub.rooms[room] && IsFacilityRoom(room) ==>
      s in hub.sessions && hub.sessions[s].facilityId == Some(RoomFacility(room))
  }

  /** Every session whose claims name a facility is in that facility's room. */
  predicate FacilityMembersJoined(hub: Hub) {
    forall s :: s in hub.sessions && GivenText(hub.sessions[s].facilityId) ==>
      s in Members(hub, FacilityRoom(hub.sessions[s].facilityId.value))
  }

  /** Every session is in its user room. */
  predicate UserMembersJoined(hub: Hub) {
    forall s :: s in hub.sessions ==> s in Members(hub, UserRoom(hub.sessions[s].userId))
  }

  predicate Valid(hub: Hub) {
    MembersConnected(hub) && FacilityRoomsScoped(hub) && FacilityMembersJoined(hub) && UserMembersJoined(hub)
  }

  lemma EmptyHubValid()
    ensures Valid(EmptyHub)
  {
  }

  /** An event emitted to facility F reaches every session whose claims name
      F and no other session. */
  lemma FacilityEventReach(hub: Hub, f: string)
    requires Valid(hub) && f != ""
    ensures Members(hub, FacilityRoom(f)) == set s | s in hub.sessions && hub.sessions[s].facilityId == Some(f)
  {
    RoomNamesDisjoint(f, "");
    var want := set s | s in hub.sessions && hub.sessions[s].facilityId == Some(f);
    forall s | s in Members(hub, FacilityRoom(f))
      ensures s in want
    {
    }
    forall s | s in want
      ensures s in Members(hub, FacilityRoom(f))
    {
      assert GivenText(hub.sessions[s].facilityId);
    }
  }

  lemma ConnectPreservesValid(hub: Hub, sid: SessionId, token: Option<string>, secret: Option<string>, verify: Verifier)
    requires Valid(hub) && sid !in hub.sessions
    ensures Valid(Connect(hub, sid, token, secret, verify).hub)
  {
    ConnectKeepsScope(hub, sid, token, secret, verify);
    ConnectKeepsJoined(hub, sid, token, secret, verify);
    ConnectKeepsConnected(hub, sid, token, secret, verify);
  }

  lemma ConnectKeepsScope(hub: Hub, sid: SessionId, token: Option<string>, secret: Option<string>, verify: Verifier)
    requires Valid(hub) && sid !in hub.sessions
    ensures FacilityRoomsScoped(Connect(hub, sid, token, secret, verify).hub)
  {
    var r := Connect(hub, sid, token, secret, verify);
    if r.outcome.Ok? {
      var c := r.outcome.value;
      var h := r.hub;
      forall room, s | room in h.rooms && s in h.rooms[room] && IsFacilityRoom(room)
        ensures s in h.sessions && h.sessions[s].facilityId == Some(RoomFacility(room))
      {
        assert s in Members(h, room);
        if s != sid {
          assert s in Members(hub, room);
        }
      }
    }
  }

  lemma ConnectKeepsJoined(hub: Hub, sid: SessionId, token: Option<string>, secret: Option<string>, verify: Verifier)
    requires Valid(hub) && sid !in hub.sessions
    ensures var h := Connect(hub, sid, token, secret, verify).hub;
      UserMembersJoined(h) && FacilityMembersJoined(h)
  {
    var r := Connect(hub, sid, token, secret, verify);
    if r.outcome.Ok? {
      var c := r.outcome.value;
      var h := r.hub;
      if GivenText(c.facilityId) {
        RoomNamesDisjoint(c.facilityId.value, "");
      }
      forall s | s in h.sessions
        ensures s in Members(h, UserRoom(h.sessions[s].userId))
      {
        if s != sid {
          assert s in Members(hub, UserRoom(hub.sessions[s].userId));
        }
      }
      forall s | s in h.sessions && GivenText(h.sessions[s].facilityId)
        ensures s in Members(h, FacilityRoom(h.sessions[s].facilityId.value))
      {
        if s != sid {
          var room := FacilityRoom(hub.sessions[s].facilityId.value);
          RoomNamesDisjoint(hub.sessions[s].facilityId.value, "");
          assert s in Members(hub, room);
        }
      }
    }
  }

  lemma ConnectKeepsConnected(hub: Hub, sid: SessionId, token: Option<string>, secret: Option<string>, verify: Verifier)
    requires Valid(hub) && sid !in hub.sessions
    ensures MembersConnected(Connect(hub, sid, token, secret, verify).hub)
  {
    var r := Connect(hub, sid, token, secret, verify);
    if r.outcome.Ok? {
      var c := r.outcome.value;
      var h := r.hub;
      RoomNamesDisjoint("", c.userId);
      forall room, s | room in h.rooms && s in h.rooms[room]
        ensures s in h.sessions
      {
        assert s in Members(h, room);
        if s != sid {
          assert s in Members(hub, room);
        }
      }
    }
  }


  lemma SubscribePreservesValid(hub: Hub, sid: SessionId, triageId: string)
    requires Valid(hub)
    ensures Valid(Subscribe(hub, sid, triageId))
  {
    var h := Subscribe(hub, sid, triageId);
    RoomNamesDisjoint("", triageId);
    forall s | s in h.sessions
      ensures s in Members(h, UserRoom(h.sessions[s].userId))
    {
      assert s in Members(hub, UserRoom(hub.sessions[s].userId));
    }
    forall s | s in h.sessions && GivenText(h.sessions[s].facilityId)
      ensures s in Members(h, FacilityRoom(h.sessions[s].facilityId.value))
    {
      RoomNamesDisjoint(hub.sessions[s].facilityId.value, "");
      assert s in Members(hub, FacilityRoom(hub.sessions[s].facilityId.value));
    }
    forall room, s | room in h.rooms && s in h.rooms[room]
      ensures s in h.sessions
    {
      assert s in Members(h, room);
    }
    forall room, s | room in h.rooms && s in h.rooms[room] && IsFacilityRoom(room)
      ensures s in h.sessions && h.sessions[s].facilityId == Some(RoomFacility(room))
    {
      assert s in Members(h, room);
      assert s in Members(hub, room);
    }
  }

  lemma DisconnectPreservesValid(hub: Hub, sid: SessionId)
    requires Valid(hub)
    ensures Valid(Disconnect(hub, sid))
  {
    var h := Disconnect(hub, sid);
    forall s | s in h.sessions
      ensures s in Members(h, UserRoom(h.sessions[s].userId))
    {
      assert s in Members(hub, UserRoom(hub.sessions[s].userId));
    }
    forall s | s in h.sessions && GivenText(h.sessions[s].facilityId)
      ensures s in Members(h, FacilityRoom(h.sessions[s].facilityId.value))
    {
      assert s in Members(hub, FacilityRoom(hub.sessions[s].facilityId.value));
    }
    forall room, s | room in h.rooms && s in h.rooms[room]
      ensures s in h.sessions
    {
      assert s in Members(h, room);
      assert s in Members(hub, room);
    }
    forall room, s | room in h.rooms && s in h.rooms[room] && IsFacilityRoom(room)
      ensures s in h.sessions && h.sessions[s].facilityId == Some(RoomFacility(room))
    {
      assert s in Members(h, room);
      assert s in Members(hub, room);
    }
  }

  // ---------------------------------------------------------------------------
  // Runs: any sequence of connections, subscriptions and disconnections.

  datatype Event =
    | Open(sid: SessionId, token: Option<string>)
    | SubscribeTo(sid: SessionId, triageId: string)
    | Close(sid: SessionId)

  /** One event. Socket ids are unique per connection, so an `Open` that
      reuses a connected id is ignored. */
  function Step(hub: Hub, e: Event, secret: Option<string>, verify: Verifier): Hub {
    match e
    case Open(sid, token) => if sid in hub.sessions then hub else Connect(hub, sid, token, secret, verify).hub
    case SubscribeTo(sid, triageId) => Subscribe(hub, sid, triageId)
    case Close(sid) => Disconnect(hub, sid)
  }

  function Run(hub: Hub, events: seq<Event>, secret: Option<string>, verify: Verifier): Hub
    decreases |events|
  {
    if events == [] then hub else Run(Step(hub, events[0], secret, verify), events[1..], secret, verify)
  }

  lemma {:induction false} RunPreservesValid(hub: Hub, events: seq<Event>, secret: Option<string>, verify: Verifier)
    requires Valid(hub)
    ensures Valid(Run(hub, events, secret, verify))
    decreases |events|
  {
    if events != [] {
      var e := events[0];
      match e {
        case Open(sid, token) =>
          if sid !in hub.sessions {
            ConnectPreservesValid(hub, sid, token, secret, verify);
          }
        case SubscribeTo(sid, triageId) => SubscribePreservesValid(hub, sid, triageId);
        case Close(sid) => DisconnectPreservesValid(hub, sid);
      }
      RunPreservesValid(Step(hub, e, secret, verify), events[1..], secret, verify);
    }
  }

  /** Starting from no connections, a facility event reaches exactly the
      sessions whose verified claims name that facility. */
  lemma NoCrossFacilityDelivery(events: seq<Event>, secret: Option<string>, verify: Verifier, f: string)
    requires f != ""
    ensures var hub := Run(EmptyHub, events, secret, verify);
      Members(hub, FacilityRoom(f)) == set s | s in hub.sessions && hub.sessions[s].facilityId == Some(f)
  {
    EmptyHubValid();
    RunPreservesValid(EmptyHub, events, secret, verify);
    FacilityEventReach(Run(EmptyHub, events, secret, verify), f);
  }

  /** Every `Open` of this session presents a credential that does not verify. */
  predicate AlwaysRejected(events: seq<Event>, sid: SessionId, secret: Option<string>, verify: Verifier) {
    forall i :: 0 <= i < |events| && events[i].Open? && events[i].sid == sid ==>
      Authorize(events[i].token, secret, verify).Err?
  }

  /** A session whose credential never verifies joins no room, whatever it
      later asks for, and so receives no event. */
  lemma {:induction false} RejectedSessionJoinsNothing(hub: Hub, events: seq<Event>, sid: SessionId,
                                                       secret: Option<string>, verify: Verifier)
    requires Valid(hub) && sid !in hub.sessions
    requires AlwaysRejected(events, sid, secret, verify)
    ensures forall room :: sid !in Members(Run(hub, events, secret, verify), room)
    decreases |events|
  {
    if events == [] {
      forall room ensures sid !in Members(hub, room) { }
    } else {
      var h := Step(hub, events[0], secret, verify);
      match events[0] {
        case Open(s, token) =>
          if s !in hub.sessions {
            ConnectPreservesValid(hub, s, token, secret, verify);
          }
        case SubscribeTo(s, triageId) => SubscribePreservesValid(hub, s, triageId);
        case Close(s) => DisconnectPreservesValid(hub, s);
      }
      assert sid !in h.sessions;
      assert AlwaysRejected(events[1..], sid, secret, verify) by {
        forall i | 0 <= i < |events[1..]| && events[1..][i].Open? && events[1..][i].sid == sid
          ensures Authorize(events[1..][i].token, secret, verify).Err?
        {
          assert events[1..][i] == events[i + 1];
        }
      }
      RejectedSessionJoinsNothing(h, events[1..], sid, secret, verify);
    }
  }
}
