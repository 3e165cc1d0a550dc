/**
 The sessions of one group (src/server.rs): who has joined which rooms, next to the room cache and the store. Each
 handler is one step here; room creation at the granularity of its await points is in RoomCreation.
 */
module Sessions {
  import opened Wrappers
  import opened Protocol
  import opened Sanitizer
  import opened BodyCipher
  import opened Store
  import opened StoreMembers
  import opened StoreRooms
  import opened RoomCreation
  import opened GatewayStores

  /** A connected session: who it is, as it was admitted, and the rooms it has joined. */
  datatype Client = Client(peer: Peer, role: GroupRole, joined: set<string>)

  /** The store's tables, the group's room cache and its connected sessions. */
  datatype Registry = Registry(tables: Tables, cache: map<string, RoomSummary>, clients: map<Uuid, Client>)

  datatype Reply =
    | InvalidRoom | UnknownRoom | NotJoined | Denied | HistoryUnavailable | RoomJoined(room: RoomSummary)
    | CannotLeaveGeneral | RoomLeft
    | InvalidName | RoomLimit | NameTaken | NotPersisted
    | InvalidMessage | Delivered(record: ChatRecord)
    | MembershipSet | MembershipUnchanged | MembershipFailed

  datatype Outcome = Outcome(registry: Registry, reply: Reply)

  /** A message a session asks to send, with the clock and the nonce its handling meets. */
  datatype Draft = Draft(session: Uuid, room: string, id: Uuid, text: string, now: nat, nonce: seq<Byte>)

  function Joining(clients: map<Uuid, Client>, session: Uuid, room: string): map<Uuid, Client> {
    if session in clients then clients[session := clients[session].(joined := clients[session].joined + {room})]
    else clients
  }

  function Leaving(clients: map<Uuid, Client>, session: Uuid, room: string): map<Uuid, Client> {
    if session in clients then clients[session := clients[session].(joined := clients[session].joined - {room})]
    else clients
  }

  predicate HasJoined(r: Registry, session: Uuid, room: string) {
    session in r.clients && room in r.clients[session].joined
  }

  // ---------- the handlers as functions ----------

  /** A new session starts in `general`. */
  function Enter(r: Registry, peer: Peer, role: GroupRole): Registry {
    r.(clients := r.clients[peer.sessionId := Client(peer, role, {DEFAULT_ROOM_ID})])
  }

  /** Who a client is once its hello was accepted: a sanitized nickname and, if given, a well-formed fingerprint. */
  function Hello(session: Uuid, member: Uuid, rawNickname: string, direct: Option<DirectInfo>): Option<Peer> {
    match SanitizedLine(rawNickname, MAX_NICKNAME_CHARS)
    case Err(_) => None
    case Ok(nickname) =>
      if direct.Some? && !IsValidFingerprint(direct.value.fingerprint) then None
      else Some(Peer(session, member, nickname, direct))
  }

  function Depart(r: Registry, session: Uuid): Registry {
    r.(clients := r.clients - {session})
  }

  /** `join_room`; `readable` says whether the history could be read. */
  function Join(r: Registry, session: Uuid, room: RoomSummary, readable: bool): Outcome {
    if !readable then Outcome(r, HistoryUnavailable)
    else Outcome(r.(clients := Joining(r.clients, session, room.roomId)), RoomJoined(room))
  }

  /** `handle_join_room` of a connected session. */
  function JoinRequest(g: Uuid, r: Registry, session: Uuid, room: string, readable: bool): Outcome
    requires session in r.clients
  {
    if !IsSafeIdentifier(room) then Outcome(r, InvalidRoom)
    else if room !in r.cache then Outcome(r, UnknownRoom)
    else if !CanAccess(r.tables, g, room, r.clients[session].peer.memberId) then Outcome(r, Denied)
    else Join(r, session, r.cache[room], readable)
  }

  /** `handle_leave_room`. */
  function LeaveRequest(r: Registry, session: Uuid, room: string): Outcome {
    if room == DEFAULT_ROOM_ID then Outcome(r, CannotLeaveGeneral)
    else Outcome(r.(clients := Leaving(r.clients, session, room)), RoomLeft)
  }

  /** `handle_create_room`, taken without interleaving. */
  function Create(g: Uuid, r: Registry, session: Uuid, rawName: string, visibility: RoomVisibility, room: string,
                  readable: bool): Outcome
    requires session in r.clients
  {
    match SanitizedLine(rawName, MAX_NICKNAME_CHARS)
    case Err(_) => Outcome(r, InvalidName)
    case Ok(name) =>
      if |r.cache| >= MAX_ROOMS then Outcome(r, RoomLimit)
      else if NameCached(r.cache, name) then Outcome(r, NameTaken)
      else
        var step := CreateRoom(r.tables, g, name, visibility, Some(r.clients[session].peer.memberId), room);
        match step.result
        case Err(_) => Outcome(r, NotPersisted)
        case Ok(summary) =>
          Join(r.(tables := step.tables, cache := r.cache[summary.roomId := summary]), session, summary, readable)
  }

  /** `remove_room_from_member`: every session of the member loses the room. */
  function WithoutRoom(clients: map<Uuid, Client>, member: Uuid, room: string): map<Uuid, Client> {
    map s | s in clients ::
      if clients[s].peer.memberId == member then clients[s].(joined := clients[s].joined - {room}) else clients[s]
  }

  /** `handle_set_room_member`. */
  function Share(g: Uuid, r: Registry, actor: Uuid, role: GroupRole, room: string, target: Uuid,
                 included: bool): Outcome {
    if !IsSafeIdentifier(room) then Outcome(r, InvalidRoom)
    else
      var step := SetRoomMember(r.tables, g, room, actor, role, target, included);
      match step.result
      case Err(_) => Outcome(r, MembershipFailed)
      case Ok(changed) =>
        if !changed then Outcome(r.(tables := step.tables), MembershipUnchanged)
        else
          var clients := if room in r.cache && !included then WithoutRoom(r.clients, target, room) else r.clients;
          Outcome(r.(tables := step.tables, clients := clients), MembershipSet)
  }

  /** `handle_room_chat`; the sender is the peer the session was admitted as. */
  function Chat(key: nat, g: Uuid, r: Registry, m: Draft): Outcome {
    if !IsSafeIdentifier(m.room) then Outcome(r, InvalidRoom)
    else if !HasJoined(r, m.session, m.room) then Outcome(r, NotJoined)
    else
      match SanitizedChat(m.text)
      case Err(_) => Outcome(r, InvalidMessage)
      case Ok(clean) =>
        if m.room !in r.cache then Outcome(r, UnknownRoom)
        else
          var sender := r.clients[m.session].peer;
          var step := AppendMessage(key, r.tables, g, m.room, m.id, sender, m.now, clean, m.nonce);
          match step.result
          case Err(_) => Outcome(r, NotPersisted)
          case Ok(record) => Outcome(r.(tables := step.tables), Delivered(record))
  }

  // ---------- the invariant ----------

  /** In `general` for good, and only in rooms that exist and that the member may enter. */
  predicate SessionOk(g: Uuid, s: Tables, cache: map<string, RoomSummary>, c: Client) {
    && DEFAULT_ROOM_ID in c.joined
    && forall room :: room in c.joined ==> room in cache && CanAccess(s, g, room, c.peer.memberId)
  }

  ghost predicate InOrder(g: Uuid, r: Registry) {
    && g in r.tables.groups
    && Mirrors(g, r.tables, r.cache)
    && DEFAULT_ROOM_ID in r.cache && r.cache[DEFAULT_ROOM_ID].visibility.Public?
    && forall s :: s in r.clients ==> SessionOk(g, r.tables, r.cache, r.clients[s])
  }

  lemma EnterKeepsOrder(g: Uuid, r: Registry, peer: Peer, role: GroupRole)
    requires InOrder(g, r)
    ensures InOrder(g, Enter(r, peer, role))
  {
  }

  lemma JoiningKeepsOrder(g: Uuid, r: Registry, session: Uuid, room: string)
    requires InOrder(g, r) && session in r.clients
    requires room in r.cache && CanAccess(r.tables, g, room, r.clients[session].peer.memberId)
    ensures InOrder(g, r.(clients := Joining(r.clients, session, room)))
  {
  }

  lemma JoinRequestKeepsOrder(g: Uuid, r: Registry, session: Uuid, room: string, readable: bool)
    requires InOrder(g, r) && session in r.clients
    ensures InOrder(g, JoinRequest(g, r, session, room, readable).registry)
  {
  }

  lemma LeaveRequestKeepsOrder(g: Uuid, r: Registry, session: Uuid, room: string)
    requires InOrder(g, r)
    ensures InOrder(g, LeaveRequest(r, session, room).registry)
  {
  }

  /** What the store does to access while no session is taken off a list. */
  lemma SessionSurvives(g: Uuid, s: Tables, cache: map<string, RoomSummary>, c: Client, op: Op)
    requires SessionOk(g, s, cache, c)
    requires forall room :: room in c.joined ==> !Removes(s, op, g, room, c.peer.memberId)
    ensures SessionOk(g, Perform(s, op), cache, c)
  {
    forall room | room in c.joined ensures CanAccess(Perform(s, op), g, room, c.peer.memberId) {
      AccessEndsOnlyByRemoval(s, op, g, room, c.peer.memberId);
    }
  }

  lemma NewRoomMirrors(g: Uuid, r: Registry, name: string, visibility: RoomVisibility, owner: Uuid, room: string)
    requires Mirrors(g, r.tables, r.cache)
    requires CreateRoom(r.tables, g, name, visibility, Some(owner), room).result.Ok?
    ensures var step := CreateRoom(r.tables, g, name, visibility, Some(owner), room);
            && step.result.value == RoomSummary(room, name, visibility)
            && room !in r.cache
            && Mirrors(g, step.tables, r.cache[room := step.result.value])
            && step.tables.groups == r.tables.groups
            && CanAccess(step.tables, g, room, owner)
  {
    var step := CreateRoom(r.tables, g, name, visibility, Some(owner), room);
    CreationRooms(r.tables, g, name, visibility, Some(owner), room);
    CreationGrants(r.tables, g, name, visibility, Some(owner), room);
    CreateRoomKeepsGroups(r.tables, g, name, visibility, Some(owner), room);
    PersistMirrors(g, r.tables, step.tables, r.cache, RoomSummary(room, name, visibility));
  }

  lemma SessionKeepsAccess(g: Uuid, r: Registry, name: string, visibility: RoomVisibility, owner: Uuid, room: string,
                           c: Client)
    requires SessionOk(g, r.tables, r.cache, c)
    ensures SessionOk(g, CreateRoom(r.tables, g, name, visibility, Some(owner), room).tables, r.cache, c)
  {
  }

  /** The group once the room is persisted and cached, before its creator joins it. */
  function Grown(g: Uuid, r: Registry, name: string, visibility: RoomVisibility, owner: Uuid, room: string): Registry {
    r.(tables := CreateRoom(r.tables, g, name, visibility, Some(owner), room).tables,
       cache := r.cache[room := RoomSummary(room, name, visibility)])
  }

  lemma GrownInOrder(g: Uuid, r: Registry, name: string, visibility: RoomVisibility, owner: Uuid, room: string)
    requires InOrder(g, r) && CreateRoom(r.tables, g, name, visibility, Some(owner), room).result.Ok?
    ensures InOrder(g, Grown(g, r, name, visibility, owner, room))
    ensures CanAccess(Grown(g, r, name, visibility, owner, room).tables, g, room, owner)
    ensures CreateRoom(r.tables, g, name, visibility, Some(owner), room).result ==
      Ok(RoomSummary(room, name, visibility))
  {
    NewRoomMirrors(g, r, name, visibility, owner, room);
    var grown := Grown(g, r, name, visibility, owner, room);
    forall s | s in r.clients ensures SessionOk(g, grown.tables, grown.cache, r.clients[s]) {
      SessionKeepsAccess(g, r, name, visibility, owner, room, r.clients[s]);
    }
  }

  lemma PersistedSummary(s: Tables, g: Uuid, name: string, visibility: RoomVisibility, owner: Uuid, room: string)
    ensures var result := CreateRoom(s, g, name, visibility, Some(owner), room).result;
            result.Ok? ==> result.value == RoomSummary(room, name, visibility)
  {
  }

  /** A creation changes nothing, or grows the group and lets the creator in if the history can be read. */
  lemma CreateOutcome(g: Uuid, r: Registry, session: Uuid, rawName: string, visibility: RoomVisibility, room: string,
                      readable: bool)
    returns (name: string)
    requires session in r.clients
    ensures var after := Create(g, r, session, rawName, visibility, room, readable).registry;
            var owner := r.clients[session].peer.memberId;
            after != r ==>
              && SanitizedLine(rawName, MAX_NICKNAME_CHARS) == Ok(name)
              && CreateRoom(r.tables, g, name, visibility, Some(owner), room).result.Ok?
              && var grown := Grown(g, r, name, visibility, owner, room);
                 after == if readable then grown.(clients := Joining(r.clients, session, room)) else grown
  {
    var sanitized := SanitizedLine(rawName, MAX_NICKNAME_CHARS);
    name := if sanitized.Ok? then sanitized.value else "";
    PersistedSummary(r.tables, g, name, visibility, r.clients[session].peer.memberId, room);
  }

  lemma CreateKeepsOrder(g: Uuid, r: Registry, session: Uuid, rawName: string, visibility: RoomVisibility,
                         room: string, readable: bool)
    requires InOrder(g, r) && session in r.clients
    ensures InOrder(g, Create(g, r, session, rawName, visibility, room, readable).registry)
  {
    var name := CreateOutcome(g, r, session, rawName, visibility, room, readable);
    if Create(g, r, session, rawName, visibility, room, readable).registry != r {
      var owner := r.clients[session].peer.memberId;
      GrownInOrder(g, r, name, visibility, owner, room);
      JoiningKeepsOrder(g, Grown(g, r, name, visibility, owner, room), session, room);
    }
  }

  lemma SharingMirrors(g: Uuid, s: Tables, s': Tables, cache: map<string, RoomSummary>)
    requires Mirrors(g, s, cache) && s'.rooms == s.rooms
    ensures Mirrors(g, s', cache)
  {
  }

  /** Taking a member off a list takes the room away from each of its sessions in the same step. */
  lemma SharedSession(g: Uuid, r: Registry, actor: Uuid, role: GroupRole, room: string, target: Uuid, included: bool,
                      session: Uuid)
    requires InOrder(g, r) && session in r.clients
    ensures var after := Share(g, r, actor, role, room, target, included).registry;
            session in after.clients && SessionOk(g, after.tables, after.cache, after.clients[session])
  {
    var c := r.clients[session];
    var op := OpSetRoomMember(g, room, actor, role, target, included);
    SharingChangesOneEntry(r.tables, g, room, actor, role, target, included);
    if room in c.joined && Removes(r.tables, op, g, room, c.peer.memberId) {
      assert room != DEFAULT_ROOM_ID by {
        assert IsPrivate(r.tables, RoomKey(g, room));
      }
      var without := c.(joined := c.joined - {room});
      SessionSurvives(g, r.tables, r.cache, without, op);
    } else {
      SessionSurvives(g, r.tables, r.cache, c, op);
    }
  }

  lemma ShareKeepsOrder(g: Uuid, r: Registry, actor: Uuid, role: GroupRole, room: string, target: Uuid, included: bool)
    requires InOrder(g, r)
    ensures InOrder(g, Share(g, r, actor, role, room, target, included).registry)
  {
    var after := Share(g, r, actor, role, room, target, included).registry;
    SharingChangesOneEntry(r.tables, g, room, actor, role, target, included);
    SharingMirrors(g, r.tables, after.tables, r.cache);
    forall s | s in after.clients ensures SessionOk(g, after.tables, after.cache, after.clients[s]) {
      SharedSession(g, r, actor, role, room, target, included, s);
    }
  }

  /** An operation that only this group's handlers perform on the group. */
  predicate OwnOp(op: Op, g: Uuid) {
    (op.OpCreateRoom? || op.OpSetRoomMember? || op.OpAppendMessage?) && op.group == g
  }

  lemma TablesKeepOrder(g: Uuid, r: Registry, op: Op)
    requires InOrder(g, r) && !((op.OpCreateRoom? || op.OpSetRoomMember?) && op.group == g)
    ensures InOrder(g, r.(tables := Perform(r.tables, op)))
  {
    ElsewhereKeepsRooms(g, r.tables, op);
    forall s | s in r.clients ensures SessionOk(g, Perform(r.tables, op), r.cache, r.clients[s]) {
      SessionSurvives(g, r.tables, r.cache, r.clients[s], op);
    }
  }

  /** Whatever the store does for others disturbs no session. */
  lemma StoreKeepsOrder(g: Uuid, r: Registry, op: Op)
    requires InOrder(g, r) && !OwnOp(op, g)
    ensures InOrder(g, r.(tables := Perform(r.tables, op)))
  {
    TablesKeepOrder(g, r, op);
  }

  /** A chat appends one message or leaves the registry as it was. */
  function AppendOf(key: nat, g: Uuid, r: Registry, m: Draft): Op
    requires m.session in r.clients
  {
    var clean := SanitizedChat(m.text);
    OpAppendMessage(key, g, m.room, m.id, r.clients[m.session].peer, m.now,
                    if clean.Ok? then clean.value else "", m.nonce)
  }

  lemma ChatOutcome(key: nat, g: Uuid, r: Registry, m: Draft)
    ensures var after := Chat(key, g, r, m).registry;
            after == r ||
            (m.session in r.clients && SanitizedChat(m.text).Ok? && HasJoined(r, m.session, m.room)
             && IsSafeIdentifier(m.room) && after == r.(tables := Perform(r.tables, AppendOf(key, g, r, m))))
  {
  }

  lemma ChatKeepsOrder(key: nat, g: Uuid, r: Registry, m: Draft)
    requires InOrder(g, r)
    ensures InOrder(g, Chat(key, g, r, m).registry)
  {
    ChatOutcome(key, g, r, m);
    if Chat(key, g, r, m).registry != r {
      TablesKeepOrder(g, r, AppendOf(key, g, r, m));
    }
  }

  // ---------- whole runs ----------

  datatype Event =
    | Entered(session: Uuid, member: Uuid, rawNickname: string, direct: Option<DirectInfo>, role: GroupRole)
    | Departed(session: Uuid)
    | JoinAsked(session: Uuid, room: string, readable: bool)
    | LeaveAsked(session: Uuid, room: string)
    | CreateAsked(session: Uuid, name: string, visibility: RoomVisibility, room: string, readable: bool)
    | ShareAsked(actor: Uuid, actorRole: GroupRole, room: string, target: Uuid, included: bool)
    | Spoken(draft: Draft)
    | StoreUsed(op: Op)

  ghost function After(key: nat, g: Uuid, r: Registry, e: Event): Registry {
    match e
    case Entered(session, member, rawNickname, direct, role) =>
      var peer := Hello(session, member, rawNickname, direct);
      if peer.Some? then Enter(r, peer.value, role) else r
    case Departed(session) => Depart(r, session)
    case JoinAsked(session, room, readable) =>
      if session in r.clients then JoinRequest(g, r, session, room, readable).registry else r
    case LeaveAsked(session, room) => LeaveRequest(r, session, room).registry
    case CreateAsked(session, name, visibility, room, readable) =>
      if session in r.clients then Create(g, r, session, name, visibility, room, readable).registry else r
    case ShareAsked(actor, role, room, target, included) => Share(g, r, actor, role, room, target, included).registry
    case Spoken(draft) => Chat(key, g, r, draft).registry
    case StoreUsed(op) => if OwnOp(op, g) then r else r.(tables := Perform(r.tables, op))
  }

  ghost function AfterAll(key: nat, g: Uuid, r: Registry, events: seq<Event>): Registry {
    if events == [] then r else After(key, g, AfterAll(key, g, r, events[..|events| - 1]), events[|events| - 1])
  }

  lemma EventKeepsOrder(key: nat, g: Uuid, r: Registry, e: Event)
    requires InOrder(g, r)
    ensures InOrder(g, After(key, g, r, e))
  {
    match e
    case Entered(session, member, rawNickname, direct, role) =>
      var peer := Hello(session, member, rawNickname, direct);
      if peer.Some? {
        EnterKeepsOrder(g, r, peer.value, role);
      }
    case Departed(session) =>
    case JoinAsked(session, room, readable) =>
      if session in r.clients {
        JoinRequestKeepsOrder(g, r, session, room, readable);
      }
    case LeaveAsked(session, room) => LeaveRequestKeepsOrder(g, r, session, room);
    case CreateAsked(session, name, visibility, room, readable) =>
      if session in r.clients {
        CreateKeepsOrder(g, r, session, name, visibility, room, readable);
      }
    case ShareAsked(actor, role, room, target, included) =>
      ShareKeepsOrder(g, r, actor, role, room, target, included);
    case Spoken(draft) => ChatKeepsOrder(key, g, r, draft);
    case StoreUsed(op) =>
      if !OwnOp(op, g) {
        StoreKeepsOrder(g, r, op);
      }
  }

  /**
   In every reachable state every session has joined `general`, every joined room exists in the cache and in the table,
   and a joined room is one the session's member may enter.
   */
  lemma {:induction false} SessionsStayInOrder(key: nat, g: Uuid, r: Registry, events: seq<Event>)
    requires InOrder(g, r)
    ensures InOrder(g, AfterAll(key, g, r, events))
  {
    if events != [] {
      var n := |events| - 1;
      SessionsStayInOrder(key, g, r, events[..n]);
      EventKeepsOrder(key, g, AfterAll(key, g, r, events[..n]), events[n]);
    }
  }

  /** A group just made is in order before anybody enters it. */
  lemma CreatedGroupIsInOrder(s: Tables, name: string, mode: AccessMode, g: Uuid, creator: Uuid, admin: string,
                              invite: string)
    requires Constraints(s) && CreateGroup(s, name, mode, g, creator, admin, invite).result.Ok?
    ensures InOrder(g, Registry(CreateGroup(s, name, mode, g, creator, admin, invite).tables,
                                map[DEFAULT_ROOM_ID := GENERAL], map[]))
  {
    CreatedGroupIsLoaded(s, name, mode, g, creator, admin, invite);
  }

  /** And so is a group read back from any store these operations can reach. */
  lemma ReloadedGroupIsInOrder(s: Tables, ops: seq<Op>, g: Uuid)
    requires GroupsHaveRooms(s) && Constraints(s) && g in PerformAll(s, ops).groups
    ensures var later := PerformAll(s, ops);
            InOrder(g, Registry(later, CacheOf(g, later), map[]))
  {
    GroupsKeepTheirRooms(s, ops);
    CacheMirrors(g, PerformAll(s, ops));
  }

  // ---------- the group object ----------

  lemma FailedCreationLeavesTables(s: Tables, g: Uuid, name: string, visibility: RoomVisibility, owner: Option<Uuid>,
                                   room: string)
    ensures var step := CreateRoom(s, g, name, visibility, owner, room);
            step.result.Err? ==> step.tables == s
  {
  }

  class GroupState {
    const group: Uuid
    const store: GatewayStore
    var rooms: map<string, RoomSummary>
    var clients: map<Uuid, Client>

    function View(): Registry
      reads this, store
    {
      Registry(store.State(), rooms, clients)
    }

    ghost predicate Valid()
      reads this, store
    {
      store.Valid() && InOrder(group, View())
    }

    /** A group as it is loaded: the cache mirrors the table and nobody is connected. */
    constructor (group: Uuid, store: GatewayStore, rooms: map<string, RoomSummary>)
      requires store.Valid() && InOrder(group, Registry(store.State(), rooms, map[]))
      ensures Valid() && this.group == group && this.store == store
      ensures View() == Registry(store.State(), rooms, map[])
    {
      this.group, this.store, this.rooms, this.clients := group, store, rooms, map[];
    }

    method EnterGroup(peer: Peer, role: GroupRole)
      requires Valid()
      modifies this
      ensures Valid() && View() == Enter(old(View()), peer, role)
    {
      EnterKeepsOrder(group, View(), peer, role);
      clients := clients[peer.sessionId := Client(peer, role, {DEFAULT_ROOM_ID})];
    }

    method Disconnect(session: Uuid)
      requires Valid()
      modifies this
      ensures Valid() && View() == Depart(old(View()), session)
    {
      EventKeepsOrder(0, group, View(), Departed(session));
      clients := clients - {session};
    }

    method JoinRoom(session: Uuid, room: RoomSummary, readable: bool) returns (reply: Reply)
      modifies this
      ensures Outcome(View(), reply) == Join(old(View()), session, room, readable)
    {
      if !readable {
        return HistoryUnavailable;
      }
      if session in clients {
        var client := clients[session];
        clients := clients[session := client.(joined := client.joined + {room.roomId})];
      }
      return RoomJoined(room);
    }

    method HandleJoinRoom(session: Uuid, room: string, readable: bool) returns (reply: Reply)
      requires Valid() && session in clients
      modifies this
      ensures Valid() && Outcome(View(), reply) == JoinRequest(group, old(View()), session, room, readable)
    {
      JoinRequestKeepsOrder(group, View(), session, room, readable);
      if !IsSafeIdentifier(room) {
        return InvalidRoom;
      }
      if room !in rooms {
        return UnknownRoom;
      }
      var allowed := CanAccess(store.State(), group, room, clients[session].peer.memberId);
      if !allowed {
        return Denied;
      }
      reply := JoinRoom(session, rooms[room], readable);
    }

    method HandleLeaveRoom(session: Uuid, room: string) returns (reply: Reply)
      requires Valid()
      modifies this
      ensures Valid() && Outcome(View(), reply) == LeaveRequest(old(View()), session, room)
    {
      LeaveRequestKeepsOrder(group, View(), session, room);
      if room == DEFAULT_ROOM_ID {
        return CannotLeaveGeneral;
      }
      if session in clients {
        clients := clients[session := clients[session].(joined := clients[session].joined - {room})];
      }
      return RoomLeft;
    }

    /** Persist a room and cache it. */
    method AddRoom(member: Uuid, name: string, visibility: RoomVisibility, room: string)
      returns (created: Result<RoomSummary, StoreError>)
      requires store.Valid()
      modifies this, store
      ensures store.Valid() && clients == old(clients)
      ensures var step := CreateRoom(old(store.State()), group, name, visibility, Some(member), room);
              && created == step.result && store.State() == step.tables
              && rooms == if created.Ok? then old(rooms)[created.value.roomId := created.value] else old(rooms)
    {
      created := store.AddRoom(group, name, visibility, Some(member), room);
      if created.Ok? {
        rooms := rooms[created.value.roomId := created.value];
      }
    }

    method HandleCreateRoom(session: Uuid, rawName: string, visibility: RoomVisibility, room: string, readable: bool)
      returns (reply: Reply)
      requires Valid() && session in clients
      modifies this, store
      ensures Valid() && Outcome(View(), reply) ==
        Create(group, old(View()), session, rawName, visibility, room, readable)
    {
      CreateKeepsOrder(group, View(), session, rawName, visibility, room, readable);
      var name := SanitizedLine(rawName, MAX_NICKNAME_CHARS);
      if name.Err? {
        return InvalidName;
      }
      if |rooms| >= MAX_ROOMS {
        return RoomLimit;
      }
      if NameCached(rooms, name.value) {
        return NameTaken;
      }
      FailedCreationLeavesTables(store.State(), group, name.value, visibility, Some(clients[session].peer.memberId),
        room);
      var created := AddRoom(clients[session].peer.memberId, name.value, visibility, room);
      if created.Err? {
        return NotPersisted;
      }
      reply := JoinRoom(session, created.value, readable);
    }

    /** Take the room from every session of the member. */
    method RemoveRoomFromMember(member: Uuid, room: string)
      modifies this
      ensures clients == WithoutRoom(old(clients), member, room) && rooms == old(rooms)
    {
      var todo := clients.Keys;
      while todo != {}
        invariant todo <= clients.Keys == old(clients).Keys && rooms == old(rooms)
        invariant forall s :: s in clients ==>
                    clients[s] == if s in todo then old(clients)[s] else WithoutRoom(old(clients), member, room)[s]
      {
        var s :| s in todo;
        if clients[s].peer.memberId == member {
          clients := clients[s := clients[s].(joined := clients[s].joined - {room})];
        }
        todo := todo - {s};
      }
    }

    method HandleSetRoomMember(actor: Uuid, role: GroupRole, room: string, target: Uuid, included: bool)
      returns (reply: Reply)
      requires Valid()
      modifies this, store
      ensures Valid() && Outcome(View(), reply) == Share(group, old(View()), actor, role, room, target, included)
    {
      ShareKeepsOrder(group, View(), actor, role, room, target, included);
      if !IsSafeIdentifier(room) {
        return InvalidRoom;
      }
      var changed := store.ShareRoom(group, room, actor, role, target, included);
      if changed.Err? {
        return MembershipFailed;
      }
      if !changed.value {
        return MembershipUnchanged;
      }
      if room in rooms && !included {
        RemoveRoomFromMember(target, room);
      }
      return MembershipSet;
    }

    method HandleRoomChat(m: Draft) returns (reply: Reply)
      requires Valid()
      modifies this, store
      ensures Valid() && Outcome(View(), reply) == Chat(store.key, group, old(View()), m)
      ensures reply != UnknownRoom
    {
      ChatKeepsOrder(store.key, group, View(), m);
      if !IsSafeIdentifier(m.room) {
        return InvalidRoom;
      }
      if !HasJoined(View(), m.session, m.room) {
        return NotJoined;
      }
      var clean := SanitizeChatText(m.text);
      if clean.Err? {
        return InvalidMessage;
      }
      if m.room !in rooms {
        return UnknownRoom;
      }
      var appended := store.Append(group, m.room, m.id, clients[m.session].peer, m.now, clean.value, m.nonce);
      if appended.Err? {
        return NotPersisted;
      }
      return Delivered(appended.value);
    }
  }
}
