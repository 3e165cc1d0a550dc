/**
 What the handlers of a session answer and what follows from each answer: a join that is answered lets the session
 speak and be read, until one of the events that end it.
 */
module SessionAnswers {
  import opened Wrappers
  import opened Text
  import opened Protocol
  import opened Sanitizer
  import opened Json
  import opened Store
  import opened StoreRooms
  import opened StoreMessages
  import opened RoomCreation
  import opened Sessions
  import opened SessionGuarantees

  // ---------- chats ----------

  /** The id was used before, or the room's numbers have run out. */
  predicate CannotBeStored(g: Uuid, s: Tables, m: Draft) {
    var at := RoomKey(g, m.room);
    m.id in s.messages || (at in s.rooms && s.rooms[at].nextSequence == I64_MAX)
  }

  /**
   Every answer to a chat message, each in exactly its own case. A delivered message carries the room's next number, and
   it is in the tables: reading its row gives the record back, but for the sender's address for private chat and a time
   beyond SQLite's integers. Anything else leaves the group as it was.
   */
  lemma ChatAnswers(key: nat, g: Uuid, r: Registry, m: Draft)
    requires InOrder(g, r) && Numbered(r.tables)
    ensures var o := Chat(key, g, r, m);
            var clean := SanitizedChat(m.text);
            var named := IsSafeIdentifier(m.room);
            var joined := named && HasJoined(r, m.session, m.room);
            && (o.reply == InvalidRoom <==> !named)
            && (o.reply == NotJoined <==> named && !joined)
            && (o.reply == InvalidMessage <==> joined && clean.Err?)
            && (o.reply == NotPersisted <==> joined && clean.Ok? && CannotBeStored(g, r.tables, m))
            && (o.reply.Delivered? <==> joined && clean.Ok? && !CannotBeStored(g, r.tables, m))
            && (o.reply.Delivered? ==>
                  && RoomKey(g, m.room) in r.tables.rooms
                  && var record := o.reply.record;
                     && record == ChatRecord(r.tables.rooms[RoomKey(g, m.room)].nextSequence, m.id,
                                             r.clients[m.session].peer, m.room, m.now, clean.value)
                     && m.id in o.registry.tables.messages
                     && ReadBack(key, m.id, o.registry.tables.messages[m.id]) ==
                        Ok(record.(sender := record.sender.(direct := None),
                                   sentAtMs := if m.now <= I64_MAX then m.now else I64_MAX)))
            && (!o.reply.Delivered? ==> o.registry == r)
  {
    var clean := SanitizedChat(m.text);
    if clean.Ok? && m.session in r.clients {
      AppendOutcome(key, r.tables, g, m.room, m.id, r.clients[m.session].peer, m.now, clean.value, m.nonce);
      var op := AppendOf(key, g, r, m);
      if Appended(r.tables, op).Ok? {
        AppendedReadsBack(r.tables, op);
      }
    }
  }

  /** The session is heard in the room: any message that the sanitizer accepts and that can be stored is delivered. */
  ghost predicate Heard(key: nat, g: Uuid, r: Registry, session: Uuid, room: string) {
    forall m: Draft ::
      m.session == session && m.room == room && SanitizedChat(m.text).Ok? && !CannotBeStored(g, r.tables, m) ==>
        Chat(key, g, r, m).reply.Delivered?
  }

  /** The session is not heard in the room: every message is refused for not having joined. */
  ghost predicate Silent(key: nat, g: Uuid, r: Registry, session: Uuid, room: string) {
    forall m: Draft :: m.session == session && m.room == room ==> Chat(key, g, r, m) == Outcome(r, NotJoined)
  }

  lemma JoinedAreHeard(key: nat, g: Uuid, r: Registry, session: Uuid, room: string)
    requires InOrder(g, r) && Numbered(r.tables) && IsSafeIdentifier(room)
    ensures HasJoined(r, session, room) ==> Heard(key, g, r, session, room)
    ensures !HasJoined(r, session, room) ==> Silent(key, g, r, session, room)
  {
    forall m: Draft | m.session == session && m.room == room
      ensures HasJoined(r, session, room) && SanitizedChat(m.text).Ok? && !CannotBeStored(g, r.tables, m) ==>
                Chat(key, g, r, m).reply.Delivered?
      ensures !HasJoined(r, session, room) ==> Chat(key, g, r, m) == Outcome(r, NotJoined)
    {
      ChatAnswers(key, g, r, m);
    }
  }

  // ---------- joining and leaving ----------

  /** Every answer to a join request, in terms of the store: the cache adds nothing of its own. */
  lemma JoinAnswers(g: Uuid, r: Registry, session: Uuid, room: string, readable: bool)
    requires InOrder(g, r) && session in r.clients
    ensures var o := JoinRequest(g, r, session, room, readable);
            var at := RoomKey(g, room);
            var named := IsSafeIdentifier(room);
            var allowed := CanAccess(r.tables, g, room, r.clients[session].peer.memberId);
            && (o.reply == InvalidRoom <==> !named)
            && (o.reply == UnknownRoom <==> named && at !in r.tables.rooms)
            && (o.reply == Denied <==> named && at in r.tables.rooms && !allowed)
            && (o.reply == HistoryUnavailable <==> named && allowed && !readable)
            && (o.reply.RoomJoined? <==> named && allowed && readable)
            && (o.reply.RoomJoined? ==>
                  o.reply.room == RoomSummary(room, r.tables.rooms[at].name, r.tables.rooms[at].visibility))
            && (!o.reply.RoomJoined? ==> o.registry == r)
            && o.registry.tables == r.tables && o.registry.cache == r.cache
  {
  }

  /** What makes a session a listener and speaker of a room it has not joined. */
  ghost predicate Begins(g: Uuid, r: Registry, e: Event, session: Uuid, room: string) {
    match e
    case Entered(entered, member, rawNickname, direct, _) =>
      entered == session && room == DEFAULT_ROOM_ID && Hello(session, member, rawNickname, direct).Some?
    case JoinAsked(asking, wanted, readable) =>
      asking == session && session in r.clients && wanted == room
      && JoinRequest(g, r, session, wanted, readable).reply.RoomJoined?
    case CreateAsked(asking, name, visibility, made, readable) =>
      asking == session && session in r.clients && made == room
      && Create(g, r, session, name, visibility, made, readable).reply.RoomJoined?
    case _ => false
  }

  /** What takes a room from a session that has joined it. */
  ghost predicate Ends(g: Uuid, r: Registry, e: Event, session: Uuid, room: string)
    requires session in r.clients
  {
    match e
    case Entered(entered, member, rawNickname, direct, _) =>
      entered == session && room != DEFAULT_ROOM_ID && Hello(session, member, rawNickname, direct).Some?
    case Departed(departed) => departed == session
    case LeaveAsked(leaving, left) => leaving == session && left == room && room != DEFAULT_ROOM_ID
    case ShareAsked(actor, role, shared, target, included) =>
      && shared == room && target == r.clients[session].peer.memberId && !included
      && Share(g, r, actor, role, shared, target, included).reply == MembershipSet
    case _ => false
  }

  lemma CreationJoins(g: Uuid, r: Registry, asking: Uuid, rawName: string, visibility: RoomVisibility, made: string,
                      readable: bool)
    requires asking in r.clients
    ensures var o := Create(g, r, asking, rawName, visibility, made, readable);
            o.registry.clients ==
              if o.reply.RoomJoined? then Joining(r.clients, asking, made) else r.clients
  {
    var name := CreateOutcome(g, r, asking, rawName, visibility, made, readable);
    var sanitized := SanitizedLine(rawName, MAX_NICKNAME_CHARS);
    if sanitized.Ok? {
      PersistedSummary(r.tables, g, sanitized.value, visibility, r.clients[asking].peer.memberId, made);
    }
  }

  lemma SharingTakes(g: Uuid, r: Registry, actor: Uuid, role: GroupRole, shared: string, target: Uuid, included: bool,
                     session: Uuid, room: string)
    requires InOrder(g, r) && session in r.clients
    ensures var after := Share(g, r, actor, role, shared, target, included).registry;
            HasJoined(after, session, room) <==>
              HasJoined(r, session, room)
              && !Ends(g, r, ShareAsked(actor, role, shared, target, included), session, room)
  {
  }

  lemma CreatingTakes(g: Uuid, r: Registry, e: Event, session: Uuid, room: string)
    requires InOrder(g, r) && e.CreateAsked? && e.session in r.clients
    ensures HasJoined(Create(g, r, e.session, e.name, e.visibility, e.room, e.readable).registry, session, room) <==>
              HasJoined(r, session, room) || Begins(g, r, e, session, room)
  {
    CreationJoins(g, r, e.session, e.name, e.visibility, e.room, e.readable);
  }

  /**
   Exactly what changes the rooms a session has joined: an answered join or creation or the entry itself begins it, and
   leaving, departing, entering anew and a confirmed removal end it. Nothing anybody else does touches it.
   */
  lemma WhatJoiningTakes(key: nat, g: Uuid, r: Registry, e: Event, session: Uuid, room: string)
    requires InOrder(g, r)
    ensures HasJoined(After(key, g, r, e), session, room) <==>
              if HasJoined(r, session, room) then !Ends(g, r, e, session, room) else Begins(g, r, e, session, room)
  {
    match e
    case CreateAsked(asking, _, _, _, _) =>
      if asking in r.clients {
        CreatingTakes(g, r, e, session, room);
      }
    case ShareAsked(actor, role, shared, target, included) =>
      if session in r.clients {
        SharingTakes(g, r, actor, role, shared, target, included, session, room);
      }
    case Spoken(draft) => ChatOutcome(key, g, r, draft);
    case _ =>
  }

  // ---------- whole runs ----------

  /** None of the events ends it. */
  ghost predicate NothingEnds(key: nat, g: Uuid, r: Registry, events: seq<Event>, session: Uuid, room: string) {
    forall i :: 0 <= i < |events| ==>
      var here := AfterAll(key, g, r, events[..i]);
      session in here.clients ==> !Ends(g, here, events[i], session, room)
  }

  /** None of the events begins it. */
  ghost predicate NothingBegins(key: nat, g: Uuid, r: Registry, events: seq<Event>, session: Uuid, room: string) {
    forall i :: 0 <= i < |events| ==> !Begins(g, AfterAll(key, g, r, events[..i]), events[i], session, room)
  }

  lemma AllButTheLast(key: nat, g: Uuid, r: Registry, events: seq<Event>, session: Uuid, room: string)
    requires events != []
    ensures var n := |events| - 1;
            var before := AfterAll(key, g, r, events[..n]);
            && (NothingEnds(key, g, r, events, session, room) ==>
                  && NothingEnds(key, g, r, events[..n], session, room)
                  && (session in before.clients ==> !Ends(g, before, events[n], session, room)))
            && (NothingBegins(key, g, r, events, session, room) ==>
                  && NothingBegins(key, g, r, events[..n], session, room)
                  && !Begins(g, before, events[n], session, room))
  {
    var n := |events| - 1;
    assert forall i :: 0 <= i < n ==> events[..n][i] == events[i] && events[..n][..i] == events[..i];
  }

  /** Whether a session has joined a room changes in a run only where something begins or ends it. */
  lemma {:induction false} JoinedLasts(key: nat, g: Uuid, r: Registry, events: seq<Event>, session: Uuid, room: string)
    requires InOrder(g, r)
    ensures HasJoined(r, session, room) && NothingEnds(key, g, r, events, session, room) ==>
              HasJoined(AfterAll(key, g, r, events), session, room)
    ensures !HasJoined(r, session, room) && NothingBegins(key, g, r, events, session, room) ==>
              !HasJoined(AfterAll(key, g, r, events), session, room)
  {
    if events != [] {
      var n := |events| - 1;
      JoinedLasts(key, g, r, events[..n], session, room);
      AllButTheLast(key, g, r, events, session, room);
      SessionsStayInOrder(key, g, r, events[..n]);
      WhatJoiningTakes(key, g, AfterAll(key, g, r, events[..n]), events[n], session, room);
    }
  }

  lemma RunKeeps(key: nat, g: Uuid, r: Registry, events: seq<Event>)
    requires InOrder(g, r) && Numbered(r.tables)
    ensures InOrder(g, AfterAll(key, g, r, events)) && Numbered(AfterAll(key, g, r, events).tables)
  {
    SessionsStayInOrder(key, g, r, events);
    RoomsStayNumbered(key, g, r, events);
  }

  lemma StaysHeard(key: nat, g: Uuid, joined: Registry, session: Uuid, room: string, events: seq<Event>)
    requires InOrder(g, joined) && Numbered(joined.tables) && IsSafeIdentifier(room)
    requires HasJoined(joined, session, room) && NothingEnds(key, g, joined, events, session, room)
    ensures var here := AfterAll(key, g, joined, events);
            RoomKey(g, room) in here.tables.rooms && Heard(key, g, here, session, room)
  {
    JoinedLasts(key, g, joined, events, session, room);
    RunKeeps(key, g, joined, events);
    JoinedAreHeard(key, g, AfterAll(key, g, joined, events), session, room);
  }

  /**
   A join takes effect. Once a session was answered that it joined a room, at once and whatever happens after, its
   messages there are delivered until one of the events that end it.
   */
  lemma AnsweredJoinIsHeard(key: nat, g: Uuid, r: Registry, session: Uuid, room: string, readable: bool,
                            events: seq<Event>)
    requires InOrder(g, r) && Numbered(r.tables) && session in r.clients
    requires JoinRequest(g, r, session, room, readable).reply.RoomJoined?
    requires NothingEnds(key, g, JoinRequest(g, r, session, room, readable).registry, events, session, room)
    ensures Heard(key, g, AfterAll(key, g, JoinRequest(g, r, session, room, readable).registry, events), session, room)
  {
    JoinRequestKeepsOrder(g, r, session, room, readable);
    StaysHeard(key, g, JoinRequest(g, r, session, room, readable).registry, session, room, events);
  }

  lemma EventKeepsNumbers(key: nat, g: Uuid, r: Registry, e: Event)
    requires Numbered(r.tables)
    ensures Numbered(After(key, g, r, e).tables)
  {
    var op := StoreStep(key, g, r, e);
    if op.Some? {
      NumberedStep(r.tables, op.value);
    }
  }

  lemma CreationEnters(g: Uuid, r: Registry, session: Uuid, name: string, visibility: RoomVisibility, room: string,
                       readable: bool)
    requires InOrder(g, r) && session in r.clients
    requires Create(g, r, session, name, visibility, room, readable).reply.RoomJoined?
    ensures HasJoined(Create(g, r, session, name, visibility, room, readable).registry, session, room)
  {
    CreationJoins(g, r, session, name, visibility, room, readable);
  }

  lemma CreationNumbers(key: nat, g: Uuid, r: Registry, session: Uuid, name: string, visibility: RoomVisibility,
                        room: string, readable: bool)
    requires Numbered(r.tables) && session in r.clients
    ensures Numbered(Create(g, r, session, name, visibility, room, readable).registry.tables)
  {
    EventKeepsNumbers(key, g, r, CreateAsked(session, name, visibility, room, readable));
  }

  lemma CreationHolds(key: nat, g: Uuid, r: Registry, session: Uuid, name: string, visibility: RoomVisibility,
                      room: string, readable: bool, created: Registry)
    requires InOrder(g, r) && Numbered(r.tables) && session in r.clients
    requires Create(g, r, session, name, visibility, room, readable).reply.RoomJoined?
    requires created == Create(g, r, session, name, visibility, room, readable).registry
    ensures InOrder(g, created) && Numbered(created.tables) && HasJoined(created, session, room)
  {
    CreateKeepsOrder(g, r, session, name, visibility, room, readable);
    CreationNumbers(key, g, r, session, name, visibility, room, readable);
    CreationEnters(g, r, session, name, visibility, room, readable);
  }

  /** And so for the creator of a room: it is in the table from then on, and its creator is heard in it. */
  lemma CreatorIsHeard(key: nat, g: Uuid, r: Registry, session: Uuid, name: string, visibility: RoomVisibility,
                       room: string, readable: bool, created: Registry, events: seq<Event>)
    requires InOrder(g, r) && Numbered(r.tables) && session in r.clients && IsSafeIdentifier(room)
    requires Create(g, r, session, name, visibility, room, readable).reply.RoomJoined?
    requires created == Create(g, r, session, name, visibility, room, readable).registry
    requires NothingEnds(key, g, created, events, session, room)
    ensures var here := AfterAll(key, g, created, events);
            RoomKey(g, room) in here.tables.rooms && Heard(key, g, here, session, room)
  {
    CreationHolds(key, g, r, session, name, visibility, room, readable, created);
    StaysHeard(key, g, created, session, room, events);
  }

  /**
   Once a session has left a room, or any session has departed, its messages there are refused until it joins the room
   again.
   */
  lemma LeavingSilences(key: nat, g: Uuid, r: Registry, session: Uuid, room: string, departs: bool, events: seq<Event>)
    requires InOrder(g, r) && Numbered(r.tables) && IsSafeIdentifier(room)
    requires !departs ==> LeaveRequest(r, session, room).reply == RoomLeft
    requires var left := if departs then Depart(r, session) else LeaveRequest(r, session, room).registry;
             NothingBegins(key, g, left, events, session, room)
    ensures var left := if departs then Depart(r, session) else LeaveRequest(r, session, room).registry;
            Silent(key, g, AfterAll(key, g, left, events), session, room)
  {
    var left := if departs then Depart(r, session) else LeaveRequest(r, session, room).registry;
    LeaveRequestKeepsOrder(g, r, session, room);
    EventKeepsOrder(key, g, r, Departed(session));
    JoinedLasts(key, g, left, events, session, room);
    RunKeeps(key, g, left, events);
    JoinedAreHeard(key, g, AfterAll(key, g, left, events), session, room);
  }

  // ---------- entering ----------

  /** The session neither departs nor enters anew. */
  predicate StaysConnected(events: seq<Event>, session: Uuid) {
    forall i :: 0 <= i < |events| ==>
      !(events[i].Departed? && events[i].session == session) && !(events[i].Entered? && events[i].session == session)
  }

  lemma PeerStays(key: nat, g: Uuid, r: Registry, e: Event, session: Uuid)
    requires session in r.clients && StaysConnected([e], session)
    ensures var after := After(key, g, r, e);
            && session in after.clients
            && after.clients[session].peer == r.clients[session].peer
            && after.clients[session].role == r.clients[session].role
  {
    assert [e][0] == e;
    match e
    case CreateAsked(asking, name, visibility, made, readable) =>
      if asking in r.clients {
        CreationJoins(g, r, asking, name, visibility, made, readable);
      }
    case Spoken(draft) => ChatOutcome(key, g, r, draft);
    case _ =>
  }

  lemma {:induction false} PeersStay(key: nat, g: Uuid, r: Registry, events: seq<Event>, session: Uuid)
    requires session in r.clients && StaysConnected(events, session)
    ensures var here := AfterAll(key, g, r, events);
            && session in here.clients
            && here.clients[session].peer == r.clients[session].peer
            && here.clients[session].role == r.clients[session].role
  {
    if events != [] {
      var n := |events| - 1;
      assert forall i :: 0 <= i < n ==> events[..n][i] == events[i];
      PeersStay(key, g, r, events[..n], session);
      PeerStays(key, g, AfterAll(key, g, r, events[..n]), events[n], session);
    }
  }

  /**
   A session whose hello was accepted speaks in `general` for as long as it stays connected, and what it says there is
   delivered under the nickname it gave, sanitized, and the member it was authorized as.
   */
  lemma EnteredIsHeardInGeneral(key: nat, g: Uuid, r: Registry, session: Uuid, member: Uuid, rawNickname: string,
                                direct: Option<DirectInfo>, role: GroupRole, events: seq<Event>, m: Draft)
    requires InOrder(g, r) && Numbered(r.tables) && StaysConnected(events, session)
    requires SanitizedLine(rawNickname, MAX_NICKNAME_CHARS).Ok?
    requires direct.Some? ==> IsValidFingerprint(direct.value.fingerprint)
    requires m.session == session && m.room == DEFAULT_ROOM_ID && SanitizedChat(m.text).Ok?
    ensures var entered := After(key, g, r, Entered(session, member, rawNickname, direct, role));
            var here := AfterAll(key, g, entered, events);
            && session in here.clients && here.clients[session].role == role
            && (Chat(key, g, here, m).reply.Delivered? <==> !CannotBeStored(g, here.tables, m))
            && (Chat(key, g, here, m).reply.Delivered? ==>
                  && Chat(key, g, here, m).reply.record.text == SanitizedChat(m.text).value
                  && Chat(key, g, here, m).reply.record.sender ==
                       Peer(session, member, SanitizedLine(rawNickname, MAX_NICKNAME_CHARS).value, direct))
  {
    var e := Entered(session, member, rawNickname, direct, role);
    var entered := After(key, g, r, e);
    EventKeepsOrder(key, g, r, e);
    PeersStay(key, g, entered, events, session);
    RunKeeps(key, g, entered, events);
    GeneralIsSafe();
    ChatAnswers(key, g, AfterAll(key, g, entered, events), m);
  }

  lemma GeneralIsSafe()
    ensures IsSafeIdentifier(DEFAULT_ROOM_ID)
  {
    AsciiByteLength(DEFAULT_ROOM_ID);
  }

  // ---------- creating rooms ----------

  /** Every answer to a room creation taken without interleaving, in terms of the store. */
  lemma CreateAnswers(g: Uuid, r: Registry, session: Uuid, rawName: string, visibility: RoomVisibility, room: string,
                      readable: bool)
    requires InOrder(g, r) && Constraints(r.tables) && session in r.clients
    ensures var o := Create(g, r, session, rawName, visibility, room, readable);
            var name := SanitizedLine(rawName, MAX_NICKNAME_CHARS);
            var owner := r.clients[session].peer.memberId;
            var full := |RoomIds(g, r.tables)| >= 64;
            && (o.reply == InvalidName <==> name.Err?)
            && (o.reply == RoomLimit <==> name.Ok? && full)
            && (o.reply == NameTaken <==> name.Ok? && !full && RoomNameUsed(r.tables, g, name.value))
            && (o.reply == NotPersisted <==>
                  && name.Ok? && !full && !RoomNameUsed(r.tables, g, name.value)
                  && (RoomKey(g, room) in r.tables.rooms || (visibility.Private? && owner !in r.tables.members)))
            && var placed := name.Ok? && HasPlace(g, r.tables, name.value, visibility, owner, room);
               && (o.reply == HistoryUnavailable <==> placed && !readable)
               && (o.reply.RoomJoined? <==> placed && readable)
               && (o.reply.RoomJoined? ==> o.reply.room == RoomSummary(room, name.value, visibility))
               && (!placed ==> o.registry == r)
               && (placed ==> o.registry.tables.rooms ==
                                r.tables.rooms[RoomKey(g, room) := RoomRow(name.value, visibility, 1)])
  {
    var name := SanitizedLine(rawName, MAX_NICKNAME_CHARS);
    var owner := r.clients[session].peer.memberId;
    MirroredIds(g, r.tables, r.cache);
    if name.Ok? {
      CachedNames(g, r, name.value);
      CreationAnswers(r.tables, g, name.value, visibility, Some(owner), room);
      CreationRooms(r.tables, g, name.value, visibility, Some(owner), room);
    }
  }

  lemma CachedNames(g: Uuid, r: Registry, name: string)
    requires InOrder(g, r)
    ensures RoomNameUsed(r.tables, g, name) <==> NameCached(r.cache, name)
  {
    if room :| room in r.cache && SameName(r.cache[room].roomName, name) {
      assert SameName(r.tables.rooms[RoomKey(g, room)].name, name);
    }
  }

  /** The room ids the store draws, the hexadecimal digits of a random identifier, can always be named in a request. */
  lemma DrawnRoomsCanBeNamed(id: Uuid)
    ensures IsSafeIdentifier(HexDigits(id, 32))
  {
    HexLength(id, 32);
    HexCharsArePlain(id, 32);
    AsciiByteLength(HexDigits(id, 32));
  }

  // ---------- being let in ----------

  /** Every answer to a change of a private room's list, and what the list then says of the target. */
  lemma ShareAnswers(g: Uuid, r: Registry, actor: Uuid, role: GroupRole, room: string, target: Uuid, included: bool)
    requires InOrder(g, r)
    ensures var o := Share(g, r, actor, role, room, target, included);
            var at := RoomKey(g, room);
            var listed := GrantKey(at, target) in r.tables.grants;
            var owner := IsOwner(r.tables, at, target);
            var named := IsSafeIdentifier(room);
            var permitted := named && IsPrivate(r.tables, at) && (role.Admin? || IsOwner(r.tables, at, actor))
                             && ActiveAs(r.tables, g, target, Member);
            && (o.reply == InvalidRoom <==> !named)
            && (o.reply == MembershipFailed <==> named && !permitted)
            && (o.reply == MembershipSet <==> permitted && if included then !listed else listed && !owner)
            && (o.reply == MembershipUnchanged <==> permitted && if included then listed else !listed || owner)
            && (permitted ==> (GrantKey(at, target) in o.registry.tables.grants <==> included || owner))
            && (o.reply != MembershipSet ==> o.registry == r)
  {
    SharingChangesOneEntry(r.tables, g, room, actor, role, target, included);
  }

  /** No later event takes the member off the list of the room. */
  predicate NeverRemoved(events: seq<Event>, room: string, target: Uuid) {
    forall i :: 0 <= i < |events| ==>
      !(events[i].ShareAsked? && events[i].room == room && events[i].target == target && !events[i].included)
  }

  lemma {:induction false} AccessLasts(key: nat, g: Uuid, r: Registry, events: seq<Event>, room: string, m: Uuid)
    requires CanAccess(r.tables, g, room, m) && NeverRemoved(events, room, m)
    ensures CanAccess(AfterAll(key, g, r, events).tables, g, room, m)
  {
    if events != [] {
      var n := |events| - 1;
      assert forall i :: 0 <= i < n ==> events[..n][i] == events[i];
      AccessLasts(key, g, r, events[..n], room, m);
      var before := AfterAll(key, g, r, events[..n]);
      var op := StoreStep(key, g, before, events[n]);
      if op.Some? {
        AccessEndsOnlyByRemoval(before.tables, op.value, g, room, m);
      }
    }
  }

  /**
   Including a member takes effect: from the confirmation on, until it is taken off the list, each of its sessions is
   let into the room.
   */
  lemma IncludedMayJoin(key: nat, g: Uuid, r: Registry, actor: Uuid, role: GroupRole, room: string, target: Uuid,
                        events: seq<Event>, session: Uuid)
    requires InOrder(g, r) && NeverRemoved(events, room, target)
    requires Share(g, r, actor, role, room, target, true).reply in {MembershipSet, MembershipUnchanged}
    ensures var here := AfterAll(key, g, Share(g, r, actor, role, room, target, true).registry, events);
            session in here.clients && here.clients[session].peer.memberId == target ==>
              JoinRequest(g, here, session, room, true).reply.RoomJoined?
  {
    var shared := Share(g, r, actor, role, room, target, true).registry;
    ShareKeepsOrder(g, r, actor, role, room, target, true);
    SharingChangesOneEntry(r.tables, g, room, actor, role, target, true);
    AccessLasts(key, g, shared, events, room, target);
    SessionsStayInOrder(key, g, shared, events);
    var here := AfterAll(key, g, shared, events);
    if session in here.clients {
      JoinAnswers(g, here, session, room, true);
    }
  }

  lemma {:induction false} AdminLasts(key: nat, g: Uuid, r: Registry, events: seq<Event>, m: Uuid)
    requires ActiveAs(r.tables, g, m, Admin)
    ensures ActiveAs(AfterAll(key, g, r, events).tables, g, m, Admin)
  {
    if events != [] {
      var n := |events| - 1;
      AdminLasts(key, g, r, events[..n], m);
      var before := AfterAll(key, g, r, events[..n]);
      var op := StoreStep(key, g, before, events[n]);
      if op.Some? {
        AdminStays(before.tables, op.value, g, m);
      }
    }
  }

  /** An administrator's sessions are let into every room of the group, also those made later by others. */
  lemma AdministratorsMayJoin(key: nat, g: Uuid, r: Registry, events: seq<Event>, session: Uuid, m: Uuid, room: string)
    requires InOrder(g, r) && ActiveAs(r.tables, g, m, Admin) && IsSafeIdentifier(room)
    ensures var here := AfterAll(key, g, r, events);
            session in here.clients && here.clients[session].peer.memberId == m ==>
              (JoinRequest(g, here, session, room, true).reply.RoomJoined? <==> RoomKey(g, room) in here.tables.rooms)
  {
    AdminLasts(key, g, r, events, m);
    SessionsStayInOrder(key, g, r, events);
    var here := AfterAll(key, g, r, events);
    if session in here.clients {
      JoinAnswers(g, here, session, room, true);
    }
  }
}
