/**
 What the session registry guarantees over whole runs: who is heard, who is not, and that no message meets a missing
 room.
 */
module SessionGuarantees {
  import opened Wrappers
  import opened Protocol
  import opened Sanitizer
  import opened Store
  import opened StoreRooms
  import opened StoreMessages
  import opened Sessions

  // ---------- every event is at most one store operation ----------

  /** The operation an event performs on the store, if it performs one. */
  lemma StoreStep(key: nat, g: Uuid, r: Registry, e: Event) returns (op: Option<Op>)
    ensures After(key, g, r, e).tables == if op.Some? then Perform(r.tables, op.value) else r.tables
    ensures op.Some? && op.value.OpSetRoomMember? && op.value.group == g ==>
              e.ShareAsked? && op.value == OpSetRoomMember(g, e.room, e.actor, e.actorRole, e.target, e.included)
    ensures op.Some? && op.value.OpAppendMessage? && op.value.group == g ==>
              e.Spoken? && e.draft.session in r.clients && op.value == AppendOf(key, g, r, e.draft)
              && SanitizedChat(e.draft.text).Ok? && HasJoined(r, e.draft.session, e.draft.room)
              && IsSafeIdentifier(e.draft.room)
  {
    op := None;
    match e
    case CreateAsked(session, rawName, visibility, room, readable) =>
      if session in r.clients {
        var name := CreateOutcome(g, r, session, rawName, visibility, room, readable);
        if Create(g, r, session, rawName, visibility, room, readable).registry != r {
          op := Some(OpCreateRoom(g, name, visibility, Some(r.clients[session].peer.memberId), room));
        }
      }
    case ShareAsked(actor, role, room, target, included) =>
      if Share(g, r, actor, role, room, target, included).registry.tables != r.tables {
        op := Some(OpSetRoomMember(g, room, actor, role, target, included));
      }
    case Spoken(draft) =>
      ChatOutcome(key, g, r, draft);
      if Chat(key, g, r, draft).registry != r {
        op := Some(AppendOf(key, g, r, draft));
      }
    case StoreUsed(used) =>
      if !OwnOp(used, g) {
        op := Some(used);
      }
    case _ =>
  }

  // ---------- chats ----------

  lemma {:induction false} RoomsStayNumbered(key: nat, g: Uuid, r: Registry, events: seq<Event>)
    requires Numbered(r.tables)
    ensures Numbered(AfterAll(key, g, r, events).tables)
  {
    if events != [] {
      var n := |events| - 1;
      RoomsStayNumbered(key, g, r, events[..n]);
      var before := AfterAll(key, g, r, events[..n]);
      var op := StoreStep(key, g, before, events[n]);
      if op.Some? {
        NumberedStep(before.tables, op.value);
      }
    }
  }

  /**
   The `room_not_found` branch of `handle_room_chat` is unreachable, and so is the store's own: a clean message to a
   joined room is lost only for a reused id or a room whose numbers have run out.
   */
  lemma ChatNeverMeetsAnUnknownRoom(key: nat, g: Uuid, r: Registry, events: seq<Event>, m: Draft)
    requires InOrder(g, r) && Numbered(r.tables)
    ensures var here := AfterAll(key, g, r, events);
            var reply := Chat(key, g, here, m).reply;
            && reply != UnknownRoom
            && (reply == NotPersisted ==>
                  RoomKey(g, m.room) in here.tables.rooms
                  && (m.id in here.tables.messages || here.tables.rooms[RoomKey(g, m.room)].nextSequence == I64_MAX))
  {
    SessionsStayInOrder(key, g, r, events);
    RoomsStayNumbered(key, g, r, events);
    var here := AfterAll(key, g, r, events);
    var clean := SanitizedChat(m.text);
    if clean.Ok? && m.session in here.clients {
      AppendOutcome(key, here.tables, g, m.room, m.id, here.clients[m.session].peer, m.now, clean.value, m.nonce);
    }
  }

  /**
   A delivered message names as its sender the member its session was admitted as, and that member may enter the room
   at that moment; its text is clean.
   */
  lemma OnlyTheAdmittedAreHeard(key: nat, g: Uuid, r: Registry, events: seq<Event>, m: Draft)
    requires InOrder(g, r) && Chat(key, g, AfterAll(key, g, r, events), m).reply.Delivered?
    ensures var here := AfterAll(key, g, r, events);
            var record := Chat(key, g, here, m).reply.record;
            && m.session in here.clients && record.sender == here.clients[m.session].peer
            && CanAccess(here.tables, g, m.room, record.sender.memberId)
            && record.roomId == m.room && record.messageId == m.id
            && CleanChat(record.text) && SanitizedChat(m.text) == Ok(record.text)
  {
    SessionsStayInOrder(key, g, r, events);
    AcceptedChatIsClean(m.text);
  }

  // ---------- removals ----------

  /** No later event includes the member in the room again. */
  predicate NeverIncluded(events: seq<Event>, room: string, target: Uuid) {
    forall i :: 0 <= i < |events| ==>
      !(events[i].ShareAsked? && events[i].room == room && events[i].target == target && events[i].included)
  }

  lemma {:induction false} ShutOutLasts(key: nat, g: Uuid, r: Registry, events: seq<Event>, room: string, target: Uuid)
    requires ShutOut(r.tables, g, room, target) && NeverIncluded(events, room, target)
    ensures ShutOut(AfterAll(key, g, r, events).tables, g, room, target)
  {
    if events != [] {
      var n := |events| - 1;
      assert forall i :: 0 <= i < n ==> events[..n][i] == events[i];
      ShutOutLasts(key, g, r, events[..n], room, target);
      var before := AfterAll(key, g, r, events[..n]);
      var op := StoreStep(key, g, before, events[n]);
      if op.Some? {
        ShutOutStays(before.tables, op.value, g, room, target);
      }
    }
  }

  /**
   Once a removal is confirmed, and whatever happens after it except being included again, no session of the member,
   old or new, can speak in the room or join it.
   */
  lemma RemovalLasts(key: nat, g: Uuid, r: Registry, actor: Uuid, role: GroupRole, room: string, target: Uuid,
                     events: seq<Event>, m: Draft, readable: bool)
    requires InOrder(g, r) && Share(g, r, actor, role, room, target, false).reply == MembershipSet
    requires NeverIncluded(events, room, target) && m.room == room
    ensures var here := AfterAll(key, g, Share(g, r, actor, role, room, target, false).registry, events);
            m.session in here.clients && here.clients[m.session].peer.memberId == target ==>
              && Chat(key, g, here, m) == Outcome(here, NotJoined)
              && JoinRequest(g, here, m.session, room, readable) == Outcome(here, Denied)
  {
    var after := Share(g, r, actor, role, room, target, false).registry;
    ShareKeepsOrder(g, r, actor, role, room, target, false);
    RemovalShutsOut(r.tables, g, room, actor, role, target);
    ShutOutLasts(key, g, after, events, room, target);
    SessionsStayInOrder(key, g, after, events);
    ShutOutHasNoAccess(AfterAll(key, g, after, events).tables, g, room, target);
  }
}
