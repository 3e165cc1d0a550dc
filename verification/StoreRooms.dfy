/** Access lists of private rooms over whole runs: who owns a room, what sharing changes, and who may enter. */
module StoreRooms {
  import opened Wrappers
  import opened Protocol
  import opened BodyCipher
  import opened Store
  import opened StoreCredentials
  import opened StoreMembers

  /** Only private rooms have list entries, and every private room has exactly one owner. */
  ghost predicate RoomLists(s: Tables) {
    && (forall k :: k in s.grants ==> IsPrivate(s, k.at))
    && (forall key :: IsPrivate(s, key) ==> exists m: Uuid :: IsOwner(s, key, m))
    && (forall key, m: Uuid, o: Uuid :: IsOwner(s, key, m) && IsOwner(s, key, o) ==> m == o)
  }

  // ---------- one step ----------

  /** The lists stay as they are, rooms keep their visibility, and any new room is public. */
  predicate QuietRooms(s: Tables, s': Tables) {
    && s'.grants == s.grants
    && (forall key :: key in s.rooms ==> key in s'.rooms && s'.rooms[key].visibility == s.rooms[key].visibility)
    && (forall key :: key in s'.rooms && key !in s.rooms ==> s'.rooms[key].visibility.Public?)
  }

  lemma JoinIsQuiet(s: Tables, op: Op)
    requires op.OpAuthorizeJoin?
    ensures QuietRooms(s, Perform(s, op))
  {
    var change := JoinEffect(s, op.group, op.credential, op.nickname, op.member, op.token);
  }

  lemma AppendIsQuiet(key: nat, s: Tables, g: Uuid, room: string, id: Uuid, sender: Peer, sentAtMs: nat, text: string,
                      nonce: seq<Byte>)
    ensures QuietRooms(s, AppendMessage(key, s, g, room, id, sender, sentAtMs, text, nonce).tables)
  {
  }

  lemma CreationIsQuiet(s: Tables, name: string, mode: AccessMode, g: Uuid, creator: Uuid, admin: string,
                        invite: string)
    ensures QuietRooms(s, CreateGroup(s, name, mode, g, creator, admin, invite).tables)
  {
  }

  lemma RotationIsQuiet(s: Tables, op: Op)
    requires op.OpRotateGroupToken?
    ensures QuietRooms(s, Perform(s, op))
  {
    RotationChange(s, op);
  }

  lemma MostStepsAreQuiet(s: Tables, op: Op)
    requires !op.OpCreateRoom? && !op.OpSetRoomMember?
    ensures QuietRooms(s, Perform(s, op))
  {
    match op
    case OpAuthorizeJoin(_, _, _, _, _) => JoinIsQuiet(s, op);
    case OpAppendMessage(key, g, room, id, sender, sentAtMs, text, nonce) =>
      AppendIsQuiet(key, s, g, room, id, sender, sentAtMs, text, nonce);
    case OpCreateGroup(name, mode, g, creator, admin, invite) =>
      CreationIsQuiet(s, name, mode, g, creator, admin, invite);
    case OpRotateGroupToken(_, _, _, _) => RotationIsQuiet(s, op);
    case _ =>
  }

  lemma QuietKeepsLists(s: Tables, s': Tables)
    requires RoomLists(s) && QuietRooms(s, s')
    ensures RoomLists(s')
    ensures forall key :: IsPrivate(s', key) <==> IsPrivate(s, key)
    ensures forall key, m: Uuid :: IsOwner(s', key, m) <==> IsOwner(s, key, m)
  {
    forall key | IsPrivate(s', key) ensures exists m: Uuid :: IsOwner(s', key, m) {
      assert IsPrivate(s, key);
      var m: Uuid :| IsOwner(s, key, m);
      assert IsOwner(s', key, m);
    }
    forall key, m: Uuid, o: Uuid | IsOwner(s', key, m) && IsOwner(s', key, o) ensures m == o {
      assert IsOwner(s, key, m) && IsOwner(s, key, o);
    }
  }

  lemma OneMoreOwnedRoom(s: Tables, s': Tables, at: RoomKey, row: RoomRow, owner: Uuid)
    requires RoomLists(s) && at !in s.rooms && row.visibility.Private?
    requires s'.rooms == s.rooms[at := row] && s'.grants == s.grants[GrantKey(at, owner) := Owner]
    ensures RoomLists(s') && IsPrivate(s', at)
    ensures forall key, m: Uuid :: IsOwner(s', key, m) <==> if key == at then m == owner else IsOwner(s, key, m)
  {
    assert forall k :: k in s.grants ==> IsPrivate(s, k.at) && k.at != at;
    forall key, m: Uuid ensures IsOwner(s', key, m) <==> if key == at then m == owner else IsOwner(s, key, m) {
    }
    forall key | IsPrivate(s', key) ensures exists m: Uuid :: IsOwner(s', key, m) {
      if key == at {
        assert IsOwner(s', at, owner);
      } else {
        assert IsPrivate(s, key);
        var m: Uuid :| IsOwner(s, key, m);
        assert IsOwner(s', key, m);
      }
    }
  }

  /** What the tables become when a room is created. */
  lemma CreationRooms(s: Tables, g: Uuid, name: string, visibility: RoomVisibility, creator: Option<Uuid>, room: string)
    ensures var step := CreateRoom(s, g, name, visibility, creator, room);
            var at := RoomKey(g, room);
            if step.result.Err? then step.tables == s
            else at !in s.rooms && step.tables.rooms == s.rooms[at := RoomRow(name, visibility, 1)]
  {
  }

  /**
   Creating a room succeeds exactly if its name is free whatever the case of its letters, its id is new, and a private
   room has a creator with a row to own it; and the refusals come in that order.
   */
  lemma CreationAnswers(s: Tables, g: Uuid, name: string, visibility: RoomVisibility, creator: Option<Uuid>,
                        room: string)
    requires Constraints(s)
    ensures var result := CreateRoom(s, g, name, visibility, creator, room).result;
            var used := RoomNameUsed(s, g, name);
            var unowned := visibility.Private? && creator.None?;
            var storable := g in s.groups && RoomKey(g, room) !in s.rooms
                            && (visibility.Private? && creator.Some? ==> creator.value in s.members);
            && (result == Err(RoomNameTaken) <==> used)
            && (result == Err(OwnerRequired) <==> !used && unowned)
            && (result == Err(ConstraintFailed) <==> !used && !unowned && !storable)
            && (result == Ok(RoomSummary(room, name, visibility)) <==> !used && !unowned && storable)
  {
    if !RoomNameUsed(s, g, name) {
      forall o | o in s.rooms && o.group == g ensures s.rooms[o].name != name {
        assert !SameName(s.rooms[o].name, name);
      }
    }
    assert creator.Some? && RoomKey(g, room) !in s.rooms ==> GrantKey(RoomKey(g, room), creator.value) !in s.grants;
  }

  /** A new room is public and unlisted, or private with its creator as the one owner. */
  lemma NewRoomLists(s: Tables, g: Uuid, name: string, visibility: RoomVisibility, creator: Option<Uuid>, room: string)
    requires RoomLists(s)
    ensures var step := CreateRoom(s, g, name, visibility, creator, room);
            var at := RoomKey(g, room);
            && RoomLists(step.tables)
            && (forall key, m: Uuid :: IsPrivate(s, key) ==>
              IsPrivate(step.tables, key) && (IsOwner(step.tables, key, m) <==> IsOwner(s, key, m)))
            && (step.result.Ok? && visibility.Private? ==>
                  && IsPrivate(step.tables, at) && !IsPrivate(s, at)
                  && forall m: Uuid :: IsOwner(step.tables, at, m) <==> creator == Some(m))
  {
    var s' := CreateRoom(s, g, name, visibility, creator, room).tables;
    var at := RoomKey(g, room);
    CreationRooms(s, g, name, visibility, creator, room);
    CreationGrants(s, g, name, visibility, creator, room);
    if s' != s && visibility.Private? {
      OneMoreOwnedRoom(s, s', at, RoomRow(name, visibility, 1), creator.value);
    } else {
      QuietKeepsLists(s, s');
    }
  }

  /** This operation takes `m` off the list of a private room. */
  predicate Removes(s: Tables, op: Op, g: Uuid, room: string, m: Uuid) {
    && op.OpSetRoomMember? && op.group == g && op.room == room && op.target == m && !op.included
    && SetRoomMember(s, g, room, op.actor, op.actorRole, m, false).result == Ok(true)
  }

  /**
   Sharing changes the target's entry or nothing, says true exactly when it changed something, leaves the owner in
   place, and when it succeeds the target is listed exactly if it was to be included or is the owner.
   */
  lemma SharingChangesOneEntry(s: Tables, g: Uuid, room: string, actor: Uuid, role: GroupRole, target: Uuid,
                               included: bool)
    ensures var step := SetRoomMember(s, g, room, actor, role, target, included);
            var at := RoomKey(g, room);
            var s' := step.tables;
            && (forall k :: k != GrantKey(at, target) ==>
              (k in s'.grants <==> k in s.grants) && (k in s.grants ==> s'.grants[k] == s.grants[k]))
            && s' == s.(grants := s'.grants)
            && (step.result == Ok(true) <==> s' != s)
            && (step.result.Ok? <==>
                  IsPrivate(s, at) && (role.Admin? || IsOwner(s, at, actor)) && ActiveAs(s, g, target, Member))
            && (step.result.Ok? ==>
                  (GrantKey(at, target) in s'.grants <==> included || IsOwner(s, at, target)))
            && (forall key, m: Uuid :: IsOwner(s', key, m) <==> IsOwner(s, key, m))
  {
    var step := SetRoomMember(s, g, room, actor, role, target, included);
    var grant := GrantKey(RoomKey(g, room), target);
    if step.result == Ok(true) {
      assert grant in step.tables.grants <==> grant !in s.grants;
    }
  }

  lemma SharingKeepsLists(s: Tables, g: Uuid, room: string, actor: Uuid, role: GroupRole, target: Uuid, included: bool)
    requires RoomLists(s)
    ensures RoomLists(SetRoomMember(s, g, room, actor, role, target, included).tables)
  {
    SharingChangesOneEntry(s, g, room, actor, role, target, included);
    var s' := SetRoomMember(s, g, room, actor, role, target, included).tables;
    forall key | IsPrivate(s', key) ensures exists m: Uuid :: IsOwner(s', key, m) {
      assert IsPrivate(s, key);
      var m: Uuid :| IsOwner(s, key, m);
      assert IsOwner(s', key, m);
    }
    forall k | k in s'.grants ensures IsPrivate(s', k.at) {
      assert k in s.grants || k.at == RoomKey(g, room);
    }
  }

  /** What one step keeps: the list invariant, and the owner of every private room. */
  lemma RoomStep(s: Tables, op: Op)
    requires RoomLists(s)
    ensures RoomLists(Perform(s, op))
    ensures forall key, m: Uuid :: IsPrivate(s, key) ==>
              IsPrivate(Perform(s, op), key) && (IsOwner(Perform(s, op), key, m) <==> IsOwner(s, key, m))
  {
    if op.OpCreateRoom? {
      NewRoomLists(s, op.group, op.name, op.visibility, op.owner, op.room);
    } else if op.OpSetRoomMember? {
      SharingKeepsLists(s, op.group, op.room, op.actor, op.actorRole, op.target, op.included);
      SharingChangesOneEntry(s, op.group, op.room, op.actor, op.actorRole, op.target, op.included);
    } else {
      MostStepsAreQuiet(s, op);
      QuietKeepsLists(s, Perform(s, op));
    }
  }

  // ---------- whole runs ----------

  /** A database opened without grants has no private rooms. */
  predicate NoPrivateRooms(s: Tables) {
    s.grants == map[] && forall key :: key in s.rooms ==> s.rooms[key].visibility.Public?
  }

  /** In every reachable store public rooms are unlisted and every private room has exactly one owner. */
  lemma {:induction false} RoomListsHold(s: Tables, ops: seq<Op>)
    requires NoPrivateRooms(s) || RoomLists(s)
    ensures RoomLists(PerformAll(s, ops))
  {
    if ops != [] {
      var n := |ops| - 1;
      RoomListsHold(s, ops[..n]);
      RoomStep(PerformAll(s, ops[..n]), ops[n]);
    }
  }

  /** The owner of a private room is fixed forever: nothing replaces it, removes it or adds another. */
  lemma {:induction false} OwnersAreFixed(s: Tables, ops: seq<Op>, key: RoomKey, owner: Uuid)
    requires RoomLists(s) && IsPrivate(s, key) && IsOwner(s, key, owner)
    ensures var s' := PerformAll(s, ops);
            IsPrivate(s', key) && forall m: Uuid :: IsOwner(s', key, m) <==> m == owner
  {
    if ops != [] {
      var n := |ops| - 1;
      OwnersAreFixed(s, ops[..n], key, owner);
      RoomListsHold(s, ops[..n]);
      RoomStep(PerformAll(s, ops[..n]), ops[n]);
    }
  }

  // ---------- who may enter ----------

  /** The listing of rooms, the access check and the `included` flag of the member listing give one answer. */
  lemma AccessViewsAgree(s: Tables, g: Uuid, room: string, m: Uuid)
    ensures room in RoomsForMember(s, g, m) <==> CanAccess(s, g, room, m)
    ensures var lines := RoomMembers(s, g, room);
            && (lines.Ok? <==> IsPrivate(s, RoomKey(g, room)))
            && (lines.Ok? && m in s.members && s.members[m].group == g && s.members[m].status.ActiveMember? ==>
                  exists line :: line in lines.value && line.memberId == m)
            && (lines.Ok? ==> forall line :: line in lines.value && line.memberId == m ==>
                  && m in s.members && s.members[m].group == g && s.members[m].status.ActiveMember?
                  && line.nickname == s.members[m].nickname
                  && (line.groupRole.Admin? <==> ActiveAs(s, g, m, Admin))
                  && (line.included <==> CanAccess(s, g, room, m))
                  && (line.isOwner <==> IsOwner(s, RoomKey(g, room), m)))
  {
    var key := RoomKey(g, room);
    if CanAccess(s, g, room, m) {
      assert key in s.rooms && key.group == g && key.room == room;
    }
    var lines := RoomMembers(s, g, room);
    if lines.Ok? && m in s.members && s.members[m].group == g && s.members[m].status.ActiveMember? {
      assert RoomMemberLine(s, key, m) in lines.value;
    }
  }

  lemma QuietAccess(s: Tables, s': Tables, g: Uuid, room: string, m: Uuid)
    requires QuietRooms(s, s') && CanAccess(s, g, room, m)
    requires ActiveAs(s, g, m, Admin) ==> ActiveAs(s', g, m, Admin)
    ensures CanAccess(s', g, room, m)
  {
  }

  lemma JoinKeepsAdmin(s: Tables, op: Op, g: Uuid, m: Uuid)
    requires op.OpAuthorizeJoin? && ActiveAs(s, g, m, Admin)
    ensures ActiveAs(Perform(s, op), g, m, Admin)
  {
    var change := JoinEffect(s, op.group, op.credential, op.nickname, op.member, op.token);
  }

  /** Administrators cannot be banned. */
  lemma AdminStays(s: Tables, op: Op, g: Uuid, m: Uuid)
    requires ActiveAs(s, g, m, Admin)
    ensures ActiveAs(Perform(s, op), g, m, Admin)
  {
    match op
    case OpCreateGroup(_, _, _, _, _, _) => CreationChange(s, op);
    case OpAuthorizeJoin(_, _, _, _, _) => JoinKeepsAdmin(s, op, g, m);
    case OpRotateGroupToken(_, _, _, _) => RotationKeepsRoster(s, op);
    case OpUpdateMemberNickname(group, o, nickname) => NicknameTouchesNoCredential(s, group, o, nickname);
    case OpSetMemberBanned(group, o, banned) => BanTouchesNoCredential(s, group, o, banned);
    case OpCreateJoinRequest(_, _, _, _) => RequestOpsTouchNoMember(s, op);
    case OpDecideJoinRequest(_, _, _) => RequestOpsTouchNoMember(s, op);
    case _ => RoomOpsTouchNoCredential(s, op);
  }

  lemma SharingAccess(s: Tables, op: Op, g: Uuid, room: string, m: Uuid)
    requires op.OpSetRoomMember? && CanAccess(s, g, room, m)
    ensures !CanAccess(Perform(s, op), g, room, m) <==> Removes(s, op, g, room, m)
  {
  }

  /** Access to a room ends in exactly one way: the member is taken off the room's list. */
  lemma AccessEndsOnlyByRemoval(s: Tables, op: Op, g: Uuid, room: string, m: Uuid)
    requires CanAccess(s, g, room, m)
    ensures !CanAccess(Perform(s, op), g, room, m) <==> Removes(s, op, g, room, m)
  {
    if ActiveAs(s, g, m, Admin) {
      AdminStays(s, op, g, m);
    }
    if op.OpSetRoomMember? {
      SharingAccess(s, op, g, room, m);
    } else if op.OpCreateRoom? {
      CreationGrants(s, op.group, op.name, op.visibility, op.owner, op.room);
      RoomOpsTouchNoCredential(s, op);
    } else {
      MostStepsAreQuiet(s, op);
      QuietAccess(s, Perform(s, op), g, room, m);
    }
  }

  // ---------- members taken off a list ----------

  /** An ordinary member who is not on the list of a private room. */
  predicate ShutOut(s: Tables, g: Uuid, room: string, m: Uuid) {
    && IsPrivate(s, RoomKey(g, room)) && GrantKey(RoomKey(g, room), m) !in s.grants
    && m in s.members && s.members[m].group == g && s.members[m].role.Member?
  }

  predicate Includes(op: Op, g: Uuid, room: string, m: Uuid) {
    op.OpSetRoomMember? && op.group == g && op.room == room && op.target == m && op.included
  }

  lemma ShutOutHasNoAccess(s: Tables, g: Uuid, room: string, m: Uuid)
    requires ShutOut(s, g, room, m)
    ensures !CanAccess(s, g, room, m)
  {
  }

  lemma ListStaysClosed(s: Tables, op: Op, g: Uuid, room: string, m: Uuid)
    requires ShutOut(s, g, room, m) && !Includes(op, g, room, m)
    ensures IsPrivate(Perform(s, op), RoomKey(g, room)) && GrantKey(RoomKey(g, room), m) !in Perform(s, op).grants
  {
    if op.OpCreateRoom? {
      CreationGrants(s, op.group, op.name, op.visibility, op.owner, op.room);
      CreationRooms(s, op.group, op.name, op.visibility, op.owner, op.room);
    } else if op.OpSetRoomMember? {
      SharingChangesOneEntry(s, op.group, op.room, op.actor, op.actorRole, op.target, op.included);
    } else {
      MostStepsAreQuiet(s, op);
    }
  }

  /** Nothing but being included again lets such a member in. */
  lemma ShutOutStays(s: Tables, op: Op, g: Uuid, room: string, m: Uuid)
    requires ShutOut(s, g, room, m) && !Includes(op, g, room, m)
    ensures ShutOut(Perform(s, op), g, room, m)
  {
    ListStaysClosed(s, op, g, room, m);
    RowsKeepGroupAndRole(s, op, m);
  }

  /** A removal that succeeds shuts the member out. */
  lemma RemovalShutsOut(s: Tables, g: Uuid, room: string, actor: Uuid, role: GroupRole, m: Uuid)
    requires SetRoomMember(s, g, room, actor, role, m, false).result == Ok(true)
    ensures ShutOut(SetRoomMember(s, g, room, actor, role, m, false).tables, g, room, m)
  {
  }
}
