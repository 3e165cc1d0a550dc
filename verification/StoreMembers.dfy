/** Membership over whole runs: row limits of a group, and what a ban freezes. */
module StoreMembers {
  import opened Wrappers
  import opened Protocol
  import opened Sanitizer
  import opened Store
  import opened StoreCredentials
  import opened StoreApprovals

  // ---------- row limits ----------

  /** At most 10,000 ordinary rows, and 10,000 rows in all until an administrator row joins a full migrated group. */
  predicate RowsBounded(s: Tables, g: Uuid) {
    && |Ordinary(s, g)| <= MAX_GROUP_MEMBERS
    && |RowsOf(s, g)| <= MAX_GROUP_MEMBERS + (if HasAdminRow(s, g) then 1 else 0)
  }

  lemma RowsSplit(s: Tables, g: Uuid)
    ensures |Ordinary(s, g)| <= |RowsOf(s, g)|
  {
    SubsetIsSmaller(Ordinary(s, g), RowsOf(s, g));
  }

  /** The limits hold after a step, and a group with an administrator row does not pass 10,000 rows in it. */
  predicate StaysBounded(s: Tables, s': Tables, g: Uuid) {
    && RowsBounded(s', g)
    && (HasAdminRow(s, g) && |RowsOf(s, g)| <= MAX_GROUP_MEMBERS ==> |RowsOf(s', g)| <= MAX_GROUP_MEMBERS)
  }

  lemma SameRows(s: Tables, s': Tables, g: Uuid)
    requires SameRoster(s, s') && RowsBounded(s, g)
    ensures StaysBounded(s, s', g)
  {
    assert Ordinary(s', g) == Ordinary(s, g);
    assert RowsOf(s', g) == RowsOf(s, g);
    if m :| m in s.members && s.members[m].group == g && s.members[m].role.Admin? {
      assert m in s'.members && s'.members[m].group == g && s'.members[m].role.Admin?;
    }
  }

  lemma NewRow(s: Tables, s': Tables, m: Uuid, row: MemberRow, g: Uuid)
    requires m !in s.members && s'.members == s.members[m := row]
    ensures |RowsOf(s', g)| == |RowsOf(s, g)| + (if row.group == g then 1 else 0)
    ensures HasAdminRow(s', g) <==> HasAdminRow(s, g) || (row.group == g && row.role.Admin?)
  {
    if row.group == g {
      assert RowsOf(s', g) == RowsOf(s, g) + {m};
    } else {
      assert RowsOf(s', g) == RowsOf(s, g);
    }
    assert s'.members[m] == row;
    if o :| o in s.members && s.members[o].group == g && s.members[o].role.Admin? {
      assert s'.members[o] == s.members[o];
    }
  }

  lemma AdmissionBounded(s: Tables, change: JoinChange, group: Uuid, credential: Option<string>, token: string, g: Uuid)
    requires change.Admitted? && Justified(s, change, group, credential, token)
    requires AdminRowsMatch(s) && RowsBounded(s, g)
    ensures StaysBounded(s, AfterJoin(s, change), g)
  {
    var s' := AfterJoin(s, change);
    var row := change.row;
    AdmissionRows(s, s', change.member, row, g);
    NewRow(s, s', change.member, row, g);
    RowsSplit(s, g);
    if row.role.Admin? {
      AdminRowNeedsAnEmptyPlace(s, change.member, row);
    }
  }

  lemma JoinBounded(s: Tables, op: Op, g: Uuid)
    requires op.OpAuthorizeJoin? && AdminRowsMatch(s) && RowsBounded(s, g)
    ensures StaysBounded(s, Perform(s, op), g)
  {
    var change := JoinEffect(s, op.group, op.credential, op.nickname, op.member, op.token);
    if change.Admitted? {
      AdmissionBounded(s, change, op.group, op.credential, op.token, g);
    } else {
      SameRows(s, AfterJoin(s, change), g);
    }
  }

  lemma CreationBounded(s: Tables, op: Op, g: Uuid)
    requires op.OpCreateGroup? && Constraints(s) && RowsBounded(s, g)
    ensures StaysBounded(s, Perform(s, op), g)
  {
    var s' := Perform(s, op);
    CreationChange(s, op);
    if s' != s {
      AdmissionRows(s, s', op.creator, s'.members[op.creator], g);
      NewRow(s, s', op.creator, s'.members[op.creator], g);
      if g == op.group {
        assert RowsOf(s, g) == {};
      }
    }
  }

  lemma RequestOpsTouchNoMember(s: Tables, op: Op)
    requires op.OpCreateJoinRequest? || op.OpDecideJoinRequest?
    ensures Perform(s, op).members == s.members
  {
  }

  /** Only creating and joining a group make rows. */
  lemma RosterStays(s: Tables, op: Op)
    requires !op.OpCreateGroup? && !op.OpAuthorizeJoin?
    ensures SameRoster(s, Perform(s, op))
  {
    match op
    case OpRotateGroupToken(_, _, _, _) => RotationKeepsRoster(s, op);
    case OpUpdateMemberNickname(group, m, nickname) => NicknameTouchesNoCredential(s, group, m, nickname);
    case OpSetMemberBanned(group, m, banned) => BanTouchesNoCredential(s, group, m, banned);
    case OpDecideJoinRequest(_, _, _) => RequestOpsTouchNoMember(s, op);
    case OpCreateJoinRequest(_, _, _, _) => RequestOpsTouchNoMember(s, op);
    case _ => RoomOpsTouchNoCredential(s, op);
  }

  lemma BoundedStep(s: Tables, op: Op, g: Uuid)
    requires Constraints(s) && AdminRowsMatch(s) && RowsBounded(s, g)
    ensures StaysBounded(s, Perform(s, op), g)
  {
    if op.OpCreateGroup? {
      CreationBounded(s, op, g);
    } else if op.OpAuthorizeJoin? {
      JoinBounded(s, op, g);
    } else {
      RosterStays(s, op);
      SameRows(s, Perform(s, op), g);
    }
  }

  /** Ordinary rows never exceed 10,000 and all rows together never exceed 10,001. */
  lemma {:induction false} RowsStayBounded(s: Tables, seen: set<Hash>, ops: seq<Op>, g: Uuid)
    requires CredentialsOk(s, seen) && FreshRun(seen, ops) && RowsBounded(s, g)
    ensures RowsBounded(PerformAll(s, ops), g)
    ensures |Ordinary(PerformAll(s, ops), g)| <= 10_000 && |RowsOf(PerformAll(s, ops), g)| <= 10_001
  {
    if ops != [] {
      var n := |ops| - 1;
      RowsStayBounded(s, seen, ops[..n], g);
      CredentialsRun(s, seen, ops[..n]);
      BoundedStep(PerformAll(s, ops[..n]), ops[n], g);
    }
  }

  /** A group that was created here, so has had its administrator row from the start, never exceeds 10,000 rows. */
  lemma {:induction false} CreatedGroupsStayWithinLimit(s: Tables, seen: set<Hash>, create: Op, ops: seq<Op>)
    requires create.OpCreateGroup? && CredentialsOk(s, seen) && FreshOp(create, seen)
    requires CreateGroup(s, create.name, create.mode, create.group, create.creator, create.admin,
      create.invite).result.Ok?
    requires FreshRun(seen + Drawn(create), ops)
    ensures |RowsOf(PerformAll(Perform(s, create), ops), create.group)| <= 10_000
    ensures HasAdminRow(PerformAll(Perform(s, create), ops), create.group)
    ensures RowsBounded(PerformAll(Perform(s, create), ops), create.group)
  {
    var g := create.group;
    var created := Perform(s, create);
    var seen' := seen + Drawn(create);
    if ops == [] {
      CreationChange(s, create);
      assert RowsOf(s, g) == {} && Ordinary(s, g) == {};
      CreationBounded(s, create, g);
      CreatedGroupHasAdminRow(s, create);
      NewRow(s, created, create.creator, created.members[create.creator], g);
    } else {
      var n := |ops| - 1;
      CreatedGroupsStayWithinLimit(s, seen, create, ops[..n]);
      CredentialsStep(s, seen, create);
      CredentialsRun(created, seen', ops[..n]);
      var before := PerformAll(created, ops[..n]);
      BoundedStep(before, ops[n], g);
      var m :| m in before.members && before.members[m].group == g && before.members[m].role.Admin?;
      RowsKeepGroupAndRole(before, ops[n], m);
    }
  }

  // ---------- bans ----------

  predicate IsBanned(s: Tables, m: Uuid) {
    m in s.members && s.members[m].status.BannedMember?
  }

  predicate Unbans(op: Op, s: Tables, m: Uuid) {
    op.OpSetMemberBanned? && !op.banned && op.member == m && m in s.members && op.group == s.members[m].group
  }

  /** Status, credential, role and group of a banned row. */
  predicate BanHolds(s: Tables, s': Tables, m: Uuid) {
    IsBanned(s, m) ==>
      && IsBanned(s', m) && SameKey(s'.members[m], s.members[m]) && s'.members[m].role == s.members[m].role
  }

  lemma JoinKeepsBan(s: Tables, change: JoinChange, g: Uuid, credential: Option<string>, token: string, m: Uuid)
    requires Justified(s, change, g, credential, token)
    ensures BanHolds(s, AfterJoin(s, change), m)
  {
  }

  lemma MemberOpsKeepBan(s: Tables, op: Op, m: Uuid)
    requires op.OpUpdateMemberNickname? || op.OpSetMemberBanned?
    requires !Unbans(op, s, m)
    ensures BanHolds(s, Perform(s, op), m)
  {
  }

  lemma RotationKeepsBan(s: Tables, op: Op, m: Uuid)
    requires op.OpRotateGroupToken?
    ensures BanHolds(s, Perform(s, op), m)
  {
    RotationChange(s, op);
  }

  lemma BanStep(s: Tables, op: Op, m: Uuid)
    requires !Unbans(op, s, m)
    ensures BanHolds(s, Perform(s, op), m)
  {
    match op
    case OpCreateGroup(_, _, _, _, _, _) => CreationChange(s, op);
    case OpAuthorizeJoin(group, credential, nickname, o, token) =>
      var change := JoinEffect(s, group, credential, nickname, o, token);
      JoinKeepsBan(s, change, group, credential, token, m);
    case OpRotateGroupToken(_, _, _, _) => RotationKeepsBan(s, op, m);
    case OpUpdateMemberNickname(_, _, _) => MemberOpsKeepBan(s, op, m);
    case OpSetMemberBanned(_, _, _) => MemberOpsKeepBan(s, op, m);
    case OpCreateJoinRequest(_, _, _, _) => RequestOpsTouchNoMember(s, op);
    case OpDecideJoinRequest(_, _, _) => RequestOpsTouchNoMember(s, op);
    case _ => RoomOpsTouchNoCredential(s, op);
  }

  /** Exactly the unban of this member in its group ends a ban. */
  lemma OnlyAnUnbanEndsABan(s: Tables, op: Op, m: Uuid)
    requires AdminRowsMatch(s) && IsBanned(s, m)
    ensures !IsBanned(Perform(s, op), m) <==> Unbans(op, s, m)
  {
    if !Unbans(op, s, m) {
      BanStep(s, op, m);
    }
  }

  predicate NeverUnbanned(s: Tables, ops: seq<Op>, m: Uuid)
    requires m in s.members
  {
    forall i :: 0 <= i < |ops| ==>
      !(ops[i].OpSetMemberBanned? && !ops[i].banned && ops[i].member == m && ops[i].group == s.members[m].group)
  }

  lemma {:induction false} BanLasts(s: Tables, seen: set<Hash>, ops: seq<Op>, m: Uuid)
    requires CredentialsOk(s, seen) && FreshRun(seen, ops)
    requires IsBanned(s, m) && NeverUnbanned(s, ops, m)
    ensures CredentialsOk(PerformAll(s, ops), SeenAfter(seen, ops))
    ensures BanHolds(s, PerformAll(s, ops), m)
  {
    if ops != [] {
      var n := |ops| - 1;
      assert forall i :: 0 <= i < n ==> ops[..n][i] == ops[i];
      BanLasts(s, seen, ops[..n], m);
      var before := PerformAll(s, ops[..n]);
      assert !Unbans(ops[n], before, m);
      BanStep(before, ops[n], m);
      CredentialsStep(before, SeenAfter(seen, ops[..n]), ops[n]);
    }
  }

  /** Until it is unbanned, a banned member's token is answered Banned by its group, whatever else happens. */
  lemma BannedTokenIsAlwaysRefused(s: Tables, seen: set<Hash>, ops: seq<Op>, m: Uuid, token: string, nickname: string,
                                   o: Uuid, drawn: string)
    requires CredentialsOk(s, seen) && FreshRun(seen, ops)
    requires IsBanned(s, m) && NeverUnbanned(s, ops, m)
    requires s.members[m].hash == HashOf(token) && IsValidGroupCredential(token)
    ensures var s' := PerformAll(s, ops);
            AuthorizeJoin(s', s.members[m].group, Some(token), nickname, o, drawn) == Step(s', Ok(Banned))
  {
    BanLasts(s, seen, ops, m);
    var s' := PerformAll(s, ops);
    var g := s.members[m].group;
    assert MemberHas(s', m, g, HashOf(token));
    assert SameKey(s'.members[MemberWith(s', g, HashOf(token)).value], s'.members[m]);
  }

  /** The rooms a member was granted. */
  function GrantsOf(s: Tables, m: Uuid): set<RoomKey> {
    set k | k in s.grants && k.member == m :: k.at
  }

  /** The member makes a private room of its own, under a name and an id that are free; nobody asks for its status. */
  predicate OpensPrivateRoom(s: Tables, op: Op, m: Uuid) {
    && op.OpCreateRoom? && op.visibility.Private? && op.owner == Some(m)
    && op.group in s.groups && !RoomNameUsed(s, op.group, op.name) && RoomKey(op.group, op.room) !in s.rooms
  }

  /** For a member of any group these guards are all the store asks for. */
  lemma GuardsOpenTheRoom(s: Tables, op: Op, m: Uuid)
    requires op.OpCreateRoom? && op.visibility.Private? && op.owner == Some(m)
    requires Constraints(s) && m in s.members
    ensures CreateRoom(s, op.group, op.name, op.visibility, op.owner, op.room).result.Ok? <==>
      OpensPrivateRoom(s, op, m)
  {
    if OpensPrivateRoom(s, op, m) {
      assert forall o :: o in s.rooms && o.group == op.group ==> !SameName(s.rooms[o].name, op.name);
      assert GrantKey(RoomKey(op.group, op.room), m) !in s.grants;
    }
  }

  lemma GrantsUnchanged(s: Tables, op: Op)
    requires !op.OpCreateRoom? && !op.OpSetRoomMember?
    ensures Perform(s, op).grants == s.grants
  {
    if op.OpAuthorizeJoin? {
      var change := JoinEffect(s, op.group, op.credential, op.nickname, op.member, op.token);
    }
  }

  lemma GrantsExtended(s: Tables, s': Tables, at: RoomKey, o: Uuid, m: Uuid)
    requires s'.grants == s.grants[GrantKey(at, o) := Owner]
    ensures GrantsOf(s', m) == GrantsOf(s, m) + (if o == m then {at} else {})
  {
  }

  /** A room creation adds the owner's grant of a new private room, or leaves the grants alone. */
  lemma CreationGrants(s: Tables, g: Uuid, name: string, visibility: RoomVisibility, creator: Option<Uuid>,
                       room: string)
    ensures var step := CreateRoom(s, g, name, visibility, creator, room);
            var at := RoomKey(g, room);
            if step.result.Ok? && visibility.Private? then
              && creator.Some? && at !in s.rooms && step.tables.grants == s.grants[GrantKey(at, creator.value) := Owner]
            else step.tables.grants == s.grants
  {
  }

  lemma NewRoomGrants(s: Tables, op: Op, m: Uuid)
    requires op.OpCreateRoom? && Constraints(s) && m in s.members
    ensures GrantsOf(Perform(s, op), m) ==
            GrantsOf(s, m) + (if OpensPrivateRoom(s, op, m) then {RoomKey(op.group, op.room)} else {})
    ensures OpensPrivateRoom(s, op, m) ==> RoomKey(op.group, op.room) !in GrantsOf(s, m)
  {
    var step := CreateRoom(s, op.group, op.name, op.visibility, op.owner, op.room);
    CreationGrants(s, op.group, op.name, op.visibility, op.owner, op.room);
    if op.visibility.Private? && op.owner == Some(m) {
      GuardsOpenTheRoom(s, op, m);
    }
    if step.result.Ok? && op.visibility.Private? {
      GrantsExtended(s, step.tables, RoomKey(op.group, op.room), op.owner.value, m);
    }
  }

  /**
   A banned member keeps exactly its room grants, with one exception: the store lets it open a private room of its own,
   and that adds the one grant of the new room.
   */
  lemma BannedGrantsChangeOnlyByOwnRoom(s: Tables, op: Op, m: Uuid)
    requires Constraints(s) && IsBanned(s, m)
    ensures GrantsOf(Perform(s, op), m) != GrantsOf(s, m) <==> OpensPrivateRoom(s, op, m)
  {
    if op.OpCreateRoom? {
      NewRoomGrants(s, op, m);
    } else if op.OpSetRoomMember? {
      SharingLeavesBannedGrants(s, op, m);
    } else {
      GrantsUnchanged(s, op);
    }
  }

  lemma SharingLeavesBannedGrants(s: Tables, op: Op, m: Uuid)
    requires op.OpSetRoomMember? && IsBanned(s, m)
    ensures GrantsOf(Perform(s, op), m) == GrantsOf(s, m)
  {
  }

  /** The exception is real: a banned member of an otherwise empty group opens a private room and owns it. */
  lemma ABannedMemberCanGainAGrant()
    ensures var row := MemberRow(0, HashOf("m"), Member, BannedMember, "mallory");
            var s := Tables(map[0 := GroupRow("g", PublicGroup, None, None)], map[1 := row], map[], map[], map[],
              map[]);
            var op := OpCreateRoom(0, "den", Private, Some(1), "r");
            && Constraints(s) && IsBanned(s, 1)
            && GrantsOf(s, 1) == {} && RoomKey(0, "r") in GrantsOf(Perform(s, op), 1)
  {
  }
}
