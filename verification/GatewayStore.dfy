/**
 The store object of src/storage.rs: its tables are fields, its methods run the statements of each operation in order
 and give up without a trace when one of them fails.
 */
module GatewayStores {
  import opened Wrappers
  import opened Protocol
  import opened Sanitizer
  import opened BodyCipher
  import opened Store

  class GatewayStore {
    const key: nat
    var groups: map<Uuid, GroupRow>
    var members: map<Uuid, MemberRow>
    var requests: map<Uuid, RequestRow>
    var rooms: map<RoomKey, RoomRow>
    var grants: map<GrantKey, GrantRole>
    var messages: map<Uuid, MessageRow>

    function State(): Tables
      reads this
    {
      Tables(groups, members, requests, rooms, grants, messages)
    }

    predicate Valid()
      reads this
    {
      Constraints(State())
    }

    /** An empty database. */
    constructor (key: nat)
      ensures this.key == key && State() == Tables(map[], map[], map[], map[], map[], map[])
      ensures Valid()
    {
      this.key := key;
      groups, members, requests, rooms, grants, messages := map[], map[], map[], map[], map[], map[];
    }

    /** Roll back to the tables a transaction started from. */
    method RollBack(to: Tables)
      modifies this
      ensures State() == to
    {
      groups, members, requests := to.groups, to.members, to.requests;
      rooms, grants, messages := to.rooms, to.grants, to.messages;
    }

    method CreateGroupWithAccess(name: string, mode: AccessMode, g: Uuid, creator: Uuid, admin: string, invite: string)
      returns (r: Result<CreatedGroup, StoreError>)
      requires Valid()
      modifies this
      ensures Valid()
      ensures Step(State(), r) == CreateGroup(old(State()), name, mode, g, creator, admin, invite)
    {
      CreateGroupKeepsConstraints(State(), name, mode, g, creator, admin, invite);
      if GroupNameUsed(State(), name) {
        return Err(GroupNameTaken);
      }
      var adminHash := CredentialHash(admin);
      var inviteToken, inviteHash := None, None;
      if mode.InviteGroup? {
        inviteToken := Some(invite);
        inviteHash := CredentialHash(invite);
      }
      if adminHash.None? || (inviteToken.Some? && inviteHash.None?) {
        return Err(InvalidCredentialFormat);
      }
      var before := State();
      if g in groups {
        return Err(ConstraintFailed);
      }
      groups := groups[g := GroupRow(name, mode, adminHash, inviteHash)];
      var general := RoomKey(g, DEFAULT_ROOM_ID);
      var room := RoomRow(DEFAULT_ROOM_NAME, Public, 1);
      if !RoomInsertable(State(), general, room) {
        RollBack(before);
        return Err(ConstraintFailed);
      }
      rooms := rooms[general := room];
      var row := MemberRow(g, adminHash.value, Admin, ActiveMember, "administrator");
      if !MemberInsertable(State(), creator, row) {
        RollBack(before);
        return Err(ConstraintFailed);
      }
      members := members[creator := row];
      return Ok(CreatedGroup(admin, inviteToken, creator));
    }

    method InsertGroupMember(g: Uuid, m: Uuid, hash: Hash, role: GroupRole, nickname: string)
      returns (r: Result<Uuid, StoreError>)
      modifies this`members
      ensures Step(State(), r) == InsertMember(old(State()), g, m, hash, role, nickname)
    {
      var row := MemberRow(g, hash, role, ActiveMember, nickname);
      if !MemberInsertable(State(), m, row) {
        return Err(ConstraintFailed);
      }
      members := members[m := row];
      return Ok(m);
    }

    method Issue(g: Uuid, nickname: string, m: Uuid, token: string) returns (r: Result<JoinAuthorization, StoreError>)
      modifies this`members
      ensures Step(State(), r) == IssueMember(old(State()), g, nickname, m, token)
    {
      if |RowsOf(State(), g)| >= MAX_GROUP_MEMBERS {
        return Ok(MemberLimit);
      }
      var hash := CredentialHash(token);
      if hash.None? {
        return Err(InvalidCredentialFormat);
      }
      var inserted := InsertGroupMember(g, m, hash.value, Member, nickname);
      if inserted.Err? {
        return Err(inserted.error);
      }
      return Ok(Allowed(Member, inserted.value, Some(token)));
    }

    /** The approval branch: admit on an approved request and delete it, whatever the admission answered. */
    method AuthorizeByRequest(g: Uuid, credential: string, nickname: string, m: Uuid, token: string)
      returns (r: Result<JoinAuthorization, StoreError>)
      requires Valid()
      modifies this
      ensures Step(State(), r) == JoinByRequest(old(State()), g, credential, nickname, m, token)
    {
      var hash := HashOf(credential);
      if id :| id in requests && requests[id].group == g && requests[id].hash == hash {
        assert RequestHas(State(), id, g, hash);
        if requests[id].status.ApprovedRequest? {
          var issued := Issue(g, nickname, m, token);
          if issued.Err? {
            return issued;
          }
          requests := requests - {id};
          return issued;
        } else if requests[id].status.PendingRequest? {
          return Ok(Pending(id, credential));
        } else {
          return Ok(Rejected);
        }
      }
      return Ok(InvalidCredential);
    }

    method Authorize(g: Uuid, credential: Option<string>, nickname: string, m: Uuid, token: string)
      returns (r: Result<JoinAuthorization, StoreError>)
      requires Valid()
      modifies this
      ensures Valid()
      ensures Step(State(), r) == AuthorizeJoin(old(State()), g, credential, nickname, m, token)
    {
      AuthorizeJoinKeepsConstraints(State(), g, credential, nickname, m, token);
      if g !in groups {
        return Err(GroupNotFound);
      }
      if credential.Some? && !IsValidGroupCredential(credential.value) {
        return Err(InvalidCredentialFormat);
      }
      if credential.Some? {
        var hash := HashOf(credential.value);
        if id :| id in members && members[id].group == g && members[id].hash == hash {
          assert MemberHas(State(), id, g, hash);
          if members[id].status.BannedMember? {
            return Ok(Banned);
          }
          members := members[id := members[id].(nickname := nickname)];
          return Ok(Allowed(members[id].role, id, None));
        }
        if groups[g].adminHash == Some(hash) {
          var inserted := InsertGroupMember(g, m, hash, Admin, nickname);
          if inserted.Err? {
            return Err(inserted.error);
          }
          return Ok(Allowed(Admin, inserted.value, None));
        }
      }
      r := AuthorizeByMode(g, credential, nickname, m, token);
    }

    method AuthorizeByMode(g: Uuid, credential: Option<string>, nickname: string, m: Uuid, token: string)
      returns (r: Result<JoinAuthorization, StoreError>)
      requires Valid() && g in groups
      modifies this
      ensures Step(State(), r) == JoinByMode(old(State()), g, credential, nickname, m, token)
    {
      match groups[g].mode {
        case PublicGroup =>
          if credential.Some? {
            return Ok(InvalidCredential);
          }
          r := Issue(g, nickname, m, token);
        case InviteGroup =>
          if credential.None? {
            return Ok(InviteRequired);
          }
          if groups[g].inviteHash != Some(HashOf(credential.value)) {
            return Ok(InvalidCredential);
          }
          r := Issue(g, nickname, m, token);
        case ApprovalGroup =>
          if credential.None? {
            return Ok(ApprovalRequired);
          }
          r := AuthorizeByRequest(g, credential.value, nickname, m, token);
      }
    }

    method RequestToJoin(g: Uuid, nickname: string, id: Uuid, token: string) returns (r: Result<Uuid, StoreError>)
      requires Valid()
      modifies this`requests
      ensures Valid()
      ensures Step(State(), r) == CreateJoinRequest(old(State()), g, nickname, id, token)
    {
      RequestsKeepConstraints(State(), g, nickname, id, token);
      if g !in groups || !groups[g].mode.ApprovalGroup? {
        return Err(NotAnApprovalGroup);
      }
      if |RequestsOf(State(), g, PendingRequest)| >= MAX_PENDING_JOIN_REQUESTS {
        return Err(TooManyPending);
      }
      var hash := CredentialHash(token);
      if hash.None? {
        return Err(InvalidCredentialFormat);
      }
      var row := RequestRow(g, nickname, hash.value, PendingRequest);
      if !RequestInsertable(State(), id, row) {
        return Err(ConstraintFailed);
      }
      requests := requests[id := row];
      return Ok(id);
    }

    method Decide(g: Uuid, id: Uuid, approve: bool) returns (r: Result<bool, StoreError>)
      requires Valid()
      modifies this`requests
      ensures Valid()
      ensures Step(State(), r) == DecideJoinRequest(old(State()), g, id, approve)
    {
      DecisionKeepsConstraints(State(), g, id, approve);
      var changed := false;
      if id in requests && requests[id].group == g && requests[id].status == PendingRequest {
        requests := requests[id := requests[id].(status := if approve then ApprovedRequest else RejectedRequest)];
        changed := true;
      }
      return Ok(changed);
    }

    method Rename(g: Uuid, m: Uuid, nickname: string) returns (r: Result<(), StoreError>)
      requires Valid()
      modifies this`members
      ensures Valid()
      ensures Step(State(), r) == UpdateMemberNickname(old(State()), g, m, nickname)
    {
      NicknameKeepsConstraints(State(), g, m, nickname);
      if m !in members || members[m].group != g {
        return Err(MemberNotFound);
      }
      members := members[m := members[m].(nickname := nickname)];
      return Ok(());
    }

    method Ban(g: Uuid, m: Uuid, banned: bool) returns (r: Result<bool, StoreError>)
      requires Valid()
      modifies this`members
      ensures Valid()
      ensures Step(State(), r) == SetMemberBanned(old(State()), g, m, banned)
    {
      BanKeepsConstraints(State(), g, m, banned);
      var changed := false;
      if m in members && members[m].group == g && members[m].role != Admin {
        members := members[m := members[m].(status := if banned then BannedMember else ActiveMember)];
        changed := true;
      }
      return Ok(changed);
    }

    method Rotate(g: Uuid, actor: Uuid, kind: TokenKind, token: string) returns (r: Result<string, StoreError>)
      requires Valid()
      modifies this
      ensures Valid()
      ensures Step(State(), r) == RotateGroupToken(old(State()), g, actor, kind, token)
    {
      RotationKeepsConstraints(State(), g, actor, kind, token);
      var role := None;
      if actor in members && members[actor].group == g && members[actor].status == ActiveMember {
        role := Some(members[actor].role);
      }
      var permitted := role == Some(if kind.MemberToken? then Member else Admin);
      if !permitted {
        return Err(RotationNotPermitted);
      }
      var hash := CredentialHash(token);
      if hash.None? {
        return Err(InvalidCredentialFormat);
      }
      var before := State();
      match kind {
        case MemberToken =>
          if !HashUpdatable(State(), g, actor, hash.value) {
            return Err(ConstraintFailed);
          }
          members := members[actor := members[actor].(hash := hash.value)];
        case AdminToken =>
          if g in groups {
            groups := groups[g := groups[g].(adminHash := hash)];
          }
          if !HashUpdatable(State(), g, actor, hash.value) {
            RollBack(before);
            return Err(ConstraintFailed);
          }
          members := members[actor := members[actor].(hash := hash.value)];
        case InviteToken =>
          if g !in groups || !groups[g].mode.InviteGroup? {
            return Err(RotationNotPermitted);
          }
          groups := groups[g := groups[g].(inviteHash := hash)];
      }
      return Ok(token);
    }

    method AddRoom(g: Uuid, name: string, visibility: RoomVisibility, creator: Option<Uuid>, room: string)
      returns (r: Result<RoomSummary, StoreError>)
      requires Valid()
      modifies this`rooms, this`grants
      ensures Valid()
      ensures Step(State(), r) == CreateRoom(old(State()), g, name, visibility, creator, room)
    {
      CreateRoomKeepsConstraints(State(), g, name, visibility, creator, room);
      if RoomNameUsed(State(), g, name) {
        return Err(RoomNameTaken);
      }
      if visibility.Private? && creator.None? {
        return Err(OwnerRequired);
      }
      var before := rooms;
      var at := RoomKey(g, room);
      if !RoomInsertable(State(), at, RoomRow(name, visibility, 1)) {
        return Err(ConstraintFailed);
      }
      rooms := rooms[at := RoomRow(name, visibility, 1)];
      if creator.Some? && visibility.Private? {
        var grant := GrantKey(at, creator.value);
        if !GrantInsertable(State(), grant) {
          rooms := before;
          return Err(ConstraintFailed);
        }
        grants := grants[grant := Owner];
      }
      return Ok(RoomSummary(room, name, visibility));
    }

    method ShareRoom(g: Uuid, room: string, actor: Uuid, actorRole: GroupRole, target: Uuid, included: bool)
      returns (r: Result<bool, StoreError>)
      requires Valid()
      modifies this`grants
      ensures Valid()
      ensures Step(State(), r) == SetRoomMember(old(State()), g, room, actor, actorRole, target, included)
    {
      SetRoomMemberKeepsConstraints(State(), g, room, actor, actorRole, target, included);
      var at := RoomKey(g, room);
      if at !in rooms || rooms[at].visibility != Private {
        return Err(RoomNotPrivate);
      }
      var actorIsOwner := GrantKey(at, actor) in grants && grants[GrantKey(at, actor)] == Owner;
      if actorRole != Admin && !actorIsOwner {
        return Err(ManagerRequired);
      }
      var targetActive := target in members && members[target].group == g && members[target].status == ActiveMember
                          && members[target].role != Admin;
      if !targetActive {
        return Err(TargetNotActive);
      }
      var grant := GrantKey(at, target);
      var changed := false;
      if included {
        if grant !in grants {
          grants := grants[grant := Guest];
          changed := true;
        }
      } else if grant in grants && grants[grant] == Guest {
        grants := grants - {grant};
        changed := true;
      }
      return Ok(changed);
    }

    method Seal(at: RoomKey, id: Uuid, sequence: nat, sender: Peer, sentAtMs: nat, text: string, nonce: seq<Byte>)
      returns (row: MessageRow)
      ensures row == SealedRow(key, at, id, sequence, sender, sentAtMs, text, nonce)
    {
      var encrypted := EncryptBody(key, Store.At(at, id, sequence), nonce, text);
      row := MessageRow(at, sequence, sender.sessionId, sender.memberId, sender.nickname,
                        if sentAtMs <= I64_MAX then sentAtMs else I64_MAX, encrypted);
    }

    /** Count, seal, insert; a duplicate message id takes the count back. */
    method Append(g: Uuid, room: string, id: Uuid, sender: Peer, sentAtMs: nat, text: string, nonce: seq<Byte>)
      returns (r: Result<ChatRecord, StoreError>)
      modifies this`rooms, this`messages
      ensures Step(State(), r) == AppendMessage(key, old(State()), g, room, id, sender, sentAtMs, text, nonce)
      ensures old(Valid()) ==> Valid()
    {
      ghost var start := State();
      var before := rooms;
      var at := RoomKey(g, room);
      if at !in rooms {
        return Err(RoomNotFound);
      }
      if rooms[at].nextSequence >= I64_MAX {
        return Err(ConstraintFailed);
      }
      rooms := rooms[at := rooms[at].(nextSequence := rooms[at].nextSequence + 1)];
      var sequence := rooms[at].nextSequence - 1;
      var row := Seal(at, id, sequence, sender, sentAtMs, text, nonce);
      var insertable := MessageInsertable(State(), id, row);
      if !insertable {
        rooms := before;
        return Err(ConstraintFailed);
      }
      messages := messages[id := row];
      AppendWhenValid(start, g, room, id, sender, sentAtMs, text, nonce);
      return Ok(ChatRecord(sequence, id, sender, room, sentAtMs, text));
    }

    lemma AppendWhenValid(s: Tables, g: Uuid, room: string, id: Uuid, sender: Peer, sentAtMs: nat, text: string,
                          nonce: seq<Byte>)
      ensures Constraints(s) ==> Constraints(AppendMessage(key, s, g, room, id, sender, sentAtMs, text, nonce).tables)
    {
    }
  }
}
