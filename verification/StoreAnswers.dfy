/**
 What the gateway answers: every answer of `authorize_join` and the state of the store it stands for, what becomes of a
 request from asking to deciding, and who may replace which token.
 */
module StoreAnswers {
  import opened Wrappers
  import opened Protocol
  import opened Sanitizer
  import opened Store
  import opened StoreCredentials
  import opened StoreMembers
  import opened StoreAdmission

  // ---------- joining ----------

  predicate RowWith(s: Tables, x: Uuid, g: Uuid, h: Hash, status: MemberStatus) {
    MemberHas(s, x, g, h) && s.members[x].status == status
  }

  ghost predicate OnRow(s: Tables, g: Uuid, h: Hash, status: MemberStatus) {
    exists x: Uuid :: RowWith(s, x, g, h, status)
  }

  /** The token of a request of an approval group. */
  predicate Requested(s: Tables, g: Uuid, r: Uuid, h: Hash, status: RequestStatus) {
    g in s.groups && s.groups[g].mode.ApprovalGroup? && RequestHas(s, r, g, h) && s.requests[r].status == status
  }

  /** The hash admits to a new ordinary membership if there is room. */
  ghost predicate Entitles(s: Tables, g: Uuid, h: Hash)
    requires g in s.groups
  {
    || (s.groups[g].mode.InviteGroup? && s.groups[g].inviteHash == Some(h))
    || exists r: Uuid :: Requested(s, g, r, h, ApprovedRequest)
  }

  /** The hash means nothing to the group. */
  ghost predicate MeansNothing(s: Tables, g: Uuid, h: Hash)
    requires g in s.groups
  {
    && !OnRow(s, g, h, ActiveMember) && !OnRow(s, g, h, BannedMember) && s.groups[g].adminHash != Some(h)
    && !Entitles(s, g, h)
    && !(exists r: Uuid :: Requested(s, g, r, h, PendingRequest) || Requested(s, g, r, h, RejectedRequest))
  }

  /** Who comes without a credential is let in, told what is needed, or turned away for lack of room. */
  lemma AnswersWithoutACredential(s: Tables, seen: set<Hash>, g: Uuid, nickname: string, m: Uuid, drawn: string)
    requires CredentialsOk(s, seen) && g in s.groups && FreshMembership(s, seen, m, drawn)
    ensures AuthorizeJoin(s, g, None, nickname, m, drawn).result ==
            Ok(match s.groups[g].mode
               case PublicGroup => if HasRoom(s, g) then Allowed(Member, m, Some(drawn)) else MemberLimit
               case InviteGroup => InviteRequired
               case ApprovalGroup => ApprovalRequired)
    ensures !s.groups[g].mode.PublicGroup? ==> AuthorizeJoin(s, g, None, nickname, m, drawn).tables == s
  {
    FreshInserts(s, seen, g, m, drawn, nickname);
  }

  /** A token on a row, or the administrator's, is no request's and no invitation. */
  lemma RowsAreNoRequests(s: Tables, seen: set<Hash>, g: Uuid, h: Hash)
    requires CredentialsOk(s, seen) && g in s.groups
    requires MemberWith(s, g, h).Some? || s.groups[g].adminHash == Some(h)
    ensures !Entitles(s, g, h) && forall r: Uuid :: !RequestHas(s, r, g, h)
  {
    var found := MemberWith(s, g, h);
    var home := if found.Some? then HomeOfRow(s.members[found.value], found.value) else AdminOf(g);
    if found.Some? {
      RowHome(s, found.value);
    }
    assert HashAt(s, home) == Some(h);
    assert HashAt(s, InviteOf(g)) == Some(h) ==> InviteOf(g) == home;
    forall r: Uuid ensures !RequestHas(s, r, g, h) {
      assert HashAt(s, RequestOf(r)) != Some(h);
    }
  }

  /** A token on a row of the group: its holder comes back, or is banned. */
  lemma AnswerOnARow(s: Tables, seen: set<Hash>, g: Uuid, token: string, nickname: string, m: Uuid, drawn: string,
                     x: Uuid)
    requires CredentialsOk(s, seen) && g in s.groups && IsValidGroupCredential(token)
    requires MemberHas(s, x, g, HashOf(token))
    ensures AuthorizeJoin(s, g, Some(token), nickname, m, drawn).result ==
            Ok(if s.members[x].status.BannedMember? then Banned
               else Allowed(if s.groups[g].adminHash == Some(HashOf(token)) then Admin else Member, x, None))
  {
    RowDecides(s, seen, g, token, nickname, m, drawn, x);
    RowHome(s, x);
    if s.members[x].role.Member? {
      OtherHomesAreNoRows(s, seen, g, x, AdminOf(g));
    }
  }

  /** The administrator's token before there is an administrator row. */
  lemma AnswerToTheAdministrator(s: Tables, seen: set<Hash>, g: Uuid, token: string, nickname: string, m: Uuid,
                                 drawn: string)
    requires CredentialsOk(s, seen) && g in s.groups && FreshMembership(s, seen, m, drawn)
    requires IsValidGroupCredential(token) && MemberWith(s, g, HashOf(token)).None?
    requires s.groups[g].adminHash == Some(HashOf(token))
    ensures AuthorizeJoin(s, g, Some(token), nickname, m, drawn).result == Ok(Allowed(Admin, m, None))
  {
    assert MemberInsertable(s, m, MemberRow(g, HashOf(token), Admin, ActiveMember, nickname));
  }

  /** A token that entitles to a membership. */
  lemma AnswerToAnEntitled(s: Tables, seen: set<Hash>, g: Uuid, token: string, nickname: string, m: Uuid, drawn: string)
    requires CredentialsOk(s, seen) && g in s.groups && FreshMembership(s, seen, m, drawn)
    requires IsValidGroupCredential(token) && Entitles(s, g, HashOf(token))
    ensures AuthorizeJoin(s, g, Some(token), nickname, m, drawn).result ==
            Ok(if HasRoom(s, g) then Allowed(Member, m, Some(drawn)) else MemberLimit)
  {
    var h := HashOf(token);
    FreshInserts(s, seen, g, m, drawn, nickname);
    if MemberWith(s, g, h).Some? || s.groups[g].adminHash == Some(h) {
      RowsAreNoRequests(s, seen, g, h);
    }
    if r: Uuid :| Requested(s, g, r, h, ApprovedRequest) {
      assert SameToken(s.requests[RequestWith(s, g, h).value], s.requests[r]);
    }
  }

  /** A token of a request that is pending or was rejected. */
  lemma AnswerToARequest(s: Tables, seen: set<Hash>, g: Uuid, token: string, nickname: string, m: Uuid, drawn: string,
                         r: Uuid, status: RequestStatus)
    requires CredentialsOk(s, seen) && IsValidGroupCredential(token)
    requires Requested(s, g, r, HashOf(token), status) && !status.ApprovedRequest?
    ensures AuthorizeJoin(s, g, Some(token), nickname, m, drawn) ==
            Step(s, Ok(if status.PendingRequest? then Pending(r, token) else Rejected))
  {
    var h := HashOf(token);
    if MemberWith(s, g, h).Some? || s.groups[g].adminHash == Some(h) {
      RowsAreNoRequests(s, seen, g, h);
    }
    assert SameToken(s.requests[RequestWith(s, g, h).value], s.requests[r]);
  }

  lemma AnswerToNobody(s: Tables, seen: set<Hash>, g: Uuid, token: string, nickname: string, m: Uuid, drawn: string)
    requires CredentialsOk(s, seen) && g in s.groups && IsValidGroupCredential(token)
    requires MeansNothing(s, g, HashOf(token))
    ensures AuthorizeJoin(s, g, Some(token), nickname, m, drawn) == Step(s, Ok(InvalidCredential))
  {
    var h := HashOf(token);
    forall x: Uuid ensures !MemberHas(s, x, g, h) {
      assert !RowWith(s, x, g, h, ActiveMember) && !RowWith(s, x, g, h, BannedMember);
    }
    var request := RequestWith(s, g, h);
    if request.Some? && s.groups[g].mode.ApprovalGroup? {
      assert Requested(s, g, request.value, h, s.requests[request.value].status);
    }
  }

  /**
   Every answer to a join with a credential and what it means. Each is given exactly in its own case, the cases exclude
   each other, and there is no other.
   */
  lemma AnswersAreExact(s: Tables, seen: set<Hash>, g: Uuid, token: string, nickname: string, m: Uuid, drawn: string)
    requires CredentialsOk(s, seen) && g in s.groups && FreshMembership(s, seen, m, drawn)
    requires IsValidGroupCredential(token)
    ensures var h := HashOf(token);
            var result := AuthorizeJoin(s, g, Some(token), nickname, m, drawn).result;
            && (result == Ok(Banned) <==> OnRow(s, g, h, BannedMember))
            && (result == Ok(InvalidCredential) <==> MeansNothing(s, g, h))
            && (result == Ok(MemberLimit) <==> Entitles(s, g, h) && !HasRoom(s, g))
            && (forall r :: result == Ok(Pending(r, token)) <==> Requested(s, g, r, h, PendingRequest))
            && (result == Ok(Rejected) <==> exists r: Uuid :: Requested(s, g, r, h, RejectedRequest))
            && ((exists x, issued :: result == Ok(Allowed(Admin, x, issued))) <==> s.groups[g].adminHash == Some(h))
            && ((exists x, issued :: result == Ok(Allowed(Member, x, issued))) <==>
                  || (OnRow(s, g, h, ActiveMember) && s.groups[g].adminHash != Some(h))
                  || (Entitles(s, g, h) && HasRoom(s, g)))
  {
    var h := HashOf(token);
    var found := MemberWith(s, g, h);
    var request := RequestWith(s, g, h);
    CasesExclude(s, seen, g, h);
    if request.Some? && s.groups[g].mode.ApprovalGroup? {
      assert Requested(s, g, request.value, h, s.requests[request.value].status);
    }
    if found.Some? {
      AnswerOnARow(s, seen, g, token, nickname, m, drawn, found.value);
      assert RowWith(s, found.value, g, h, s.members[found.value].status);
    } else if s.groups[g].adminHash == Some(h) {
      AnswerToTheAdministrator(s, seen, g, token, nickname, m, drawn);
    } else if Entitles(s, g, h) {
      AnswerToAnEntitled(s, seen, g, token, nickname, m, drawn);
    } else if request.Some? && s.groups[g].mode.ApprovalGroup? {
      AnswerToARequest(s, seen, g, token, nickname, m, drawn, request.value, s.requests[request.value].status);
    } else {
      AnswerToNobody(s, seen, g, token, nickname, m, drawn);
    }
  }

  /** No two cases meet. */
  lemma CasesExclude(s: Tables, seen: set<Hash>, g: Uuid, h: Hash)
    requires CredentialsOk(s, seen) && g in s.groups
    ensures !(OnRow(s, g, h, ActiveMember) && OnRow(s, g, h, BannedMember))
    ensures OnRow(s, g, h, BannedMember) ==> s.groups[g].adminHash != Some(h)
    ensures OnRow(s, g, h, ActiveMember) || OnRow(s, g, h, BannedMember) || s.groups[g].adminHash == Some(h) ==>
              !Entitles(s, g, h) && forall r: Uuid :: !RequestHas(s, r, g, h)
    ensures forall r: Uuid, o: Uuid :: RequestHas(s, r, g, h) && RequestHas(s, o, g, h) ==> r == o
    ensures s.groups[g].inviteHash == Some(h) ==> forall r: Uuid :: !RequestHas(s, r, g, h)
  {
    var found := MemberWith(s, g, h);
    forall x: Uuid, y: Uuid | MemberHas(s, x, g, h) && MemberHas(s, y, g, h) ensures x == y {
      assert SameKey(s.members[x], s.members[y]);
    }
    forall r: Uuid, o: Uuid | RequestHas(s, r, g, h) && RequestHas(s, o, g, h) ensures r == o {
      assert SameToken(s.requests[r], s.requests[o]);
    }
    if found.Some? || s.groups[g].adminHash == Some(h) {
      RowsAreNoRequests(s, seen, g, h);
    }
    if found.Some? && s.members[found.value].status.BannedMember? {
      OtherHomesAreNoRows(s, seen, g, found.value, AdminOf(g));
    }
    forall r: Uuid | s.groups[g].inviteHash == Some(h) ensures !RequestHas(s, r, g, h) {
      assert HashAt(s, InviteOf(g)) == Some(h) != HashAt(s, RequestOf(r));
    }
  }

  // ---------- what an answer leaves behind ----------

  /** The member let in has a row under the name it came with, in the role it was told, and no other row moved. */
  predicate RowLeft(s: Tables, step: Step<JoinAuthorization>, g: Uuid, nickname: string) {
    step.result.Ok? && step.result.value.Allowed? ==>
      var answer := step.result.value;
      var members := step.tables.members;
      && answer.memberId in members
      && members == s.members[answer.memberId := members[answer.memberId]]
      && var row := members[answer.memberId];
         && row.nickname == nickname && row.role == answer.role && row.group == g && row.status.ActiveMember?
         && (answer.issuedMemberToken.Some? ==> row.hash == HashOf(answer.issuedMemberToken.value))
  }

  lemma IssueLeavesARow(s: Tables, g: Uuid, nickname: string, m: Uuid, drawn: string)
    ensures RowLeft(s, IssueMember(s, g, nickname, m, drawn), g, nickname)
  {
  }

  lemma RequestLeavesARow(s: Tables, g: Uuid, credential: string, nickname: string, m: Uuid, drawn: string)
    ensures RowLeft(s, JoinByRequest(s, g, credential, nickname, m, drawn), g, nickname)
  {
    IssueLeavesARow(s, g, nickname, m, drawn);
  }

  lemma ModeLeavesARow(s: Tables, g: Uuid, credential: Option<string>, nickname: string, m: Uuid, drawn: string)
    requires g in s.groups
    ensures RowLeft(s, JoinByMode(s, g, credential, nickname, m, drawn), g, nickname)
  {
    IssueLeavesARow(s, g, nickname, m, drawn);
    if credential.Some? {
      RequestLeavesARow(s, g, credential.value, nickname, m, drawn);
    }
  }

  /** Whoever is let in, new or coming back, has its row. */
  lemma AllowedMemberHasItsRow(s: Tables, g: Uuid, credential: Option<string>, nickname: string, m: Uuid, drawn: string)
    ensures RowLeft(s, AuthorizeJoin(s, g, credential, nickname, m, drawn), g, nickname)
  {
    if g in s.groups {
      ModeLeavesARow(s, g, credential, nickname, m, drawn);
    }
  }

  /** The token issued with a membership lets its holder come back as the same member. */
  lemma IssuedTokenComesBack(s: Tables, seen: set<Hash>, op: Op, nickname: string, o: Uuid, drawn: string)
    requires op.OpAuthorizeJoin? && CredentialsOk(s, seen) && FreshOp(op, seen)
    requires var result := AuthorizeJoin(s, op.group, op.credential, op.nickname, op.member, op.token).result;
             result.Ok? && result.value.Allowed? && result.value.issuedMemberToken.Some?
             && IsValidGroupCredential(result.value.issuedMemberToken.value)
    ensures var answer := AuthorizeJoin(s, op.group, op.credential, op.nickname, op.member, op.token).result.value;
            AuthorizeJoin(Perform(s, op), op.group, answer.issuedMemberToken, nickname, o, drawn).result ==
            Ok(Allowed(answer.role, answer.memberId, None))
  {
    var answer := AuthorizeJoin(s, op.group, op.credential, op.nickname, op.member, op.token).result.value;
    AllowedMemberHasItsRow(s, op.group, op.credential, op.nickname, op.member, op.token);
    CredentialsStep(s, seen, op);
    RowDecides(Perform(s, op), seen + Drawn(op), op.group, answer.issuedMemberToken.value, nickname, o, drawn,
               answer.memberId);
  }

  /** A rename is what is read back, on that row alone, and it fails only for a member the group does not have. */
  lemma RenameReadsBack(s: Tables, g: Uuid, m: Uuid, nickname: string)
    ensures var step := UpdateMemberNickname(s, g, m, nickname);
            && (step.result.Ok? <==> m in s.members && s.members[m].group == g)
            && (step.result.Ok? ==> m in step.tables.members && step.tables.members[m].nickname == nickname)
            && (step.result.Err? ==> step == Fail(s, MemberNotFound))
            && forall o :: o != m ==>
                 (o in step.tables.members <==> o in s.members)
                 && (o in s.members ==> step.tables.members[o] == s.members[o])
  {
  }

  /** A ban or an unban is answered true exactly for an ordinary member of the group, and is then what its row says. */
  lemma BanReadsBack(s: Tables, g: Uuid, m: Uuid, banned: bool)
    ensures var step := SetMemberBanned(s, g, m, banned);
            && step.result == Ok(m in s.members && s.members[m].group == g && s.members[m].role.Member?)
            && (step.result == Ok(true) ==> m in step.tables.members && (IsBanned(step.tables, m) <==> banned))
            && (step.result == Ok(false) ==> step.tables == s)
  {
  }

  // ---------- requests ----------

  /**
   With a fresh id and token, asking to join works exactly in an approval group with fewer than 256 pending requests.
   */
  lemma AskingWorks(s: Tables, seen: set<Hash>, op: Op)
    requires op.OpCreateJoinRequest? && CredentialsOk(s, seen) && FreshOp(op, seen)
    requires op.request !in s.requests && IsValidGroupCredential(op.token)
    ensures CreateJoinRequest(s, op.group, op.nickname, op.request, op.token).result ==
            if op.group !in s.groups || !s.groups[op.group].mode.ApprovalGroup? then Err(NotAnApprovalGroup)
            else if |RequestsOf(s, op.group, PendingRequest)| >= 256 then Err(TooManyPending)
            else Ok(op.request)
  {
    forall o | o in s.requests ensures !RequestHas(s, o, op.group, HashOf(op.token)) {
      assert HashAt(s, RequestOf(o)) == Some(s.requests[o].hash);
    }
  }

  /** A new request bears the name it was made with, and its token is answered Pending. */
  lemma NewRequestIsPending(s: Tables, seen: set<Hash>, op: Op, nickname: string, m: Uuid, drawn: string)
    requires op.OpCreateJoinRequest? && CredentialsOk(s, seen) && FreshOp(op, seen)
    requires CreateJoinRequest(s, op.group, op.nickname, op.request, op.token).result.Ok?
    ensures var s' := Perform(s, op);
            && CreateJoinRequest(s, op.group, op.nickname, op.request, op.token).result == Ok(op.request)
            && op.request in s'.requests && s'.requests[op.request].nickname == op.nickname
            && AuthorizeJoin(s', op.group, Some(op.token), nickname, m, drawn) ==
               Step(s', Ok(Pending(op.request, op.token)))
  {
    CredentialsStep(s, seen, op);
    AnswerToARequest(Perform(s, op), seen + Drawn(op), op.group, op.token, nickname, m, drawn, op.request,
                     PendingRequest);
  }

  /**
   A decision is answered true exactly for a pending request of the group. Then its token is answered Rejected, or lets
   its holder in as a new member while there is room.
   */
  lemma DecisionIsAnswered(s: Tables, seen: set<Hash>, op: Op, token: string, nickname: string, m: Uuid, drawn: string)
    requires op.OpDecideJoinRequest? && CredentialsOk(s, seen) && IsValidGroupCredential(token)
    requires Requested(s, op.group, op.request, HashOf(token), PendingRequest)
    requires FreshMembership(s, seen, m, drawn)
    ensures DecideJoinRequest(s, op.group, op.request, op.approve).result == Ok(true)
    ensures AuthorizeJoin(Perform(s, op), op.group, Some(token), nickname, m, drawn).result ==
            Ok(if !op.approve then Rejected
               else if HasRoom(s, op.group) then Allowed(Member, m, Some(drawn))
               else MemberLimit)
  {
    var s' := DecideJoinRequest(s, op.group, op.request, op.approve).tables;
    CredentialsStep(s, seen, op);
    assert seen + Drawn(op) == seen;
    assert RowsOf(s', op.group) == RowsOf(s, op.group);
    if op.approve {
      assert Requested(s', op.group, op.request, HashOf(token), ApprovedRequest);
      AnswerToAnEntitled(s', seen, op.group, token, nickname, m, drawn);
    } else {
      AnswerToARequest(s', seen, op.group, token, nickname, m, drawn, op.request, RejectedRequest);
    }
  }

  lemma OnlyPendingRequestsAreDecided(s: Tables, g: Uuid, r: Uuid, approve: bool)
    ensures var step := DecideJoinRequest(s, g, r, approve);
            && step.result == Ok(r in RequestsOf(s, g, PendingRequest))
            && (step.result == Ok(false) ==> step.tables == s)
  {
  }

  // ---------- groups ----------

  /** With fresh ids and tokens a group is made exactly when no group has its name in any case of letters. */
  lemma CreatingWorks(s: Tables, op: Op)
    requires op.OpCreateGroup? && Constraints(s) && op.group !in s.groups && op.creator !in s.members
    requires IsValidGroupCredential(op.admin) && IsValidGroupCredential(op.invite)
    ensures CreateGroup(s, op.name, op.mode, op.group, op.creator, op.admin, op.invite).result ==
            if exists g :: g in s.groups && SameName(s.groups[g].name, op.name) then Err(GroupNameTaken)
            else Ok(CreatedGroup(op.admin, if op.mode.InviteGroup? then Some(op.invite) else None, op.creator))
  {
  }

  /** The tokens handed out with a new group work: the administrator's for its creator, the invitation for anybody. */
  lemma TokensOfANewGroupWork(s: Tables, seen: set<Hash>, op: Op, nickname: string, m: Uuid, drawn: string)
    requires op.OpCreateGroup? && CredentialsOk(s, seen) && FreshOp(op, seen)
    requires CreateGroup(s, op.name, op.mode, op.group, op.creator, op.admin, op.invite).result.Ok?
    requires FreshMembership(Perform(s, op), seen + Drawn(op), m, drawn)
    ensures var s' := Perform(s, op);
            var made := CreateGroup(s, op.name, op.mode, op.group, op.creator, op.admin, op.invite).result.value;
            && op.group in s'.groups && s'.groups[op.group].name == op.name && s'.groups[op.group].mode == op.mode
            && AuthorizeJoin(s', op.group, Some(made.adminToken), nickname, m, drawn).result ==
               Ok(Allowed(Admin, made.creator, None))
            && (op.mode.InviteGroup? <==> made.inviteToken.Some?)
            && (op.mode.InviteGroup? ==>
                  AuthorizeJoin(s', op.group, made.inviteToken, nickname, m, drawn).result ==
                  Ok(Allowed(Member, m, Some(drawn))))
  {
    var s' := Perform(s, op);
    CreationChange(s, op);
    CredentialsStep(s, seen, op);
    AnswerOnARow(s', seen + Drawn(op), op.group, op.admin, nickname, m, drawn, op.creator);
    if op.mode.InviteGroup? {
      NewRow(s, s', op.creator, s'.members[op.creator], op.group);
      assert RowsOf(s, op.group) == {};
      AnswerToAnEntitled(s', seen + Drawn(op), op.group, op.invite, nickname, m, drawn);
    }
  }
}
