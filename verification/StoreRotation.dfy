/** Replacing tokens: who may replace which, that it then happens, and that nothing else replaces one. */
module StoreRotation {
  import opened Wrappers
  import opened Protocol
  import opened Sanitizer
  import opened Store
  import opened StoreCredentials
  import opened StoreAdmission
  import opened StoreAnswers

  /**
   An active ordinary member may replace its own token, an active administrator the administrator token, and the
   invitation if the group works by invitation.
   */
  predicate MayRotate(s: Tables, op: Op)
    requires op.OpRotateGroupToken?
  {
    match op.kind
    case MemberToken => ActiveAs(s, op.group, op.actor, Member)
    case AdminToken => ActiveAs(s, op.group, op.actor, Admin)
    case InviteToken =>
      ActiveAs(s, op.group, op.actor, Admin) && op.group in s.groups && s.groups[op.group].mode.InviteGroup?
  }

  lemma FreshHashIsOnNoRow(s: Tables, seen: set<Hash>, g: Uuid, h: Hash)
    requires CredentialsOk(s, seen) && h !in seen
    ensures forall o :: o in s.members ==> !MemberHas(s, o, g, h)
  {
    forall o | o in s.members ensures !MemberHas(s, o, g, h) {
      RowHome(s, o);
    }
  }

  /** With a fresh token a rotation works exactly for those who may, and answers the new token. */
  lemma RotatingWorks(s: Tables, seen: set<Hash>, op: Op)
    requires op.OpRotateGroupToken? && CredentialsOk(s, seen) && FreshOp(op, seen) && IsValidGroupCredential(op.token)
    ensures RotateGroupToken(s, op.group, op.actor, op.kind, op.token).result ==
            if MayRotate(s, op) then Ok(op.token) else Err(RotationNotPermitted)
  {
    FreshHashIsOnNoRow(s, seen, op.group, HashOf(op.token));
  }

  lemma ActiveRowIsAnswered(s: Tables, seen: set<Hash>, g: Uuid, token: string, nickname: string, m: Uuid,
                            drawn: string, x: Uuid)
    requires CredentialsOk(s, seen) && g in s.groups && IsValidGroupCredential(token)
    requires RowWith(s, x, g, HashOf(token), ActiveMember)
    ensures AuthorizeJoin(s, g, Some(token), nickname, m, drawn).result == Ok(Allowed(s.members[x].role, x, None))
  {
    RowDecides(s, seen, g, token, nickname, m, drawn, x);
  }

  lemma RotatedRow(s: Tables, op: Op)
    requires op.OpRotateGroupToken? && !op.kind.InviteToken? && Constraints(s)
    requires RotateGroupToken(s, op.group, op.actor, op.kind, op.token).result.Ok?
    ensures RowWith(Perform(s, op), op.actor, op.group, HashOf(op.token), ActiveMember)
    ensures Perform(s, op).members[op.actor].role == if op.kind.AdminToken? then Admin else Member
    ensures op.group in Perform(s, op).groups
  {
    RotationChange(s, op);
  }

  lemma RotatedInvitation(s: Tables, op: Op)
    requires op.OpRotateGroupToken? && op.kind.InviteToken?
    requires RotateGroupToken(s, op.group, op.actor, op.kind, op.token).result.Ok?
    ensures op.group in Perform(s, op).groups && Entitles(Perform(s, op), op.group, HashOf(op.token))
    ensures RowsOf(Perform(s, op), op.group) == RowsOf(s, op.group)
  {
    RotationChange(s, op);
  }

  /** The token answered lets in: the same member, the administrator, or anybody while there is room. */
  lemma RotatedTokenWorks(s: Tables, seen: set<Hash>, op: Op, nickname: string, m: Uuid, drawn: string)
    requires op.OpRotateGroupToken? && CredentialsOk(s, seen) && FreshOp(op, seen) && IsValidGroupCredential(op.token)
    requires MayRotate(s, op) && FreshMembership(Perform(s, op), seen + Drawn(op), m, drawn)
    ensures AuthorizeJoin(Perform(s, op), op.group, Some(op.token), nickname, m, drawn).result ==
            Ok(match op.kind
               case MemberToken => Allowed(Member, op.actor, None)
               case AdminToken => Allowed(Admin, op.actor, None)
               case InviteToken => if HasRoom(s, op.group) then Allowed(Member, m, Some(drawn)) else MemberLimit)
  {
    RotatingWorks(s, seen, op);
    CredentialsStep(s, seen, op);
    if op.kind.InviteToken? {
      RotatedInvitation(s, op);
      AnswerToAnEntitled(Perform(s, op), seen + Drawn(op), op.group, op.token, nickname, m, drawn);
    } else {
      RotatedRow(s, op);
      ActiveRowIsAnswered(Perform(s, op), seen + Drawn(op), op.group, op.token, nickname, m, drawn, op.actor);
    }
  }

  // ---------- nothing else replaces a token ----------

  /** The homes that stay: an existing group's two tokens and an ordinary member's. */
  predicate Lasting(s: Tables, home: Home) {
    match home
    case AdminOf(g) => g in s.groups
    case InviteOf(g) => g in s.groups
    case MemberOf(m) => m in s.members && s.members[m].role.Member?
    case RequestOf(_) => false
  }

  lemma JoinReplacesNoToken(s: Tables, op: Op, home: Home)
    requires op.OpAuthorizeJoin? && Lasting(s, home)
    ensures HashAt(Perform(s, op), home) == HashAt(s, home)
  {
    var change := JoinEffect(s, op.group, op.credential, op.nickname, op.member, op.token);
  }

  lemma CreationReplacesNoToken(s: Tables, op: Op, home: Home)
    requires op.OpCreateGroup? && Lasting(s, home)
    ensures HashAt(Perform(s, op), home) == HashAt(s, home)
  {
    CreationChange(s, op);
  }

  lemma UntouchedReplacesNoToken(s: Tables, s': Tables, home: Home)
    requires CredentialsUntouched(s, s') && Lasting(s, home)
    ensures HashAt(s', home) == HashAt(s, home)
  {
  }

  lemma OnlyRotationReplaces(s: Tables, op: Op, home: Home)
    requires !op.OpRotateGroupToken? && Lasting(s, home)
    ensures HashAt(Perform(s, op), home) == HashAt(s, home)
  {
    match op
    case OpCreateGroup(_, _, _, _, _, _) => CreationReplacesNoToken(s, op, home);
    case OpAuthorizeJoin(_, _, _, _, _) => JoinReplacesNoToken(s, op, home);
    case OpDecideJoinRequest(g, r, approve) =>
      DecisionTouchesNoCredential(s, g, r, approve);
      UntouchedReplacesNoToken(s, Perform(s, op), home);
    case OpUpdateMemberNickname(g, m, nickname) =>
      NicknameTouchesNoCredential(s, g, m, nickname);
      UntouchedReplacesNoToken(s, Perform(s, op), home);
    case OpSetMemberBanned(g, m, banned) =>
      BanTouchesNoCredential(s, g, m, banned);
      UntouchedReplacesNoToken(s, Perform(s, op), home);
    case OpCreateJoinRequest(g, nickname, r, token) => RequestHomes(s, g, nickname, r, token);
    case _ => RoomOpsTouchNoCredential(s, op);
  }

  /**
   A group's administrator token, its invitation and an ordinary member's token are replaced by exactly one thing: a
   rotation of that token by one who may.
   */
  lemma OnlyThePermittedReplaceTokens(s: Tables, seen: set<Hash>, op: Op, home: Home)
    requires CredentialsOk(s, seen) && FreshOp(op, seen) && Lasting(s, home)
    ensures HashAt(Perform(s, op), home) != HashAt(s, home) <==>
            op.OpRotateGroupToken? && RotatedHome(op) == home && MayRotate(s, op) && IsValidGroupCredential(op.token)
  {
    if op.OpRotateGroupToken? {
      RotationRenewsItsHome(s, op);
      if IsValidGroupCredential(op.token) {
        RotatingWorks(s, seen, op);
      }
      assert HashAt(s, home) != Some(HashOf(op.token));
    } else {
      OnlyRotationReplaces(s, op, home);
    }
  }
}
