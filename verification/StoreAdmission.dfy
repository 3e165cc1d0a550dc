/**
 Who gets in: `authorize_join` admits exactly the holders of a live credential of that group, and answers the rest.
 */
module StoreAdmission {
  import opened Wrappers
  import opened Protocol
  import opened Sanitizer
  import opened Store
  import opened StoreCredentials
  import opened StoreMembers

  predicate HasRoom(s: Tables, g: Uuid) {
    |RowsOf(s, g)| < MAX_GROUP_MEMBERS
  }

  /** An active row of the group has this hash. */
  ghost predicate ActiveRowWith(s: Tables, g: Uuid, h: Hash) {
    exists x: Uuid :: MemberHas(s, x, g, h) && s.members[x].status.ActiveMember?
  }

  ghost predicate ApprovedRequestWith(s: Tables, g: Uuid, h: Hash) {
    exists r: Uuid :: RequestHas(s, r, g, h) && s.requests[r].status.ApprovedRequest?
  }

  /** The credential is one the group lets in at this moment. */
  ghost predicate Admits(s: Tables, g: Uuid, credential: Option<string>)
    requires g in s.groups
  {
    match credential
    case None => s.groups[g].mode.PublicGroup? && HasRoom(s, g)
    case Some(token) =>
      var h := HashOf(token);
      || ActiveRowWith(s, g, h)
      || s.groups[g].adminHash == Some(h)
      || (HasRoom(s, g) && s.groups[g].mode.InviteGroup? && s.groups[g].inviteHash == Some(h))
      || (HasRoom(s, g) && s.groups[g].mode.ApprovalGroup? && ApprovedRequestWith(s, g, h))
  }

  /** The random id and token of a new membership collide with nothing. */
  ghost predicate FreshMembership(s: Tables, seen: set<Hash>, m: Uuid, drawn: string) {
    m !in s.members && IsValidGroupCredential(drawn) && HashOf(drawn) !in seen
  }

  lemma FreshInserts(s: Tables, seen: set<Hash>, g: Uuid, m: Uuid, drawn: string, nickname: string)
    requires CredentialsOk(s, seen) && g in s.groups && FreshMembership(s, seen, m, drawn)
    ensures MemberInsertable(s, m, MemberRow(g, HashOf(drawn), Member, ActiveMember, nickname))
    ensures var issued := IssueMember(s, g, nickname, m, drawn).result;
            issued == Ok(if HasRoom(s, g) then Allowed(Member, m, Some(drawn)) else MemberLimit)
  {
    forall o | o in s.members ensures !MemberHas(s, o, g, HashOf(drawn)) {
      RowHome(s, o);
    }
  }

  /** A hash that is a group's administrator hash is on no banned row, and neither is an invite or a request hash. */
  lemma OtherHomesAreNoRows(s: Tables, seen: set<Hash>, g: Uuid, x: Uuid, home: Home)
    requires CredentialsOk(s, seen) && x in s.members && home != HomeOfRow(s.members[x], x)
    ensures HashAt(s, home) != Some(s.members[x].hash)
  {
    RowHome(s, x);
  }

  /** A token on a row is answered by that row alone. */
  lemma RowDecides(s: Tables, seen: set<Hash>, g: Uuid, token: string, nickname: string, m: Uuid, drawn: string,
                   x: Uuid)
    requires CredentialsOk(s, seen) && g in s.groups && IsValidGroupCredential(token)
    requires MemberHas(s, x, g, HashOf(token))
    ensures AuthorizeJoin(s, g, Some(token), nickname, m, drawn).result ==
            Ok(if s.members[x].status.ActiveMember? then Allowed(s.members[x].role, x, None) else Banned)
    ensures Admits(s, g, Some(token)) <==> s.members[x].status.ActiveMember?
  {
    var h := HashOf(token);
    var found := MemberWith(s, g, h).value;
    assert SameKey(s.members[found], s.members[x]);
    assert ActiveRowWith(s, g, h) ==> s.members[x].status.ActiveMember? by {
      if o: Uuid :| MemberHas(s, o, g, h) && s.members[o].status.ActiveMember? {
        assert SameKey(s.members[o], s.members[x]);
      }
    }
    if s.members[x].status.BannedMember? {
      OtherHomesAreNoRows(s, seen, g, x, AdminOf(g));
      OtherHomesAreNoRows(s, seen, g, x, InviteOf(g));
      if r: Uuid :| RequestHas(s, r, g, h) && s.requests[r].status.ApprovedRequest? {
        OtherHomesAreNoRows(s, seen, g, x, RequestOf(r));
      }
    }
  }

  /** A token on no row and not the administrator's is for the access mode to judge. */
  lemma ModeDecides(s: Tables, seen: set<Hash>, g: Uuid, credential: Option<string>, nickname: string, m: Uuid,
                    drawn: string)
    requires CredentialsOk(s, seen) && g in s.groups && FreshMembership(s, seen, m, drawn)
    requires credential.Some? ==>
               MemberWith(s, g, HashOf(credential.value)).None?
                 && s.groups[g].adminHash != Some(HashOf(credential.value))
    ensures var answer := JoinByMode(s, g, credential, nickname, m, drawn).result;
            answer.Ok? && (answer.value.Allowed? <==> Admits(s, g, credential))
  {
    FreshInserts(s, seen, g, m, drawn, nickname);
    if credential.Some? {
      var h := HashOf(credential.value);
      var found := RequestWith(s, g, h);
      if found.Some? {
        if r: Uuid :| RequestHas(s, r, g, h) && s.requests[r].status.ApprovedRequest? {
          assert SameToken(s.requests[r], s.requests[found.value]);
        }
      }
    }
  }

  /**
   `authorize_join` admits exactly those who come without a credential to a public group with room, or bring the token
   of an active row, the administrator token, the invite token of an invite group with room, or the token of an
   approved request to an approval group with room. With fresh ids it never fails.
   */
  lemma AllowedExactlyForLiveCredentials(s: Tables, seen: set<Hash>, g: Uuid, credential: Option<string>,
                                         nickname: string,
                                         m: Uuid, drawn: string)
    requires CredentialsOk(s, seen) && g in s.groups && FreshMembership(s, seen, m, drawn)
    requires credential.Some? ==> IsValidGroupCredential(credential.value)
    ensures var answer := AuthorizeJoin(s, g, credential, nickname, m, drawn).result;
            answer.Ok? && (answer.value.Allowed? <==> Admits(s, g, credential))
  {
    if credential.Some? {
      var h := HashOf(credential.value);
      var found := MemberWith(s, g, h);
      if found.Some? {
        RowDecides(s, seen, g, credential.value, nickname, m, drawn, found.value);
      } else if s.groups[g].adminHash != Some(h) {
        ModeDecides(s, seen, g, credential, nickname, m, drawn);
      } else {
        assert MemberInsertable(s, m, MemberRow(g, h, Admin, ActiveMember, nickname));
      }
    } else {
      ModeDecides(s, seen, g, credential, nickname, m, drawn);
    }
  }

  /** A ban of an ordinary member refuses its token from then on, whatever else happens, until it is unbanned. */
  lemma BanRefusesForGood(s: Tables, seen: set<Hash>, g: Uuid, m: Uuid, ops: seq<Op>, token: string, nickname: string,
                          o: Uuid, drawn: string)
    requires CredentialsOk(s, seen) && FreshRun(seen, ops)
    requires MemberHas(s, m, g, HashOf(token)) && s.members[m].role.Member? && IsValidGroupCredential(token)
    requires forall i :: 0 <= i < |ops| ==>
               !(ops[i].OpSetMemberBanned? && !ops[i].banned && ops[i].member == m && ops[i].group == g)
    ensures SetMemberBanned(s, g, m, true).result == Ok(true)
    ensures var later := PerformAll(SetMemberBanned(s, g, m, true).tables, ops);
            AuthorizeJoin(later, g, Some(token), nickname, o, drawn) == Step(later, Ok(Banned))
  {
    var op := OpSetMemberBanned(g, m, true);
    var s' := SetMemberBanned(s, g, m, true).tables;
    assert s' == Perform(s, op);
    CredentialsStep(s, seen, op);
    assert seen + Drawn(op) == seen;
    BannedTokenIsAlwaysRefused(s', seen, ops, m, token, nickname, o, drawn);
  }
}
