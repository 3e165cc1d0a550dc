/**
 Credentials over whole runs of the store: every live credential hash has a single home, the administrator row of a
 group stays in step with the group, and a token that was replaced or spent never admits anybody again.
 */
module StoreCredentials {
  import opened Wrappers
  import opened Protocol
  import opened Sanitizer
  import opened Store

  /** Where a credential hash can live. An administrator's row repeats its group's hash and is no home of its own. */
  datatype Home = AdminOf(group: Uuid) | InviteOf(group: Uuid) | MemberOf(member: Uuid) | RequestOf(request: Uuid)

  function HashAt(s: Tables, home: Home): Option<Hash> {
    match home
    case AdminOf(g) => if g in s.groups then s.groups[g].adminHash else None
    case InviteOf(g) => if g in s.groups then s.groups[g].inviteHash else None
    case MemberOf(m) => if m in s.members && s.members[m].role.Member? then Some(s.members[m].hash) else None
    case RequestOf(r) => if r in s.requests then Some(s.requests[r].hash) else None
  }

  /** The group a home belongs to. */
  function GroupOf(s: Tables, home: Home): Option<Uuid> {
    match home
    case AdminOf(g) => Some(g)
    case InviteOf(g) => Some(g)
    case MemberOf(m) => if m in s.members then Some(s.members[m].group) else None
    case RequestOf(r) => if r in s.requests then Some(s.requests[r].group) else None
  }

  /** No hash is live in two places: two groups, two members, or two purposes. */
  ghost predicate SingleHome(s: Tables) {
    forall a, b :: HashAt(s, a).Some? && HashAt(s, a) == HashAt(s, b) ==> a == b
  }

  /** An administrator row is active and carries its group's administrator hash. */
  predicate AdminRowsMatch(s: Tables) {
    forall m :: m in s.members && s.members[m].role.Admin? ==>
      && s.members[m].status.ActiveMember?
      && s.members[m].group in s.groups
      && s.groups[s.members[m].group].adminHash == Some(s.members[m].hash)
  }

  /** `seen` holds every hash that was ever live. */
  ghost predicate AllSeen(s: Tables, seen: set<Hash>) {
    forall a :: HashAt(s, a).Some? ==> HashAt(s, a).value in seen
  }

  ghost predicate CredentialsOk(s: Tables, seen: set<Hash>) {
    Constraints(s) && SingleHome(s) && AdminRowsMatch(s) && AllSeen(s, seen)
  }

  // ---------- runs with fresh tokens ----------

  /** The tokens an operation draws at random. */
  function Drawn(op: Op): set<Hash> {
    match op
    case OpCreateGroup(_, mode, _, _, admin, invite) =>
      if mode.InviteGroup? then {HashOf(admin), HashOf(invite)} else {HashOf(admin)}
    case OpAuthorizeJoin(_, _, _, _, token) => {HashOf(token)}
    case OpCreateJoinRequest(_, _, _, token) => {HashOf(token)}
    case OpRotateGroupToken(_, _, _, token) => {HashOf(token)}
    case _ => {}
  }

  /**
   Random tokens repeat neither each other nor any token seen before. Credentials supplied by clients are arbitrary.
   */
  predicate FreshOp(op: Op, seen: set<Hash>) {
    && Drawn(op) !! seen
    && (op.OpCreateGroup? && op.mode.InviteGroup? ==> op.admin != op.invite)
  }

  function SeenAfter(seen: set<Hash>, ops: seq<Op>): set<Hash> {
    if ops == [] then seen else SeenAfter(seen, ops[..|ops| - 1]) + Drawn(ops[|ops| - 1])
  }

  predicate FreshRun(seen: set<Hash>, ops: seq<Op>) {
    ops != [] ==> FreshRun(seen, ops[..|ops| - 1]) && FreshOp(ops[|ops| - 1], SeenAfter(seen, ops[..|ops| - 1]))
  }

  /** A hash that was live once and is so no more. */
  ghost predicate Retired(s: Tables, seen: set<Hash>, h: Hash) {
    h in seen && forall a :: HashAt(s, a) != Some(h)
  }

  // ---------- one step ----------

  /** Homes keep their hash, lose it, or take one just drawn, each drawn hash in one place. */
  ghost predicate HomesMove(s: Tables, s': Tables, drawn: set<Hash>) {
    && (forall a :: HashAt(s', a).Some? ==> HashAt(s', a) == HashAt(s, a) || HashAt(s', a).value in drawn)
    && (forall a, b :: HashAt(s', a).Some? && HashAt(s', a) == HashAt(s', b) && HashAt(s', a).value in drawn ==> a == b)
  }

  lemma HomesStaySingle(s: Tables, s': Tables, seen: set<Hash>, drawn: set<Hash>)
    requires SingleHome(s) && AllSeen(s, seen) && drawn !! seen && HomesMove(s, s', drawn)
    ensures SingleHome(s') && AllSeen(s', seen + drawn)
    ensures forall h :: Retired(s, seen, h) ==> Retired(s', seen + drawn, h)
  {
  }

  /** At most one administrator row per group: two would share the group's hash. */
  lemma OneAdminRow(s: Tables, m: Uuid, o: Uuid)
    requires Constraints(s) && AdminRowsMatch(s)
    requires m in s.members && o in s.members && s.members[m].group == s.members[o].group
    requires s.members[m].role.Admin? && s.members[o].role.Admin?
    ensures m == o
  {
  }

  /** Changing nothing but the hash of one home to `h`, or dropping it. */
  lemma OneHomeMoves(s: Tables, s': Tables, seen: set<Hash>, home: Home, h: Hash)
    requires AllSeen(s, seen) && h !in seen
    requires forall a :: a != home ==> HashAt(s', a) == HashAt(s, a)
    requires HashAt(s', home) in {None, Some(h), HashAt(s, home)}
    ensures HomesMove(s, s', {h})
  {
  }

  lemma NoHomeMoves(s: Tables, s': Tables, seen: set<Hash>, drawn: set<Hash>)
    requires AllSeen(s, seen) && drawn !! seen
    requires forall a :: HashAt(s', a) == HashAt(s, a) || HashAt(s', a) == None
    ensures HomesMove(s, s', drawn)
  {
  }

  /** A creation adds one group with its administrator row and its general room, or changes nothing. */
  lemma CreationChange(s: Tables, op: Op)
    requires op.OpCreateGroup?
    ensures var s' := Perform(s, op);
            if CreateGroup(s, op.name, op.mode, op.group, op.creator, op.admin, op.invite).result.Err? then s' == s
            else
              && op.group !in s.groups && op.creator !in s.members
              && s'.groups == s.groups[op.group := CreatedRow(op)]
              && s'.members == s.members[op.creator :=
                MemberRow(op.group, HashOf(op.admin), Admin, ActiveMember, "administrator")]
              && s'.requests == s.requests
  {
  }

  function CreatedRow(op: Op): GroupRow
    requires op.OpCreateGroup?
  {
    GroupRow(op.name, op.mode, Some(HashOf(op.admin)), if op.mode.InviteGroup? then Some(HashOf(op.invite)) else None)
  }

  lemma CreationHomes(s: Tables, s': Tables, g: Uuid, row: GroupRow, m: Uuid, admin: MemberRow, a: Home)
    requires g !in s.groups && m !in s.members && admin.role.Admin?
    requires s'.groups == s.groups[g := row] && s'.members == s.members[m := admin] && s'.requests == s.requests
    ensures HashAt(s', a) ==
            if a == AdminOf(g) then row.adminHash else if a == InviteOf(g) then row.inviteHash else HashAt(s, a)
  {
  }

  lemma CreateGroupMoves(s: Tables, seen: set<Hash>, op: Op)
    requires op.OpCreateGroup? && AllSeen(s, seen) && FreshOp(op, seen)
    ensures HomesMove(s, Perform(s, op), Drawn(op))
  {
    var s' := Perform(s, op);
    CreationChange(s, op);
    if s' == s {
      NoHomeMoves(s, s', seen, Drawn(op));
    } else {
      var admin := MemberRow(op.group, HashOf(op.admin), Admin, ActiveMember, "administrator");
      forall a ensures HashAt(s', a) == (if a == AdminOf(op.group) then Some(HashOf(op.admin))
                                         else if a == InviteOf(op.group) then CreatedRow(op).inviteHash
                                         else HashAt(s, a)) {
        CreationHomes(s, s', op.group, CreatedRow(op), op.creator, admin, a);
      }
      forall a | a != AdminOf(op.group) && a != InviteOf(op.group) && HashAt(s', a).Some?
        ensures HashAt(s', a).value !in Drawn(op)
      {
        assert HashAt(s, a).value in seen;
      }
    }
  }

  lemma CreateGroupAdmins(s: Tables, op: Op)
    requires op.OpCreateGroup? && Constraints(s) && AdminRowsMatch(s)
    ensures AdminRowsMatch(Perform(s, op))
  {
    CreationChange(s, op);
  }

  lemma JoinMoves(s: Tables, seen: set<Hash>, op: Op)
    requires op.OpAuthorizeJoin? && CredentialsOk(s, seen) && FreshOp(op, seen)
    ensures HomesMove(s, Perform(s, op), Drawn(op)) && AdminRowsMatch(Perform(s, op))
  {
    var change := JoinEffect(s, op.group, op.credential, op.nickname, op.member, op.token);
    assert HashOf(op.token) in Drawn(op);
    JoinChangeHomes(s, seen, change, op.group, op.credential, op.token);
    JoinChangeAdmins(s, change, op.group, op.credential, op.token);
  }

  lemma JoinChangeAdmins(s: Tables, change: JoinChange, g: Uuid, credential: Option<string>, token: string)
    requires AdminRowsMatch(s) && Justified(s, change, g, credential, token)
    ensures AdminRowsMatch(AfterJoin(s, change))
  {
  }

  lemma JoinChangeHomes(s: Tables, seen: set<Hash>, change: JoinChange, g: Uuid, credential: Option<string>,
                        token: string)
    requires AllSeen(s, seen) && HashOf(token) !in seen
    requires Justified(s, change, g, credential, token)
    ensures HomesMove(s, AfterJoin(s, change), {HashOf(token)})
  {
    if change.Admitted? {
      AdmissionHomes(s, seen, change.member, change.row, change.spent, token);
    } else {
      NoHomeMoves(s, AfterJoin(s, change), seen, {HashOf(token)});
    }
  }

  lemma AdmissionHomes(s: Tables, seen: set<Hash>, m: Uuid, row: MemberRow, spent: Option<Uuid>, token: string)
    requires AllSeen(s, seen) && HashOf(token) !in seen
    requires m !in s.members && (row.role.Member? ==> row.hash == HashOf(token))
    ensures HomesMove(s, AfterJoin(s, Admitted(m, row, spent)), {HashOf(token)})
  {
    var admitted := s.(members := s.members[m := row]);
    OneHomeMoves(s, admitted, seen, MemberOf(m), HashOf(token));
    var s' := AfterJoin(s, Admitted(m, row, spent));
    assert forall a :: HashAt(s', a) == HashAt(admitted, a) || HashAt(s', a) == None;
  }

  /** The home a rotation renews. */
  function RotatedHome(op: Op): Home
    requires op.OpRotateGroupToken?
  {
    match op.kind
    case MemberToken => MemberOf(op.actor)
    case AdminToken => AdminOf(op.group)
    case InviteToken => InviteOf(op.group)
  }

  /** A rotation renews its home or changes nothing. */
  lemma RotationChange(s: Tables, op: Op)
    requires op.OpRotateGroupToken?
    ensures var s' := Perform(s, op);
            var g, m, h := op.group, op.actor, HashOf(op.token);
            if RotateGroupToken(s, g, m, op.kind, op.token).result.Err? then s' == s
            else
              match op.kind
              case MemberToken => ActiveAs(s, g, m, Member) && s' == WithRowHash(s, m, h)
              case AdminToken =>
                ActiveAs(s, g, m, Admin) && s' == WithRowHash(if g in s.groups then WithAdminHash(s, g, h) else s, m, h)
              case InviteToken => g in s.groups && s' == WithInviteHash(s, g, h)
  {
  }

  function WithRowHash(s: Tables, m: Uuid, h: Hash): Tables
    requires m in s.members
  {
    s.(members := s.members[m := s.members[m].(hash := h)])
  }

  function WithAdminHash(s: Tables, g: Uuid, h: Hash): Tables
    requires g in s.groups
  {
    s.(groups := s.groups[g := s.groups[g].(adminHash := Some(h))])
  }

  function WithInviteHash(s: Tables, g: Uuid, h: Hash): Tables
    requires g in s.groups
  {
    s.(groups := s.groups[g := s.groups[g].(inviteHash := Some(h))])
  }

  lemma RowHashHomes(s: Tables, m: Uuid, h: Hash)
    requires m in s.members
    ensures forall a :: HashAt(WithRowHash(s, m, h), a) ==
                        if a == MemberOf(m) && s.members[m].role.Member? then Some(h) else HashAt(s, a)
  {
  }

  lemma GroupHashHomes(s: Tables, g: Uuid, h: Hash)
    requires g in s.groups
    ensures forall a :: HashAt(WithAdminHash(s, g, h), a) == if a == AdminOf(g) then Some(h) else HashAt(s, a)
    ensures forall a :: HashAt(WithInviteHash(s, g, h), a) == if a == InviteOf(g) then Some(h) else HashAt(s, a)
  {
  }

  /** Only the rotated home changes, and it takes the new hash. */
  lemma RotationRenewsItsHome(s: Tables, op: Op)
    requires op.OpRotateGroupToken? && Constraints(s)
    ensures var s' := Perform(s, op);
            if RotateGroupToken(s, op.group, op.actor, op.kind, op.token).result.Err? then s' == s
            else
              && HashAt(s', RotatedHome(op)) == Some(HashOf(op.token))
              && forall a :: a != RotatedHome(op) ==> HashAt(s', a) == HashAt(s, a)
  {
    RotationChange(s, op);
    if RotateGroupToken(s, op.group, op.actor, op.kind, op.token).result.Ok? {
      var h := HashOf(op.token);
      match op.kind
      case MemberToken => RowHashHomes(s, op.actor, h);
      case AdminToken =>
        GroupHashHomes(s, op.group, h);
        RowHashHomes(WithAdminHash(s, op.group, h), op.actor, h);
      case InviteToken => GroupHashHomes(s, op.group, h);
    }
  }

  lemma RenewedAdmins(s: Tables, g: Uuid, m: Uuid, h: Hash)
    requires Constraints(s) && AdminRowsMatch(s) && ActiveAs(s, g, m, Admin)
    ensures AdminRowsMatch(WithRowHash(WithAdminHash(s, g, h), m, h))
  {
  }

  lemma RotationAdmins(s: Tables, op: Op)
    requires op.OpRotateGroupToken? && Constraints(s) && AdminRowsMatch(s)
    ensures AdminRowsMatch(Perform(s, op))
  {
    RotationChange(s, op);
    if op.kind.AdminToken? && Perform(s, op) != s {
      RenewedAdmins(s, op.group, op.actor, HashOf(op.token));
    }
  }

  lemma RotationMoves(s: Tables, seen: set<Hash>, op: Op)
    requires op.OpRotateGroupToken? && CredentialsOk(s, seen) && FreshOp(op, seen)
    ensures HomesMove(s, Perform(s, op), Drawn(op)) && AdminRowsMatch(Perform(s, op))
  {
    RotationRenewsItsHome(s, op);
    OneHomeMoves(s, Perform(s, op), seen, RotatedHome(op), HashOf(op.token));
    assert Drawn(op) == {HashOf(op.token)};
    RotationAdmins(s, op);
  }

  lemma RequestMoves(s: Tables, seen: set<Hash>, op: Op)
    requires op.OpCreateJoinRequest? && CredentialsOk(s, seen) && FreshOp(op, seen)
    ensures HomesMove(s, Perform(s, op), Drawn(op)) && AdminRowsMatch(Perform(s, op))
  {
    var s' := CreateJoinRequest(s, op.group, op.nickname, op.request, op.token).tables;
    RequestHomes(s, op.group, op.nickname, op.request, op.token);
    OneHomeMoves(s, s', seen, RequestOf(op.request), HashOf(op.token));
  }

  lemma RequestHomes(s: Tables, g: Uuid, nickname: string, r: Uuid, token: string)
    ensures var s' := CreateJoinRequest(s, g, nickname, r, token).tables;
            && s'.groups == s.groups && s'.members == s.members
            && HashAt(s', RequestOf(r)) in {Some(HashOf(token)), HashAt(s, RequestOf(r))}
            && forall a :: a != RequestOf(r) ==> HashAt(s', a) == HashAt(s, a)
  {
  }

  /** The same rows with the same groups and roles. */
  predicate SameRoster(s: Tables, s': Tables) {
    && s'.members.Keys == s.members.Keys
    && forall m :: m in s.members ==>
      s'.members[m].group == s.members[m].group && s'.members[m].role == s.members[m].role
  }

  lemma RowHashKeepsRoster(s: Tables, m: Uuid, h: Hash)
    requires m in s.members
    ensures SameRoster(s, WithRowHash(s, m, h))
    ensures forall o :: o in s.members ==> WithRowHash(s, m, h).members[o].status == s.members[o].status
  {
  }

  lemma RotationKeepsRoster(s: Tables, op: Op)
    requires op.OpRotateGroupToken?
    ensures SameRoster(s, Perform(s, op)) && Perform(s, op).requests == s.requests
    ensures forall m :: m in s.members ==> Perform(s, op).members[m].status == s.members[m].status
  {
    RotationChange(s, op);
    if op.actor in s.members {
      RowHashKeepsRoster(s, op.actor, HashOf(op.token));
    }
  }

  /** The same groups, rows and requests as far as credentials go. */
  predicate CredentialsUntouched(s: Tables, s': Tables) {
    && s'.groups == s.groups
    && s'.members.Keys == s.members.Keys
    && (forall m :: m in s.members ==>
          && SameKey(s.members[m], s'.members[m]) && s'.members[m].role == s.members[m].role
          && (s.members[m].role.Admin? ==> s'.members[m].status == s.members[m].status))
    && s'.requests.Keys == s.requests.Keys
    && (forall r :: r in s.requests ==> SameToken(s.requests[r], s'.requests[r]))
  }

  lemma DecisionTouchesNoCredential(s: Tables, g: Uuid, r: Uuid, approve: bool)
    ensures CredentialsUntouched(s, DecideJoinRequest(s, g, r, approve).tables)
  {
  }

  /** A row may change its nickname, and an ordinary one its status. */
  lemma RowUpdateTouchesNoCredential(s: Tables, m: Uuid, row: MemberRow)
    requires m in s.members && SameKey(s.members[m], row) && row.role == s.members[m].role
    requires row.role.Admin? ==> row.status == s.members[m].status
    ensures CredentialsUntouched(s, s.(members := s.members[m := row]))
  {
  }

  lemma NicknameTouchesNoCredential(s: Tables, g: Uuid, m: Uuid, nickname: string)
    ensures CredentialsUntouched(s, UpdateMemberNickname(s, g, m, nickname).tables)
  {
    if m in s.members {
      RowUpdateTouchesNoCredential(s, m, s.members[m].(nickname := nickname));
    }
  }

  lemma BanTouchesNoCredential(s: Tables, g: Uuid, m: Uuid, banned: bool)
    ensures CredentialsUntouched(s, SetMemberBanned(s, g, m, banned).tables)
  {
    if m in s.members && s.members[m].role.Member? {
      RowUpdateTouchesNoCredential(s, m, s.members[m].(status := if banned then BannedMember else ActiveMember));
    }
  }

  lemma AppendTouchesNoCredential(s: Tables, op: Op)
    requires op.OpAppendMessage?
    ensures var s' := Perform(s, op);
            s'.groups == s.groups && s'.members == s.members && s'.requests == s.requests && s'.grants == s.grants
  {
    var step := AppendMessage(op.key, s, op.group, op.room, op.message, op.sender, op.sentAtMs, op.text, op.nonce);
    assert step.tables.groups == s.groups;
  }

  lemma RoomOpsTouchNoCredential(s: Tables, op: Op)
    requires op.OpCreateRoom? || op.OpSetRoomMember? || op.OpAppendMessage?
    ensures var s' := Perform(s, op);
            s'.groups == s.groups && s'.members == s.members && s'.requests == s.requests
  {
    if op.OpAppendMessage? {
      AppendTouchesNoCredential(s, op);
    }
  }

  lemma UntouchedMoves(s: Tables, s': Tables, seen: set<Hash>)
    requires AllSeen(s, seen) && AdminRowsMatch(s) && CredentialsUntouched(s, s')
    ensures HomesMove(s, s', {}) && AdminRowsMatch(s')
  {
  }

  lemma StepMoves(s: Tables, seen: set<Hash>, op: Op)
    requires CredentialsOk(s, seen) && FreshOp(op, seen)
    ensures HomesMove(s, Perform(s, op), Drawn(op)) && AdminRowsMatch(Perform(s, op))
  {
    match op
    case OpCreateGroup(_, _, _, _, _, _) =>
      CreateGroupMoves(s, seen, op);
      CreateGroupAdmins(s, op);
    case OpAuthorizeJoin(_, _, _, _, _) => JoinMoves(s, seen, op);
    case OpCreateJoinRequest(_, _, _, _) => RequestMoves(s, seen, op);
    case OpRotateGroupToken(_, _, _, _) => RotationMoves(s, seen, op);
    case OpDecideJoinRequest(g, r, approve) =>
      DecisionTouchesNoCredential(s, g, r, approve);
      UntouchedMoves(s, Perform(s, op), seen);
    case OpUpdateMemberNickname(g, m, nickname) =>
      NicknameTouchesNoCredential(s, g, m, nickname);
      UntouchedMoves(s, Perform(s, op), seen);
    case OpSetMemberBanned(g, m, banned) =>
      BanTouchesNoCredential(s, g, m, banned);
      UntouchedMoves(s, Perform(s, op), seen);
    case _ =>
      RoomOpsTouchNoCredential(s, op);
      UntouchedMoves(s, Perform(s, op), seen);
  }

  lemma CredentialsStep(s: Tables, seen: set<Hash>, op: Op)
    requires CredentialsOk(s, seen) && FreshOp(op, seen)
    ensures CredentialsOk(Perform(s, op), seen + Drawn(op))
    ensures forall h :: Retired(s, seen, h) ==> Retired(Perform(s, op), seen + Drawn(op), h)
  {
    PerformKeepsConstraints(s, op);
    StepMoves(s, seen, op);
    HomesStaySingle(s, Perform(s, op), seen, Drawn(op));
  }

  // ---------- whole runs ----------

  /** Opened from an empty or migrated database: no member rows and no grants yet, hashes in single homes. */
  ghost predicate Opened(s: Tables, seen: set<Hash>) {
    Constraints(s) && s.members == map[] && s.grants == map[] && SingleHome(s) && AllSeen(s, seen)
  }

  lemma EmptyDatabaseIsOpened()
    ensures Opened(Tables(map[], map[], map[], map[], map[], map[]), {})
  {
  }

  /**
   In every reachable store each live credential hash belongs to exactly one group and one purpose, and every
   administrator row is active and carries its group's administrator hash.
   */
  lemma {:induction false} CredentialsHaveASingleHome(s: Tables, seen: set<Hash>, ops: seq<Op>)
    requires Opened(s, seen) && FreshRun(seen, ops)
    ensures CredentialsOk(PerformAll(s, ops), SeenAfter(seen, ops))
  {
    if ops != [] {
      var n := |ops| - 1;
      CredentialsHaveASingleHome(s, seen, ops[..n]);
      CredentialsStep(PerformAll(s, ops[..n]), SeenAfter(seen, ops[..n]), ops[n]);
    }
  }

  /** From any store in order, not only an opened one. */
  lemma {:induction false} CredentialsRun(s: Tables, seen: set<Hash>, ops: seq<Op>)
    requires CredentialsOk(s, seen) && FreshRun(seen, ops)
    ensures CredentialsOk(PerformAll(s, ops), SeenAfter(seen, ops))
  {
    if ops != [] {
      var n := |ops| - 1;
      CredentialsRun(s, seen, ops[..n]);
      CredentialsStep(PerformAll(s, ops[..n]), SeenAfter(seen, ops[..n]), ops[n]);
    }
  }

  /** A supplied token gets in only while its hash has a home in that very group. */
  lemma AllowedNeedsALiveHome(s: Tables, seen: set<Hash>, g: Uuid, token: string, nickname: string, m: Uuid,
                              drawn: string)
    returns (home: Home)
    requires CredentialsOk(s, seen)
    requires var answer := AuthorizeJoin(s, g, Some(token), nickname, m, drawn).result;
             answer.Ok? && answer.value.Allowed?
    ensures HashAt(s, home) == Some(HashOf(token)) && GroupOf(s, home) == Some(g)
  {
    var h := HashOf(token);
    var found := MemberWith(s, g, h);
    if found.Some? {
      home := if s.members[found.value].role.Admin? then AdminOf(g) else MemberOf(found.value);
    } else if s.groups[g].adminHash == Some(h) {
      home := AdminOf(g);
    } else if s.groups[g].mode.InviteGroup? {
      home := InviteOf(g);
    } else {
      home := RequestOf(RequestWith(s, g, h).value);
    }
  }

  /** A retired token is refused by every group. */
  lemma RetiredIsRefused(s: Tables, seen: set<Hash>, g: Uuid, token: string, nickname: string, m: Uuid, drawn: string)
    requires CredentialsOk(s, seen) && Retired(s, seen, HashOf(token))
    ensures var answer := AuthorizeJoin(s, g, Some(token), nickname, m, drawn).result;
            answer.Ok? ==> !answer.value.Allowed?
  {
    var answer := AuthorizeJoin(s, g, Some(token), nickname, m, drawn).result;
    if answer.Ok? && answer.value.Allowed? {
      var home := AllowedNeedsALiveHome(s, seen, g, token, nickname, m, drawn);
    }
  }

  lemma {:induction false} RetiredStays(s: Tables, seen: set<Hash>, ops: seq<Op>, h: Hash)
    requires CredentialsOk(s, seen) && FreshRun(seen, ops) && Retired(s, seen, h)
    ensures CredentialsOk(PerformAll(s, ops), SeenAfter(seen, ops))
    ensures Retired(PerformAll(s, ops), SeenAfter(seen, ops), h)
  {
    if ops != [] {
      var n := |ops| - 1;
      RetiredStays(s, seen, ops[..n], h);
      CredentialsStep(PerformAll(s, ops[..n]), SeenAfter(seen, ops[..n]), ops[n]);
    }
  }

  /**
   No resurrection: once a hash has no home, no later run of the store lets its token in again, whichever group it is
   presented to.
   */
  lemma RetiredTokensNeverReturn(s: Tables, seen: set<Hash>, ops: seq<Op>, g: Uuid, token: string, nickname: string,
                                 m: Uuid, drawn: string)
    requires CredentialsOk(s, seen) && FreshRun(seen, ops) && Retired(s, seen, HashOf(token))
    ensures var answer := AuthorizeJoin(PerformAll(s, ops), g, Some(token), nickname, m, drawn).result;
            answer.Ok? ==> !answer.value.Allowed?
  {
    RetiredStays(s, seen, ops, HashOf(token));
    RetiredIsRefused(PerformAll(s, ops), SeenAfter(seen, ops), g, token, nickname, m, drawn);
  }

  /** A successful rotation retires exactly the token it replaces and makes the new one live in the same place. */
  lemma RotationRetiresTheOldToken(s: Tables, seen: set<Hash>, op: Op)
    requires op.OpRotateGroupToken? && CredentialsOk(s, seen) && FreshOp(op, seen)
    requires RotateGroupToken(s, op.group, op.actor, op.kind, op.token).result.Ok?
    ensures var s' := Perform(s, op);
            var was := HashAt(s, RotatedHome(op));
            && HashAt(s', RotatedHome(op)) == Some(HashOf(op.token))
            && (was.Some? ==> Retired(s', seen + Drawn(op), was.value))
            && forall a :: a != RotatedHome(op) ==> HashAt(s', a) == HashAt(s, a)
  {
    var s' := Perform(s, op);
    var home := RotatedHome(op);
    var was := HashAt(s, home);
    RotationRenewsItsHome(s, op);
    if was.Some? {
      forall a | a != home ensures HashAt(s', a) != was {
        assert HashAt(s', a) == HashAt(s, a);
      }
    }
  }

  function HomeOfRow(row: MemberRow, m: Uuid): Home {
    if row.role.Admin? then AdminOf(row.group) else MemberOf(m)
  }

  lemma RowHome(s: Tables, m: Uuid)
    requires AdminRowsMatch(s) && m in s.members
    ensures HashAt(s, HomeOfRow(s.members[m], m)) == Some(s.members[m].hash)
  {
  }

  /**
   An admission by request spends the request: its token is retired, whether a row was issued or the limit was hit.
   */
  lemma AdmissionSpendsTheRequest(s: Tables, seen: set<Hash>, op: Op, r: Uuid)
    requires op.OpAuthorizeJoin? && CredentialsOk(s, seen) && FreshOp(op, seen)
    requires ApprovedFor(s, op.group, r, op.credential) && IsValidGroupCredential(op.credential.value)
    requires AuthorizeJoin(s, op.group, op.credential, op.nickname, op.member, op.token).result.Ok?
    ensures r !in Perform(s, op).requests
    ensures Retired(Perform(s, op), seen + Drawn(op), HashOf(op.credential.value))
  {
    var h := HashOf(op.credential.value);
    assert HashAt(s, RequestOf(r)) == Some(h);
    assert MemberWith(s, op.group, h).None? by {
      var found := MemberWith(s, op.group, h);
      if found.Some? {
        RowHome(s, found.value);
      }
    }
    assert HashAt(s, AdminOf(op.group)) != Some(h);
    assert SameToken(s.requests[RequestWith(s, op.group, h).value], s.requests[r]);
    var s' := Perform(s, op);
    StepMoves(s, seen, op);
    assert h in seen;
  }

  // ---------- the administrator row ----------

  predicate HasAdminRow(s: Tables, g: Uuid) {
    exists m :: m in s.members && s.members[m].group == g && s.members[m].role.Admin?
  }

  predicate RowKept(s: Tables, s': Tables, m: Uuid) {
    m in s.members ==>
      && m in s'.members
      && s'.members[m].group == s.members[m].group && s'.members[m].role == s.members[m].role
  }

  lemma JoinKeepsRow(s: Tables, op: Op, m: Uuid)
    requires op.OpAuthorizeJoin?
    ensures RowKept(s, Perform(s, op), m)
  {
    var change := JoinEffect(s, op.group, op.credential, op.nickname, op.member, op.token);
  }

  /** Rows keep their group and role forever. */
  lemma RowsKeepGroupAndRole(s: Tables, op: Op, m: Uuid)
    ensures RowKept(s, Perform(s, op), m)
  {
    match op
    case OpCreateGroup(_, _, _, _, _, _) => CreationChange(s, op);
    case OpAuthorizeJoin(_, _, _, _, _) => JoinKeepsRow(s, op, m);
    case OpRotateGroupToken(_, _, _, _) => RotationKeepsRoster(s, op);
    case OpUpdateMemberNickname(g, o, nickname) => NicknameTouchesNoCredential(s, g, o, nickname);
    case OpSetMemberBanned(g, o, banned) => BanTouchesNoCredential(s, g, o, banned);
    case OpDecideJoinRequest(g, r, approve) => DecisionTouchesNoCredential(s, g, r, approve);
    case OpCreateJoinRequest(_, _, _, _) =>
    case _ => RoomOpsTouchNoCredential(s, op);
  }

  lemma AdminRowNeedsAnEmptyPlace(s: Tables, m: Uuid, row: MemberRow)
    requires AdminRowsMatch(s) && MemberInsertable(s, m, row)
    requires row.role.Admin? && s.groups[row.group].adminHash == Some(row.hash)
    ensures !HasAdminRow(s, row.group)
  {
  }

  lemma FallbackChange(s: Tables, change: JoinChange, g: Uuid, credential: Option<string>, token: string, m: Uuid)
    requires AdminRowsMatch(s) && Justified(s, change, g, credential, token)
    requires m !in s.members && m in AfterJoin(s, change).members && AfterJoin(s, change).members[m].role.Admin?
    ensures !HasAdminRow(s, g) && HasAdminRow(AfterJoin(s, change), g)
  {
  }

  /**
   The fallback of `authorize_join` that inserts an administrator row runs only for a group that has none, and gives
   it one.
   */
  lemma FallbackRunsOnlyWithoutAdminRow(s: Tables, op: Op)
    requires op.OpAuthorizeJoin? && AdminRowsMatch(s)
    requires op.member !in s.members && op.member in Perform(s, op).members
      && Perform(s, op).members[op.member].role.Admin?
    ensures !HasAdminRow(s, op.group) && HasAdminRow(Perform(s, op), op.group)
  {
    var change := JoinEffect(s, op.group, op.credential, op.nickname, op.member, op.token);
    FallbackChange(s, change, op.group, op.credential, op.token, op.member);
  }

  /** The guards of the fallback: the administrator's token, on no row of the group yet, and an unused row id. */
  ghost predicate FallsBack(s: Tables, op: Op, g: Uuid) {
    && op.OpAuthorizeJoin? && op.group == g && g in s.groups && op.member !in s.members
    && op.credential.Some? && IsValidGroupCredential(op.credential.value)
    && s.groups[g].adminHash == Some(HashOf(op.credential.value))
    && MemberWith(s, g, HashOf(op.credential.value)).None?
  }

  /** The guards say exactly when a join makes an administrator row. */
  lemma FallbackMakesTheAdminRow(s: Tables, op: Op)
    requires op.OpAuthorizeJoin? && op.member !in s.members
    ensures FallsBack(s, op, op.group) <==>
            op.member in Perform(s, op).members && Perform(s, op).members[op.member].role.Admin?
  {
    var change := JoinEffect(s, op.group, op.credential, op.nickname, op.member, op.token);
  }

  /** How often the fallback ran for a group. */
  ghost function Fallbacks(s: Tables, ops: seq<Op>, g: Uuid): nat {
    if ops == [] then 0
    else
      var front := ops[..|ops| - 1];
      Fallbacks(s, front, g) + if FallsBack(PerformAll(s, front), ops[|ops| - 1], g) then 1 else 0
  }

  lemma AdminRowPersists(s: Tables, op: Op, g: Uuid)
    requires HasAdminRow(s, g)
    ensures HasAdminRow(Perform(s, op), g)
  {
    var m :| m in s.members && s.members[m].group == g && s.members[m].role.Admin?;
    RowsKeepGroupAndRole(s, op, m);
  }

  lemma FallbackStep(s: Tables, op: Op, g: Uuid)
    requires AdminRowsMatch(s)
    ensures FallsBack(s, op, g) ==> !HasAdminRow(s, g) && HasAdminRow(Perform(s, op), g)
  {
    if FallsBack(s, op, g) {
      FallbackMakesTheAdminRow(s, op);
      FallbackRunsOnlyWithoutAdminRow(s, op);
    }
  }

  /**
   Over a whole run the fallback runs at most once per group, and never for a group that has its administrator row.
   */
  lemma {:induction false} FallbackRunsAtMostOnce(s: Tables, seen: set<Hash>, ops: seq<Op>, g: Uuid)
    requires CredentialsOk(s, seen) && FreshRun(seen, ops)
    ensures Fallbacks(s, ops, g) <= 1
    ensures HasAdminRow(s, g) ==> Fallbacks(s, ops, g) == 0
    ensures HasAdminRow(s, g) || Fallbacks(s, ops, g) == 1 ==> HasAdminRow(PerformAll(s, ops), g)
  {
    if ops != [] {
      var n := |ops| - 1;
      var before := PerformAll(s, ops[..n]);
      FallbackRunsAtMostOnce(s, seen, ops[..n], g);
      CredentialsRun(s, seen, ops[..n]);
      FallbackStep(before, ops[n], g);
      if HasAdminRow(before, g) {
        AdminRowPersists(before, ops[n], g);
      }
    }
  }

  /** A group created here never falls back, whatever happens to it later. */
  lemma CreatedGroupNeverFallsBack(s: Tables, seen: set<Hash>, create: Op, ops: seq<Op>)
    requires create.OpCreateGroup? && CredentialsOk(s, seen) && FreshOp(create, seen)
    requires CreateGroup(s, create.name, create.mode, create.group, create.creator, create.admin,
      create.invite).result.Ok?
    requires FreshRun(seen + Drawn(create), ops)
    ensures Fallbacks(Perform(s, create), ops, create.group) == 0
  {
    CredentialsStep(s, seen, create);
    CreatedGroupHasAdminRow(s, create);
    FallbackRunsAtMostOnce(Perform(s, create), seen + Drawn(create), ops, create.group);
  }

  lemma CreatedGroupHasAdminRow(s: Tables, op: Op)
    requires op.OpCreateGroup?
    requires CreateGroup(s, op.name, op.mode, op.group, op.creator, op.admin, op.invite).result.Ok?
    ensures HasAdminRow(Perform(s, op), op.group)
  {
    assert Perform(s, op).members[op.creator].role.Admin?;
  }

  /** An administrator row stays: a group that has one has exactly one, in every later state. */
  lemma {:induction false} AdminRowStays(s: Tables, seen: set<Hash>, ops: seq<Op>, m: Uuid)
    requires CredentialsOk(s, seen) && FreshRun(seen, ops)
    requires m in s.members && s.members[m].role.Admin?
    ensures var s' := PerformAll(s, ops);
            && CredentialsOk(s', SeenAfter(seen, ops))
            && m in s'.members && s'.members[m].role.Admin? && s'.members[m].group == s.members[m].group
            && s'.members[m].status.ActiveMember?
            && forall o ::
                 (o in s'.members && s'.members[o].role.Admin? && s'.members[o].group == s.members[m].group) ==> o == m
  {
    if ops != [] {
      var n := |ops| - 1;
      AdminRowStays(s, seen, ops[..n], m);
      CredentialsStep(PerformAll(s, ops[..n]), SeenAfter(seen, ops[..n]), ops[n]);
      RowsKeepGroupAndRole(PerformAll(s, ops[..n]), ops[n], m);
    }
    var s' := PerformAll(s, ops);
    forall o | o in s'.members && s'.members[o].role.Admin? && s'.members[o].group == s.members[m].group
      ensures o == m {
      OneAdminRow(s', o, m);
    }
  }
}
