/** Join requests over whole runs: approvals are conserved, pending requests are bounded, decisions are final. */
module StoreApprovals {
  import opened Wrappers
  import opened Protocol
  import opened Sanitizer
  import opened Store
  import opened StoreCredentials

  /** The ordinary member rows of a group. */
  function Ordinary(s: Tables, g: Uuid): set<Uuid> {
    set m | m in s.members && s.members[m].group == g && s.members[m].role.Member?
  }

  function Approved(s: Tables, g: Uuid): set<Uuid> {
    RequestsOf(s, g, ApprovedRequest)
  }

  /** This operation grants an approval in group `g`: it approves a pending request there. */
  predicate Grants(s: Tables, op: Op, g: Uuid) {
    && op.OpDecideJoinRequest? && op.group == g && op.approve
    && op.request in s.requests && s.requests[op.request].group == g && s.requests[op.request].status.PendingRequest?
  }

  /**
   This operation spends an approval in group `g` without admitting anybody: its credential is the token of an approved
   request and of nothing else in the group, and the group is full.
   */
  ghost predicate SpendsAtLimit(s: Tables, op: Op, g: Uuid) {
    && op.OpAuthorizeJoin? && op.group == g && op.credential.Some? && IsValidGroupCredential(op.credential.value)
    && (exists r: Uuid :: ApprovedFor(s, g, r, op.credential))
    && MemberWith(s, g, HashOf(op.credential.value)).None?
    && s.groups[g].adminHash != Some(HashOf(op.credential.value))
    && |RowsOf(s, g)| >= MAX_GROUP_MEMBERS
  }

  /** In an approval group it is answered MemberLimit, and nothing else is. */
  lemma SpendingIsAnsweredMemberLimit(s: Tables, op: Op, g: Uuid)
    requires op.OpAuthorizeJoin? && op.group == g && Constraints(s) && ApprovalOrAbsent(s, g)
    ensures SpendsAtLimit(s, op, g) <==>
            AuthorizeJoin(s, g, op.credential, op.nickname, op.member, op.token).result == Ok(MemberLimit)
  {
    if op.credential.Some? {
      var found := RequestWith(s, g, HashOf(op.credential.value));
      if r: Uuid :| ApprovedFor(s, g, r, op.credential) {
        assert SameToken(s.requests[r], s.requests[found.value]);
      }
      if found.Some? && g in s.groups && s.requests[found.value].status.ApprovedRequest? {
        assert ApprovedFor(s, g, found.value, op.credential);
      }
    }
  }

  ghost function Granted(s: Tables, ops: seq<Op>, g: Uuid): nat {
    if ops == [] then 0
    else
      var front := ops[..|ops| - 1];
      Granted(s, front, g) + if Grants(PerformAll(s, front), ops[|ops| - 1], g) then 1 else 0
  }

  ghost function SpentAtLimit(s: Tables, ops: seq<Op>, g: Uuid): nat {
    if ops == [] then 0
    else
      var front := ops[..|ops| - 1];
      SpentAtLimit(s, front, g) + if SpendsAtLimit(PerformAll(s, front), ops[|ops| - 1], g) then 1 else 0
  }

  /** Admissions and approvals still stored. */
  function Balance(s: Tables, g: Uuid): nat {
    |Ordinary(s, g)| + |Approved(s, g)|
  }

  predicate ApprovalOrAbsent(s: Tables, g: Uuid) {
    g in s.groups ==> s.groups[g].mode.ApprovalGroup?
  }

  // ---------- one step ----------

  lemma OneMore(a: set<Uuid>, b: set<Uuid>, x: Uuid)
    requires x !in a && forall o :: o in b <==> o in a || o == x
    ensures |b| == |a| + 1
  {
    assert b == a + {x};
  }

  lemma SameRowsSameBalance(s: Tables, s': Tables, g: Uuid)
    requires s'.members.Keys == s.members.Keys
    requires forall m :: m in s.members ==>
      s'.members[m].group == s.members[m].group && s'.members[m].role == s.members[m].role
    requires s'.requests == s.requests
    ensures Balance(s', g) == Balance(s, g)
  {
    assert Ordinary(s', g) == Ordinary(s, g);
    assert Approved(s', g) == Approved(s, g);
  }

  lemma AdmissionBalance(s: Tables, change: JoinChange, g: Uuid, group: Uuid, credential: Option<string>, token: string)
    requires change.Admitted? && ApprovalOrAbsent(s, g) && Justified(s, change, group, credential, token)
    ensures Balance(AfterJoin(s, change), g) == Balance(s, g)
  {
    AdmissionRows(s, AfterJoin(s, change), change.member, change.row, g);
    SpentRequest(s, AfterJoin(s, change), change.spent, group, credential, g);
  }

  lemma JoinBalance(s: Tables, change: JoinChange, g: Uuid, group: Uuid, credential: Option<string>, token: string)
    requires ApprovalOrAbsent(s, g) && Justified(s, change, group, credential, token)
    ensures Balance(AfterJoin(s, change), g) + (if change.Spent? && group == g then 1 else 0) == Balance(s, g)
  {
    var s' := AfterJoin(s, change);
    match change
    case Nothing =>
    case Renamed(m, nickname) => SameRowsSameBalance(s, s', g);
    case Admitted(_, _, _) => AdmissionBalance(s, change, g, group, credential, token);
    case Spent(r) =>
      assert Ordinary(s', g) == Ordinary(s, g);
      SpentRequest(s, s', Some(r), group, credential, g);
  }

  lemma AdmissionRows(s: Tables, s': Tables, m: Uuid, row: MemberRow, g: Uuid)
    requires m !in s.members && s'.members == s.members[m := row]
    ensures |Ordinary(s', g)| == |Ordinary(s, g)| + (if row.group == g && row.role.Member? then 1 else 0)
  {
    var rows, rows' := Ordinary(s, g), Ordinary(s', g);
    forall o | o != m ensures o in rows' <==> o in rows {
    }
    if row.group == g && row.role.Member? {
      OneMore(rows, rows', m);
    } else {
      assert rows' == rows;
    }
  }

  lemma SpentRequest(s: Tables, s': Tables, spent: Option<Uuid>, group: Uuid, credential: Option<string>, g: Uuid)
    requires spent.Some? ==> ApprovedFor(s, group, spent.value, credential)
    requires s'.requests == if spent.Some? then s.requests - {spent.value} else s.requests
    ensures |Approved(s', g)| + (if spent.Some? && group == g then 1 else 0) == |Approved(s, g)|
  {
    if spent.Some? && group == g {
      assert spent.value in Approved(s, g);
      assert Approved(s', g) == Approved(s, g) - {spent.value};
    } else {
      assert Approved(s', g) == Approved(s, g);
    }
  }

  lemma DecidedRequests(s: Tables, group: Uuid, r: Uuid, approve: bool, g: Uuid)
    ensures var step := DecideJoinRequest(s, group, r, approve);
            |Approved(step.tables, g)| ==
            |Approved(s, g)| + (if group == g && approve && step.result == Ok(true) then 1 else 0)
  {
    var step := DecideJoinRequest(s, group, r, approve);
    var held, held' := Approved(s, g), Approved(step.tables, g);
    forall o | o != r ensures o in held' <==> o in held {
    }
    if group == g && approve && step.result == Ok(true) {
      OneMore(held, held', r);
    } else {
      assert held' == held;
    }
  }

  lemma DecisionBalance(s: Tables, group: Uuid, r: Uuid, approve: bool, g: Uuid)
    ensures var step := DecideJoinRequest(s, group, r, approve);
            Balance(step.tables, g) ==
            Balance(s, g) + (if group == g && approve && step.result == Ok(true) then 1 else 0)
  {
    DecidedRequests(s, group, r, approve, g);
    assert Ordinary(DecideJoinRequest(s, group, r, approve).tables, g) == Ordinary(s, g);
  }

  lemma CreationBalance(s: Tables, op: Op, g: Uuid)
    requires op.OpCreateGroup?
    ensures Balance(Perform(s, op), g) == Balance(s, g)
  {
    var s' := Perform(s, op);
    CreationChange(s, op);
    if s' != s {
      AdmissionRows(s, s', op.creator, s'.members[op.creator], g);
      assert Approved(s', g) == Approved(s, g);
    }
  }

  lemma RotationBalance(s: Tables, op: Op, g: Uuid)
    requires op.OpRotateGroupToken?
    ensures Balance(Perform(s, op), g) == Balance(s, g)
  {
    RotationKeepsRoster(s, op);
    SameRowsSameBalance(s, Perform(s, op), g);
  }

  lemma NewRequestBalance(s: Tables, op: Op, g: Uuid)
    requires op.OpCreateJoinRequest?
    ensures Balance(Perform(s, op), g) == Balance(s, g)
  {
    var s' := CreateJoinRequest(s, op.group, op.nickname, op.request, op.token).tables;
    assert Ordinary(s', g) == Ordinary(s, g);
    assert Approved(s', g) == Approved(s, g);
  }

  lemma JoinStepBalance(s: Tables, op: Op, g: Uuid)
    requires op.OpAuthorizeJoin? && Constraints(s) && ApprovalOrAbsent(s, g)
    ensures Balance(Perform(s, op), g) + (if SpendsAtLimit(s, op, g) then 1 else 0) == Balance(s, g)
  {
    var change := JoinEffect(s, op.group, op.credential, op.nickname, op.member, op.token);
    JoinBalance(s, change, g, op.group, op.credential, op.token);
    if op.group == g {
      SpendingIsAnsweredMemberLimit(s, op, g);
    }
  }

  lemma NicknameBalance(s: Tables, group: Uuid, m: Uuid, nickname: string, g: Uuid)
    ensures Balance(UpdateMemberNickname(s, group, m, nickname).tables, g) == Balance(s, g)
  {
    NicknameTouchesNoCredential(s, group, m, nickname);
    SameRowsSameBalance(s, UpdateMemberNickname(s, group, m, nickname).tables, g);
  }

  lemma BanBalance(s: Tables, group: Uuid, m: Uuid, banned: bool, g: Uuid)
    ensures Balance(SetMemberBanned(s, group, m, banned).tables, g) == Balance(s, g)
  {
    BanTouchesNoCredential(s, group, m, banned);
    SameRowsSameBalance(s, SetMemberBanned(s, group, m, banned).tables, g);
  }

  lemma RoomOpBalance(s: Tables, op: Op, g: Uuid)
    requires op.OpCreateRoom? || op.OpSetRoomMember? || op.OpAppendMessage?
    ensures Balance(Perform(s, op), g) == Balance(s, g)
  {
    RoomOpsTouchNoCredential(s, op);
    SameRowsSameBalance(s, Perform(s, op), g);
  }

  lemma StepBalance(s: Tables, op: Op, g: Uuid)
    requires Constraints(s) && ApprovalOrAbsent(s, g)
    ensures Balance(Perform(s, op), g) + (if SpendsAtLimit(s, op, g) then 1 else 0) ==
            Balance(s, g) + (if Grants(s, op, g) then 1 else 0)
  {
    match op
    case OpCreateGroup(_, _, _, _, _, _) => CreationBalance(s, op, g);
    case OpAuthorizeJoin(_, _, _, _, _) => JoinStepBalance(s, op, g);
    case OpCreateJoinRequest(_, _, _, _) => NewRequestBalance(s, op, g);
    case OpDecideJoinRequest(group, r, approve) => DecisionBalance(s, group, r, approve, g);
    case OpRotateGroupToken(_, _, _, _) => RotationBalance(s, op, g);
    case OpUpdateMemberNickname(group, m, nickname) => NicknameBalance(s, group, m, nickname, g);
    case OpSetMemberBanned(group, m, banned) => BanBalance(s, group, m, banned, g);
    case _ => RoomOpBalance(s, op, g);
  }

  /** Groups stay, and with them their access mode. */
  lemma ModesStay(s: Tables, op: Op, g: Uuid)
    requires g in s.groups
    ensures g in Perform(s, op).groups && Perform(s, op).groups[g].mode == s.groups[g].mode
  {
    match op
    case OpCreateGroup(_, _, _, _, _, _) => CreationChange(s, op);
    case OpAuthorizeJoin(group, credential, nickname, m, token) =>
      var change := JoinEffect(s, group, credential, nickname, m, token);
    case OpRotateGroupToken(_, _, _, _) => RotationChange(s, op);
    case OpDecideJoinRequest(_, _, _) =>
    case OpUpdateMemberNickname(_, _, _) =>
    case OpSetMemberBanned(_, _, _) =>
    case OpCreateJoinRequest(_, _, _, _) =>
    case _ => RoomOpsTouchNoCredential(s, op);
  }

  // ---------- conservation ----------

  /**
   In an approval group every approval ever granted, with those found at the start, is a member row admitted, an
   approved request still stored, or an approval spent on a full group. No other operation makes or unmakes one.
   */
  lemma {:induction false} ApprovalsAreConserved(s: Tables, ops: seq<Op>, g: Uuid)
    requires Constraints(s)
    requires ApprovalOrAbsent(PerformAll(s, ops), g)
    ensures var s' := PerformAll(s, ops);
            |Ordinary(s', g)| + |Approved(s', g)| + SpentAtLimit(s, ops, g) ==
            |Ordinary(s, g)| + |Approved(s, g)| + Granted(s, ops, g)
    ensures Constraints(PerformAll(s, ops))
  {
    if ops != [] {
      var n := |ops| - 1;
      var before := PerformAll(s, ops[..n]);
      if g in before.groups {
        ModesStay(before, ops[n], g);
      }
      ApprovalsAreConserved(s, ops[..n], g);
      PerformKeepsConstraints(before, ops[n]);
      StepBalance(before, ops[n], g);
    }
  }

  // ---------- pending requests ----------

  predicate PendingBounded(s: Tables, g: Uuid) {
    |RequestsOf(s, g, PendingRequest)| <= MAX_PENDING_JOIN_REQUESTS
  }

  lemma {:induction false} SubsetIsSmaller(a: set<Uuid>, b: set<Uuid>)
    requires a <= b
    ensures |a| <= |b|
  {
    if x :| x in a {
      SubsetIsSmaller(a - {x}, b - {x});
    }
  }

  lemma FewerPending(s: Tables, s': Tables, g: Uuid)
    requires PendingBounded(s, g)
    requires RequestsOf(s', g, PendingRequest) <= RequestsOf(s, g, PendingRequest)
    ensures PendingBounded(s', g)
  {
    SubsetIsSmaller(RequestsOf(s', g, PendingRequest), RequestsOf(s, g, PendingRequest));
  }

  lemma NewRequestPending(s: Tables, op: Op, g: Uuid)
    requires op.OpCreateJoinRequest? && PendingBounded(s, g)
    ensures PendingBounded(CreateJoinRequest(s, op.group, op.nickname, op.request, op.token).tables, g)
  {
    var step := CreateJoinRequest(s, op.group, op.nickname, op.request, op.token);
    var held, held' := RequestsOf(s, g, PendingRequest), RequestsOf(step.tables, g, PendingRequest);
    if step.result.Ok? && op.group == g {
      forall o | o != op.request ensures o in held' <==> o in held {
      }
      OneMore(held, held', op.request);
    } else {
      assert held' == held;
    }
  }

  lemma RowUpdatesTouchNoRequest(s: Tables, op: Op)
    requires op.OpUpdateMemberNickname? || op.OpSetMemberBanned?
    ensures Perform(s, op).requests == s.requests
  {
  }

  /** Only joining, asking and deciding concern requests. */
  lemma RequestsUnchanged(s: Tables, op: Op)
    requires !op.OpAuthorizeJoin? && !op.OpCreateJoinRequest? && !op.OpDecideJoinRequest?
    ensures Perform(s, op).requests == s.requests
  {
    match op
    case OpCreateGroup(_, _, _, _, _, _) => CreationChange(s, op);
    case OpRotateGroupToken(_, _, _, _) => RotationKeepsRoster(s, op);
    case OpUpdateMemberNickname(_, _, _) => RowUpdatesTouchNoRequest(s, op);
    case OpSetMemberBanned(_, _, _) => RowUpdatesTouchNoRequest(s, op);
    case _ => RoomOpsTouchNoCredential(s, op);
  }

  lemma PendingStep(s: Tables, op: Op, g: Uuid)
    requires PendingBounded(s, g)
    ensures PendingBounded(Perform(s, op), g)
  {
    match op
    case OpAuthorizeJoin(group, credential, nickname, m, token) =>
      var change := JoinEffect(s, group, credential, nickname, m, token);
      FewerPending(s, AfterJoin(s, change), g);
    case OpCreateJoinRequest(_, _, _, _) => NewRequestPending(s, op, g);
    case OpDecideJoinRequest(group, r, approve) => FewerPending(s, DecideJoinRequest(s, group, r, approve).tables, g);
    case _ =>
      RequestsUnchanged(s, op);
      FewerPending(s, Perform(s, op), g);
  }

  /** A group never has more than 256 pending requests. */
  lemma {:induction false} PendingNeverExceedsTheLimit(s: Tables, ops: seq<Op>, g: Uuid)
    requires PendingBounded(s, g)
    ensures PendingBounded(PerformAll(s, ops), g)
  {
    if ops != [] {
      var n := |ops| - 1;
      PendingNeverExceedsTheLimit(s, ops[..n], g);
      PendingStep(PerformAll(s, ops[..n]), ops[n], g);
    }
  }

  // ---------- decisions are final ----------

  /** Every request row is either gone for good reason or unchanged, except that a pending one may be decided. */
  predicate RequestEvolves(s: Tables, s': Tables, r: Uuid) {
    r in s.requests ==>
      if r in s'.requests then
        && SameToken(s'.requests[r], s.requests[r])
        && (s.requests[r].status.PendingRequest? || s'.requests[r].status == s.requests[r].status)
      else s.requests[r].status.ApprovedRequest?
  }

  lemma JoinEvolves(s: Tables, change: JoinChange, g: Uuid, credential: Option<string>, token: string, r: Uuid)
    requires Justified(s, change, g, credential, token)
    ensures RequestEvolves(s, AfterJoin(s, change), r)
  {
  }

  lemma NewRequestEvolves(s: Tables, g: Uuid, nickname: string, o: Uuid, token: string, r: Uuid)
    ensures RequestEvolves(s, CreateJoinRequest(s, g, nickname, o, token).tables, r)
  {
  }

  lemma DecisionEvolves(s: Tables, g: Uuid, o: Uuid, approve: bool, r: Uuid)
    ensures RequestEvolves(s, DecideJoinRequest(s, g, o, approve).tables, r)
  {
  }

  lemma RequestStep(s: Tables, op: Op, r: Uuid)
    ensures RequestEvolves(s, Perform(s, op), r)
  {
    match op
    case OpAuthorizeJoin(group, credential, nickname, m, token) =>
      var change := JoinEffect(s, group, credential, nickname, m, token);
      JoinEvolves(s, change, group, credential, token, r);
    case OpCreateJoinRequest(group, nickname, o, token) => NewRequestEvolves(s, group, nickname, o, token, r);
    case OpDecideJoinRequest(group, o, approve) => DecisionEvolves(s, group, o, approve, r);
    case _ => RequestsUnchanged(s, op);
  }

  /** A rejected request stays rejected, with its token, in every later state. */
  lemma {:induction false} RejectionIsFinal(s: Tables, ops: seq<Op>, r: Uuid)
    requires r in s.requests && s.requests[r].status.RejectedRequest?
    ensures var s' := PerformAll(s, ops);
            r in s'.requests && s'.requests[r].status.RejectedRequest? && SameToken(s'.requests[r], s.requests[r])
  {
    if ops != [] {
      var n := |ops| - 1;
      RejectionIsFinal(s, ops[..n], r);
      RequestStep(PerformAll(s, ops[..n]), ops[n], r);
    }
  }

  /** The holder of a rejected request is told so, whatever else happened in between: it never admits. */
  lemma RejectedRequestNeverAdmits(s: Tables, seen: set<Hash>, ops: seq<Op>, g: Uuid, r: Uuid, token: string,
                                   nickname: string, m: Uuid, drawn: string)
    requires CredentialsOk(s, seen) && FreshRun(seen, ops)
    requires RequestHas(s, r, g, HashOf(token)) && IsValidGroupCredential(token)
    requires s.requests[r].status.RejectedRequest? && s.groups[g].mode.ApprovalGroup?
    ensures AuthorizeJoin(PerformAll(s, ops), g, Some(token), nickname, m, drawn) ==
      Step(PerformAll(s, ops), Ok(Rejected))
  {
    var s' := PerformAll(s, ops);
    RejectionIsFinal(s, ops, r);
    CredentialsRun(s, seen, ops);
    ModesStayForever(s, ops, g);
    RejectedAnswer(s', SeenAfter(seen, ops), g, r, token, nickname, m, drawn);
  }

  lemma RejectedAnswer(s: Tables, seen: set<Hash>, g: Uuid, r: Uuid, token: string, nickname: string, m: Uuid,
                       drawn: string)
    requires CredentialsOk(s, seen)
    requires RequestHas(s, r, g, HashOf(token)) && IsValidGroupCredential(token)
    requires s.requests[r].status.RejectedRequest? && g in s.groups && s.groups[g].mode.ApprovalGroup?
    ensures AuthorizeJoin(s, g, Some(token), nickname, m, drawn) == Step(s, Ok(Rejected))
  {
    var h := HashOf(token);
    assert HashAt(s, RequestOf(r)) == Some(h);
    assert HashAt(s, AdminOf(g)) != Some(h);
    var found := MemberWith(s, g, h);
    if found.Some? {
      RowHome(s, found.value);
    }
    assert SameToken(s.requests[RequestWith(s, g, h).value], s.requests[r]);
  }

  lemma {:induction false} ModesStayForever(s: Tables, ops: seq<Op>, g: Uuid)
    requires g in s.groups
    ensures g in PerformAll(s, ops).groups && PerformAll(s, ops).groups[g].mode == s.groups[g].mode
  {
    if ops != [] {
      var n := |ops| - 1;
      ModesStayForever(s, ops[..n], g);
      ModesStay(PerformAll(s, ops[..n]), ops[n], g);
    }
  }
}
