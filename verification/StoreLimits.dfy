/**
 What the member limit does and does not promise: the one way past 10,000 rows, with a run that takes it, and the one
 way an approval is used up without admitting its holder, with a store in which it happens.
 */
module StoreLimits {
  import opened Wrappers
  import opened Protocol
  import opened Sanitizer
  import opened Text
  import opened Store
  import opened StoreCredentials
  import opened StoreApprovals
  import opened StoreMembers
  import opened StoreAdmission

  // ---------- past the limit ----------

  /** The administrator token is presented to a full group that has no administrator row, under an unused row id. */
  predicate PassesTheLimit(s: Tables, op: Op, g: Uuid) {
    && |RowsOf(s, g)| == MAX_GROUP_MEMBERS
    && op.OpAuthorizeJoin? && op.group == g && g in s.groups
    && op.credential.Some? && IsValidGroupCredential(op.credential.value)
    && s.groups[g].adminHash == Some(HashOf(op.credential.value))
    && !HasAdminRow(s, g) && op.member !in s.members
  }

  lemma JoinPastTheLimit(s: Tables, op: Op, change: JoinChange, g: Uuid)
    requires op.OpAuthorizeJoin? && AdminRowsMatch(s) && |RowsOf(s, g)| <= MAX_GROUP_MEMBERS
    requires Justified(s, change, op.group, op.credential, op.token)
    ensures |RowsOf(AfterJoin(s, change), g)| > MAX_GROUP_MEMBERS ==>
              change.Admitted? && change.row.role.Admin? && op.group == g
              && |RowsOf(s, g)| == MAX_GROUP_MEMBERS && !HasAdminRow(s, g)
  {
    var s' := AfterJoin(s, change);
    if change.Admitted? {
      NewRow(s, s', change.member, change.row, g);
      if change.row.role.Admin? {
        AdminRowNeedsAnEmptyPlace(s, change.member, change.row);
      }
    } else {
      assert RowsOf(s', g) == RowsOf(s, g);
    }
  }

  /** A token that is the administrator's is on no row of a group without an administrator row. */
  lemma AdministratorTokenIsOnNoRow(s: Tables, seen: set<Hash>, g: Uuid, h: Hash)
    requires CredentialsOk(s, seen) && g in s.groups && s.groups[g].adminHash == Some(h) && !HasAdminRow(s, g)
    ensures MemberWith(s, g, h).None?
  {
    var found := MemberWith(s, g, h);
    assert HashAt(s, AdminOf(g)) == Some(h);
    if found.Some? {
      RowHome(s, found.value);
    }
  }

  lemma FirstAdministratorGetsIn(s: Tables, seen: set<Hash>, op: Op, g: Uuid)
    requires CredentialsOk(s, seen) && PassesTheLimit(s, op, g)
    ensures |RowsOf(Perform(s, op), g)| == MAX_GROUP_MEMBERS + 1
  {
    var h := HashOf(op.credential.value);
    AdministratorTokenIsOnNoRow(s, seen, g, h);
    var row := MemberRow(g, h, Admin, ActiveMember, op.nickname);
    var s' := AuthorizeJoin(s, g, op.credential, op.nickname, op.member, op.token).tables;
    assert MemberInsertable(s, op.member, row);
    assert s'.members == s.members[op.member := row];
    NewRow(s, s', op.member, row, g);
  }

  lemma JoinPassesTheLimit(s: Tables, seen: set<Hash>, op: Op, g: Uuid)
    requires op.OpAuthorizeJoin? && CredentialsOk(s, seen) && |RowsOf(s, g)| <= MAX_GROUP_MEMBERS
    ensures |RowsOf(Perform(s, op), g)| > MAX_GROUP_MEMBERS <==> PassesTheLimit(s, op, g)
  {
    if PassesTheLimit(s, op, g) {
      FirstAdministratorGetsIn(s, seen, op, g);
    } else {
      var change := JoinEffect(s, op.group, op.credential, op.nickname, op.member, op.token);
      JoinPastTheLimit(s, op, change, g);
      if change.Admitted? && change.row.role.Admin? && op.member !in s.members {
        FallbackMakesTheAdminRow(s, op);
      }
    }
  }

  lemma NewGroupIsSmall(s: Tables, op: Op, g: Uuid)
    requires op.OpCreateGroup? && Constraints(s) && |RowsOf(s, g)| <= MAX_GROUP_MEMBERS
    ensures |RowsOf(Perform(s, op), g)| <= MAX_GROUP_MEMBERS
  {
    var s' := Perform(s, op);
    CreationChange(s, op);
    if s' != s {
      NewRow(s, s', op.creator, s'.members[op.creator], g);
      if g == op.group {
        assert RowsOf(s, g) == {};
      }
    }
  }

  /**
   A group grows past 10,000 rows in exactly one way: it is full, it has an administrator hash but no administrator row,
   as migrated groups do, and the administrator's token is presented.
   */
  lemma OnlyTheFirstAdministratorPassesTheLimit(s: Tables, seen: set<Hash>, op: Op, g: Uuid)
    requires CredentialsOk(s, seen) && |RowsOf(s, g)| <= MAX_GROUP_MEMBERS
    ensures |RowsOf(Perform(s, op), g)| > MAX_GROUP_MEMBERS <==> PassesTheLimit(s, op, g)
  {
    if op.OpAuthorizeJoin? {
      JoinPassesTheLimit(s, seen, op, g);
    } else if op.OpCreateGroup? {
      NewGroupIsSmall(s, op, g);
    } else {
      RosterStays(s, op);
      assert RowsOf(Perform(s, op), g) == RowsOf(s, g);
    }
  }

  // ---------- a crowd ----------

  function Letter(n: nat): char
    requires n < 25
  {
    'a' + n as char
  }

  /** A three-letter credential for each number below 15,625. */
  function Token(n: nat): string {
    [Letter(n / 625 % 25), Letter(n / 25 % 25), Letter(n % 25)]
  }

  /** Three digits to the base 25 give the number back. */
  lemma Digits(n: nat)
    requires n < 15_625
    ensures n == 625 * (n / 625 % 25) + 25 * (n / 25 % 25) + n % 25
  {
    var q := n / 25;
    assert n == 25 * q + n % 25;
    assert q / 25 == n / 625;
    assert q == 25 * (q / 25) + q % 25;
  }

  lemma TokensDiffer(m: nat, n: nat)
    requires m < 15_625 && n < 15_625 && Token(m) == Token(n)
    ensures m == n
  {
    var s, t := Token(m), Token(n);
    assert s[0] == t[0] && s[1] == t[1] && s[2] == t[2];
    Digits(m);
    Digits(n);
  }

  lemma TokenIsValid(n: nat)
    ensures IsValidGroupCredential(Token(n))
  {
    AsciiByteLength(Token(n));
  }

  function Guest(n: nat): MemberRow {
    MemberRow(0, HashOf(Token(n)), Member, ActiveMember, "guest")
  }

  function Guests(n: nat): map<Uuid, MemberRow> {
    map i: nat | i < n :: Guest(i)
  }

  lemma {:induction false} GuestCount(n: nat)
    ensures |Guests(n).Keys| == n
  {
    if n > 0 {
      GuestCount(n - 1);
      var fewer, all := Guests(n - 1).Keys, Guests(n).Keys;
      forall i ensures i in all <==> i in fewer || i == n - 1 {
      }
      OneMore(fewer, all, n - 1);
    }
  }

  lemma GuestRows(s: Tables, n: nat)
    requires s.members == Guests(n)
    ensures |RowsOf(s, 0)| == n
  {
    GuestCount(n);
    assert RowsOf(s, 0) == Guests(n).Keys;
  }

  // ---------- a run past the limit ----------

  /** A public group without member rows, as a migration leaves it, and none of the guests' tokens in use. */
  predicate Vacant(s: Tables, seen: set<Hash>) {
    && 0 in s.groups && s.groups[0].mode.PublicGroup? && s.members == map[]
    && forall m :: 0 <= m < 15_625 ==> HashOf(Token(m)) !in seen
  }

  /** Without a credential a public group with room admits anybody. */
  lemma PublicJoin(s: Tables, op: Op)
    requires op.OpAuthorizeJoin? && op.credential.None? && op.group in s.groups && s.groups[op.group].mode.PublicGroup?
    requires HasRoom(s, op.group) && IsValidGroupCredential(op.token)
    requires MemberInsertable(s, op.member, MemberRow(op.group, HashOf(op.token), Member, ActiveMember, op.nickname))
    ensures Perform(s, op) ==
            s.(members := s.members[op.member :=
              MemberRow(op.group, HashOf(op.token), Member, ActiveMember, op.nickname)])
  {
  }

  lemma GuestIsNew(s: Tables, n: nat)
    requires n < 15_625 && 0 in s.groups && s.members == Guests(n)
    ensures MemberInsertable(s, n, Guest(n))
  {
    forall o | o in s.members ensures !MemberHas(s, o, 0, HashOf(Token(n))) {
      if Token(o) == Token(n) {
        TokensDiffer(o, n);
      }
    }
  }

  lemma GuestsGrow(n: nat)
    ensures Guests(n + 1) == Guests(n)[n := Guest(n)]
  {
  }

  function GuestOp(n: nat): Op {
    OpAuthorizeJoin(0, None, "guest", n, Token(n))
  }

  lemma GuestJoins(s: Tables, n: nat)
    requires n < MAX_GROUP_MEMBERS && 0 in s.groups && s.groups[0].mode.PublicGroup? && s.members == Guests(n)
    ensures Perform(s, GuestOp(n)) == s.(members := Guests(n + 1))
  {
    GuestRows(s, n);
    TokenIsValid(n);
    GuestIsNew(s, n);
    GuestsGrow(n);
    PublicJoin(s, GuestOp(n));
  }

  lemma RunGoesOn(s: Tables, ops: seq<Op>, op: Op)
    ensures PerformAll(s, ops + [op]) == Perform(PerformAll(s, ops), op)
  {
    assert (ops + [op])[..|ops + [op]| - 1] == ops;
  }

  lemma RunIsFresh(seen: set<Hash>, ops: seq<Op>, op: Op)
    ensures SeenAfter(seen, ops + [op]) == SeenAfter(seen, ops) + Drawn(op)
    ensures FreshRun(seen, ops + [op]) <==> FreshRun(seen, ops) && FreshOp(op, SeenAfter(seen, ops))
  {
    assert (ops + [op])[..|ops + [op]| - 1] == ops;
  }

  lemma JoinIsFresh(op: Op, seen: set<Hash>)
    requires op.OpAuthorizeJoin? && HashOf(op.token) !in seen
    ensures FreshOp(op, seen) && Drawn(op) == {HashOf(op.token)}
  {
  }

  lemma LaterGuestsAreUnknown(seen: set<Hash>, n: nat, m: nat)
    requires n < m < 15_625 && HashOf(Token(m)) !in seen
    ensures HashOf(Token(m)) !in seen + {HashOf(Token(n))}
  {
    if Token(m) == Token(n) {
      TokensDiffer(m, n);
    }
  }

  /** The tokens of the guests from `n` on were not seen yet. */
  predicate GuestsUnknown(seen: set<Hash>, n: nat) {
    forall m :: n <= m < 15_625 ==> HashOf(Token(m)) !in seen
  }

  lemma GuestFollows(s: Tables, front: seq<Op>, n: nat)
    requires n < MAX_GROUP_MEMBERS && 0 in s.groups && s.groups[0].mode.PublicGroup?
    requires PerformAll(s, front) == s.(members := Guests(n))
    ensures PerformAll(s, front + [GuestOp(n)]) == s.(members := Guests(n + 1))
  {
    RunGoesOn(s, front, GuestOp(n));
    GuestJoins(s.(members := Guests(n)), n);
  }

  lemma GuestIsFresh(seen: set<Hash>, front: seq<Op>, n: nat)
    requires n < MAX_GROUP_MEMBERS && FreshRun(seen, front) && GuestsUnknown(SeenAfter(seen, front), n)
    ensures FreshRun(seen, front + [GuestOp(n)]) && GuestsUnknown(SeenAfter(seen, front + [GuestOp(n)]), n + 1)
  {
    JoinIsFresh(GuestOp(n), SeenAfter(seen, front));
    RunIsFresh(seen, front, GuestOp(n));
    forall m | n + 1 <= m < 15_625 ensures HashOf(Token(m)) !in SeenAfter(seen, front + [GuestOp(n)]) {
      LaterGuestsAreUnknown(SeenAfter(seen, front), n, m);
    }
  }

  /** Up to ten thousand guests join without a credential, one after the other. */
  lemma {:induction false} CrowdGetsIn(s: Tables, seen: set<Hash>, n: nat) returns (ops: seq<Op>)
    requires Vacant(s, seen) && n <= MAX_GROUP_MEMBERS
    ensures PerformAll(s, ops) == s.(members := Guests(n))
    ensures FreshRun(seen, ops) && GuestsUnknown(SeenAfter(seen, ops), n)
  {
    if n == 0 {
      ops := [];
      assert Guests(0) == map[];
    } else {
      var front := CrowdGetsIn(s, seen, n - 1);
      ops := front + [GuestOp(n - 1)];
      GuestFollows(s, front, n - 1);
      GuestIsFresh(seen, front, n - 1);
    }
  }

  lemma AdministratorComesBack(s: Tables, seen: set<Hash>, op: Op)
    requires CredentialsOk(s, seen) && s.members == Guests(MAX_GROUP_MEMBERS) && 0 in s.groups
    requires op.OpAuthorizeJoin? && op.group == 0 && op.member == MAX_GROUP_MEMBERS
    requires op.credential.Some? && IsValidGroupCredential(op.credential.value)
    requires s.groups[0].adminHash == Some(HashOf(op.credential.value))
    ensures |RowsOf(Perform(s, op), 0)| == 10_001
  {
    GuestRows(s, MAX_GROUP_MEMBERS);
    FirstAdministratorGetsIn(s, seen, op, 0);
  }

  /**
   The limit can be passed. In any store opened with a public group that has an administrator hash, 10,000 guests join
   and then the administrator comes back: row 10,001.
   */
  lemma TheLimitCanBePassed(s: Tables, seen: set<Hash>, administrator: string) returns (ops: seq<Op>)
    requires CredentialsOk(s, seen) && Vacant(s, seen) && IsValidGroupCredential(administrator)
    requires s.groups[0].adminHash == Some(HashOf(administrator))
    ensures FreshRun(seen, ops) && |RowsOf(PerformAll(s, ops), 0)| == 10_001
  {
    var n := MAX_GROUP_MEMBERS;
    var crowd := CrowdGetsIn(s, seen, n);
    var op := OpAuthorizeJoin(0, Some(administrator), "admin", n, Token(n));
    ops := crowd + [op];
    JoinIsFresh(op, SeenAfter(seen, crowd));
    RunIsFresh(seen, crowd, op);
    RunGoesOn(s, crowd, op);
    CredentialsRun(s, seen, crowd);
    AdministratorComesBack(s.(members := Guests(n)), SeenAfter(seen, crowd), op);
  }

  /** Such a store exists. */
  lemma AMigratedGroupIsOpened()
    ensures var s := Tables(map[0 := GroupRow("lan", PublicGroup, Some(HashOf("admin")), None)], map[], map[],
      map[], map[], map[]);
            Opened(s, {HashOf("admin")}) && CredentialsOk(s, {HashOf("admin")}) && Vacant(s, {HashOf("admin")})
  {
    assert forall m :: 0 <= m < 15_625 ==> |Token(m)| != |"admin"|;
  }

  // ---------- an approval that admits nobody ----------

  /**
   With a fresh membership drawn, an approved request admits its holder if and only if the group has room; the request
   is gone and its token spent either way.
   */
  lemma ApprovalAdmitsUnlessFull(s: Tables, seen: set<Hash>, op: Op, r: Uuid)
    requires op.OpAuthorizeJoin? && CredentialsOk(s, seen) && FreshMembership(s, seen, op.member, op.token)
    requires ApprovedFor(s, op.group, r, op.credential) && IsValidGroupCredential(op.credential.value)
    ensures Perform(s, op).members == s.members <==> |RowsOf(s, op.group)| >= MAX_GROUP_MEMBERS
    ensures SpendsAtLimit(s, op, op.group) <==> |RowsOf(s, op.group)| >= MAX_GROUP_MEMBERS
    ensures Perform(s, op).requests == s.requests - {r}
  {
    var g, h := op.group, HashOf(op.credential.value);
    assert HashAt(s, RequestOf(r)) == Some(h) && HashAt(s, AdminOf(g)) != Some(h);
    var found := MemberWith(s, g, h);
    if found.Some? {
      RowHome(s, found.value);
    }
    FreshInserts(s, seen, g, op.member, op.token, op.nickname);
    assert SameToken(s.requests[RequestWith(s, g, h).value], s.requests[r]);
    var step := AuthorizeJoin(s, g, op.credential, op.nickname, op.member, op.token);
    if HasRoom(s, g) {
      assert op.member in step.tables.members;
    }
  }

  /** An approval group of 10,000 guests with one approved request, whose token is none of theirs. */
  predicate FullOfGuests(s: Tables, late: string) {
    && s.groups == map[0 := GroupRow("lan", ApprovalGroup, None, None)]
    && s.members == Guests(MAX_GROUP_MEMBERS)
    && s.requests == map[0 := RequestRow(0, "late", HashOf(late), ApprovedRequest)]
    && s.rooms == map[] && s.grants == map[] && s.messages == map[]
    && |late| != 3
  }

  /** Every hash that is live. */
  function LiveHashes(s: Tables): set<Hash> {
    (set m | m in s.members :: s.members[m].hash) + (set r | r in s.requests :: s.requests[r].hash)
  }

  lemma FullConstraints(s: Tables, late: string)
    requires FullOfGuests(s, late)
    ensures Constraints(s)
  {
    forall m, o | m in s.members && o in s.members && SameKey(s.members[m], s.members[o]) ensures m == o {
      TokensDiffer(m, o);
    }
  }

  lemma FullHomes(s: Tables, late: string, a: Home)
    requires FullOfGuests(s, late) && HashAt(s, a).Some?
    ensures a == RequestOf(0)
      || (a.MemberOf? && a.member < MAX_GROUP_MEMBERS && HashAt(s, a) == Some(HashOf(Token(a.member))))
    ensures HashAt(s, a).value in LiveHashes(s)
  {
  }

  lemma FullGroupIsInOrder(s: Tables, late: string)
    requires FullOfGuests(s, late)
    ensures CredentialsOk(s, LiveHashes(s))
  {
    FullConstraints(s, late);
    forall a, b | HashAt(s, a).Some? && HashAt(s, a) == HashAt(s, b) ensures a == b {
      FullHomes(s, late, a);
      FullHomes(s, late, b);
      if a.MemberOf? && b.MemberOf? {
        TokensDiffer(a.member, b.member);
      }
    }
    forall a | HashAt(s, a).Some? ensures HashAt(s, a).value in LiveHashes(s) {
      FullHomes(s, late, a);
    }
  }

  /** It happens: the holder of an approval presents its token, nobody is admitted, and the request is no more. */
  lemma AnApprovalCanAdmitNobody(s: Tables, late: string, drawn: string)
    requires FullOfGuests(s, late) && IsValidGroupCredential(late)
    requires IsValidGroupCredential(drawn) && HashOf(drawn) !in LiveHashes(s)
    ensures CredentialsOk(s, LiveHashes(s)) && ApprovedFor(s, 0, 0, Some(late))
    ensures var step := AuthorizeJoin(s, 0, Some(late), "late", MAX_GROUP_MEMBERS, drawn);
            step.result == Ok(MemberLimit) && step.tables == s.(requests := map[])
  {
    FullGroupIsInOrder(s, late);
    GuestRows(s, MAX_GROUP_MEMBERS);
    var op := OpAuthorizeJoin(0, Some(late), "late", MAX_GROUP_MEMBERS, drawn);
    ApprovalAdmitsUnlessFull(s, LiveHashes(s), op, 0);
    SpendingIsAnsweredMemberLimit(s, op, 0);
    var change := JoinEffect(s, 0, op.credential, op.nickname, op.member, op.token);
  }
}
