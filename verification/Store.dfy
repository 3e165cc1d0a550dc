/**
 The gateway store (src/storage.rs) as a relational state machine. Every operation runs under one mutex, so each is one
 step from one set of tables to the next; a failing statement leaves the tables as they were. Fresh ids, fresh tokens
 and the clock are inputs. The credential hash is injective: `HashOf(token)` stands for the digest.
 */
module Store {
  import opened Wrappers
  import opened Protocol
  import opened Sanitizer
  import opened BodyCipher

  const MAX_PENDING_JOIN_REQUESTS := 256
  const MAX_GROUP_MEMBERS := 10_000

  datatype Hash = HashOf(token: string)

  datatype AccessMode = PublicGroup | InviteGroup | ApprovalGroup

  datatype MemberStatus = ActiveMember | BannedMember

  datatype RequestStatus = PendingRequest | ApprovedRequest | RejectedRequest

  datatype GrantRole = Owner | Guest

  datatype TokenKind = MemberToken | AdminToken | InviteToken

  datatype GroupRow = GroupRow(name: string, mode: AccessMode, adminHash: Option<Hash>, inviteHash: Option<Hash>)

  datatype MemberRow = MemberRow(group: Uuid, hash: Hash, role: GroupRole, status: MemberStatus, nickname: string)

  datatype RequestRow = RequestRow(group: Uuid, nickname: string, hash: Hash, status: RequestStatus)

  datatype RoomKey = RoomKey(group: Uuid, room: string)

  datatype RoomRow = RoomRow(name: string, visibility: RoomVisibility, nextSequence: nat)

  datatype GrantKey = GrantKey(at: RoomKey, member: Uuid)

  datatype MessageRow = MessageRow(
    at: RoomKey, sequence: nat, senderSession: Uuid, senderMember: Uuid, senderNickname: string, sentAtMs: nat,
    body: Body)

  datatype Tables = Tables(
    groups: map<Uuid, GroupRow>,
    members: map<Uuid, MemberRow>,
    requests: map<Uuid, RequestRow>,
    rooms: map<RoomKey, RoomRow>,
    grants: map<GrantKey, GrantRole>,
    messages: map<Uuid, MessageRow>)

  datatype StoreError =
    | GroupNameTaken | GroupNotFound | InvalidCredentialFormat | ConstraintFailed
    | NotAnApprovalGroup | TooManyPending | RotationNotPermitted | MemberNotFound
    | RoomNameTaken | OwnerRequired | RoomNotPrivate | ManagerRequired | TargetNotActive | RoomNotFound

  datatype JoinAuthorization =
    | Allowed(role: GroupRole, memberId: Uuid, issuedMemberToken: Option<string>)
    | InviteRequired
    | ApprovalRequired
    | Pending(requestId: Uuid, requestToken: string)
    | Rejected
    | Banned
    | MemberLimit
    | InvalidCredential

  /** The tables after an operation and what it answers. */
  datatype Step<T> = Step(tables: Tables, result: Result<T, StoreError>)

  function Fail<T>(s: Tables, error: StoreError): Step<T> {
    Step(s, Err(error))
  }

  // ---------- names, hashes and constraints ----------

  function LowerChar(c: char): char {
    if 'A' <= c <= 'Z' then (c as int + 32) as char else c
  }

  /** Comparison ignoring ASCII case: SQLite's NOCASE and Rust's `eq_ignore_ascii_case`. */
  predicate SameName(a: string, b: string) {
    |a| == |b| && forall i :: 0 <= i < |a| ==> LowerChar(a[i]) == LowerChar(b[i])
  }

  function CredentialHash(token: string): Option<Hash> {
    if IsValidGroupCredential(token) then Some(HashOf(token)) else None
  }

  predicate GroupNameUsed(s: Tables, name: string) {
    exists g :: g in s.groups && SameName(s.groups[g].name, name)
  }

  predicate RoomNameUsed(s: Tables, g: Uuid, name: string) {
    exists k :: k in s.rooms && k.group == g && SameName(s.rooms[k].name, name)
  }

  predicate MemberHas(s: Tables, m: Uuid, g: Uuid, h: Hash) {
    m in s.members && s.members[m].group == g && s.members[m].hash == h
  }

  predicate RequestHas(s: Tables, r: Uuid, g: Uuid, h: Hash) {
    r in s.requests && s.requests[r].group == g && s.requests[r].hash == h
  }

  /** The row UNIQUE(group_id, credential_hash) admits at most one of. */
  ghost function MemberWith(s: Tables, g: Uuid, h: Hash): (found: Option<Uuid>)
    ensures found.Some? ==> MemberHas(s, found.value, g, h)
    ensures found.None? ==> forall m :: !MemberHas(s, m, g, h)
  {
    if exists m :: MemberHas(s, m, g, h) then
      var m :| MemberHas(s, m, g, h);
      Some(m)
    else None
  }

  ghost function RequestWith(s: Tables, g: Uuid, h: Hash): (found: Option<Uuid>)
    ensures found.Some? ==> RequestHas(s, found.value, g, h)
    ensures found.None? ==> forall r :: !RequestHas(s, r, g, h)
  {
    if exists r :: RequestHas(s, r, g, h) then
      var r :| RequestHas(s, r, g, h);
      Some(r)
    else None
  }

  /** Inserting a member row violates neither key, nor UNIQUE(group_id, credential_hash), nor the foreign key. */
  predicate MemberInsertable(s: Tables, m: Uuid, row: MemberRow) {
    && m !in s.members
    && row.group in s.groups
    && !(exists o :: o in s.members && MemberHas(s, o, row.group, row.hash))
  }

  predicate RequestInsertable(s: Tables, r: Uuid, row: RequestRow) {
    && r !in s.requests
    && row.group in s.groups
    && !(exists o :: o in s.requests && RequestHas(s, o, row.group, row.hash))
  }

  predicate RoomInsertable(s: Tables, k: RoomKey, row: RoomRow) {
    && k !in s.rooms
    && k.group in s.groups
    && forall o :: o in s.rooms && o.group == k.group ==> s.rooms[o].name != row.name
  }

  predicate GrantInsertable(s: Tables, k: GrantKey) {
    k !in s.grants && k.at in s.rooms && k.member in s.members
  }

  predicate MessageInsertable(s: Tables, id: Uuid, row: MessageRow) {
    && id !in s.messages
    && row.at in s.rooms
    && forall o :: o in s.messages && s.messages[o].at == row.at ==> s.messages[o].sequence != row.sequence
  }

  predicate SameKey(a: MemberRow, b: MemberRow) {
    a.group == b.group && a.hash == b.hash
  }

  predicate SameToken(a: RequestRow, b: RequestRow) {
    a.group == b.group && a.hash == b.hash
  }

  /** What the schema itself guarantees: uniqueness and foreign keys. */
  predicate Constraints(s: Tables) {
    && (forall m, o :: m in s.members && o in s.members && SameKey(s.members[m], s.members[o]) ==> m == o)
    && (forall r, o :: r in s.requests && o in s.requests && SameToken(s.requests[r], s.requests[o]) ==> r == o)
    && (forall m :: m in s.members ==> s.members[m].group in s.groups)
    && (forall r :: r in s.requests ==> s.requests[r].group in s.groups)
    && (forall k :: k in s.rooms ==> k.group in s.groups)
    && (forall k :: k in s.grants ==> k.at in s.rooms && k.member in s.members)
    && (forall i :: i in s.messages ==> s.messages[i].at in s.rooms)
  }

  /** The rows of a group. */
  function RowsOf(s: Tables, g: Uuid): set<Uuid> {
    set m | m in s.members && s.members[m].group == g
  }

  function RequestsOf(s: Tables, g: Uuid, status: RequestStatus): set<Uuid> {
    set r | r in s.requests && s.requests[r].group == g && s.requests[r].status == status
  }

  // ---------- groups and members ----------

  datatype CreatedGroup = CreatedGroup(adminToken: string, inviteToken: Option<string>, creator: Uuid)

  function CreateGroup(s: Tables, name: string, mode: AccessMode, g: Uuid, creator: Uuid, admin: string, invite: string)
    : Step<CreatedGroup>
  {
    if GroupNameUsed(s, name) then Fail(s, GroupNameTaken)
    else if CredentialHash(admin).None? || (mode.InviteGroup? && CredentialHash(invite).None?) then
      Fail(s, InvalidCredentialFormat)
    else
      var inviteHash := if mode.InviteGroup? then CredentialHash(invite) else None;
      var hash := CredentialHash(admin).value;
      var general := RoomKey(g, DEFAULT_ROOM_ID);
      var withGroup := s.(groups := s.groups[g := GroupRow(name, mode, Some(hash), inviteHash)]);
      var room := RoomRow(DEFAULT_ROOM_NAME, Public, 1);
      var row := MemberRow(g, hash, Admin, ActiveMember, "administrator");
      if g in s.groups || !RoomInsertable(withGroup, general, room) || !MemberInsertable(withGroup, creator, row) then
        Fail(s, ConstraintFailed)
      else
        Step(
          withGroup.(rooms := s.rooms[general := room], members := s.members[creator := row]),
          Ok(CreatedGroup(admin, if mode.InviteGroup? then Some(invite) else None, creator)))
  }

  /** `insert_group_member`: an active row, or a failed statement. */
  function InsertMember(s: Tables, g: Uuid, m: Uuid, hash: Hash, role: GroupRole, nickname: string): Step<Uuid> {
    var row := MemberRow(g, hash, role, ActiveMember, nickname);
    if MemberInsertable(s, m, row) then Step(s.(members := s.members[m := row]), Ok(m)) else Fail(s, ConstraintFailed)
  }

  /** `issue_member`: a new ordinary membership while the group has fewer than 10,000 rows. */
  function IssueMember(s: Tables, g: Uuid, nickname: string, m: Uuid, token: string): Step<JoinAuthorization> {
    if |RowsOf(s, g)| >= MAX_GROUP_MEMBERS then Step(s, Ok(MemberLimit))
    else if CredentialHash(token).None? then Fail(s, InvalidCredentialFormat)
    else
      var inserted := InsertMember(s, g, m, CredentialHash(token).value, Member, nickname);
      match inserted.result
      case Err(error) => Fail(s, error)
      case Ok(_) => Step(inserted.tables, Ok(Allowed(Member, m, Some(token))))
  }

  /** The approval branch of `authorize_join`. The request row goes even when the member limit is reached. */
  ghost function JoinByRequest(s: Tables, g: Uuid, credential: string, nickname: string, m: Uuid, token: string)
    : Step<JoinAuthorization>
  {
    match RequestWith(s, g, HashOf(credential))
    case None => Step(s, Ok(InvalidCredential))
    case Some(r) =>
      match s.requests[r].status
      case ApprovedRequest =>
        var issued := IssueMember(s, g, nickname, m, token);
        if issued.result.Err? then issued
        else issued.(tables := issued.tables.(requests := issued.tables.requests - {r}))
      case PendingRequest => Step(s, Ok(Pending(r, credential)))
      case RejectedRequest => Step(s, Ok(Rejected))
  }

  /** What `authorize_join` does once no member row and no administrator hash matched. */
  ghost function JoinByMode(s: Tables, g: Uuid, credential: Option<string>, nickname: string, m: Uuid, token: string)
    : Step<JoinAuthorization>
    requires g in s.groups
  {
    match (s.groups[g].mode, credential)
    case (PublicGroup, None) => IssueMember(s, g, nickname, m, token)
    case (PublicGroup, Some(_)) => Step(s, Ok(InvalidCredential))
    case (InviteGroup, None) => Step(s, Ok(InviteRequired))
    case (InviteGroup, Some(supplied)) =>
      if s.groups[g].inviteHash == Some(HashOf(supplied)) then IssueMember(s, g, nickname, m, token)
      else Step(s, Ok(InvalidCredential))
    case (ApprovalGroup, None) => Step(s, Ok(ApprovalRequired))
    case (ApprovalGroup, Some(supplied)) => JoinByRequest(s, g, supplied, nickname, m, token)
  }

  ghost function AuthorizeJoin(s: Tables, g: Uuid, credential: Option<string>, nickname: string, m: Uuid, token: string)
    : Step<JoinAuthorization>
  {
    if g !in s.groups then Fail(s, GroupNotFound)
    else if credential.Some? && !IsValidGroupCredential(credential.value) then Fail(s, InvalidCredentialFormat)
    else
      var found := if credential.Some? then MemberWith(s, g, HashOf(credential.value)) else None;
      if found.Some? then
        var row := s.members[found.value];
        if row.status.BannedMember? then Step(s, Ok(Banned))
        else Step(s.(members := s.members[found.value := row.(nickname := nickname)]),
                  Ok(Allowed(row.role, found.value, None)))
      else if credential.Some? && s.groups[g].adminHash == Some(HashOf(credential.value)) then
        var inserted := InsertMember(s, g, m, HashOf(credential.value), Admin, nickname);
        match inserted.result
        case Err(error) => Fail(s, error)
        case Ok(_) => Step(inserted.tables, Ok(Allowed(Admin, m, None)))
      else JoinByMode(s, g, credential, nickname, m, token)
  }

  function CreateJoinRequest(s: Tables, g: Uuid, nickname: string, r: Uuid, token: string): Step<Uuid> {
    if g !in s.groups || !s.groups[g].mode.ApprovalGroup? then Fail(s, NotAnApprovalGroup)
    else if |RequestsOf(s, g, PendingRequest)| >= MAX_PENDING_JOIN_REQUESTS then Fail(s, TooManyPending)
    else if CredentialHash(token).None? then Fail(s, InvalidCredentialFormat)
    else
      var row := RequestRow(g, nickname, CredentialHash(token).value, PendingRequest);
      if RequestInsertable(s, r, row) then Step(s.(requests := s.requests[r := row]), Ok(r))
      else Fail(s, ConstraintFailed)
  }

  /** Only a pending request of this group changes; the answer says whether one did. */
  function DecideJoinRequest(s: Tables, g: Uuid, r: Uuid, approve: bool): Step<bool> {
    if r in s.requests && s.requests[r].group == g && s.requests[r].status.PendingRequest? then
      var status := if approve then ApprovedRequest else RejectedRequest;
      Step(s.(requests := s.requests[r := s.requests[r].(status := status)]), Ok(true))
    else Step(s, Ok(false))
  }

  function UpdateMemberNickname(s: Tables, g: Uuid, m: Uuid, nickname: string): Step<()> {
    if m in s.members && s.members[m].group == g then
      Step(s.(members := s.members[m := s.members[m].(nickname := nickname)]), Ok(()))
    else Fail(s, MemberNotFound)
  }

  function SetMemberBanned(s: Tables, g: Uuid, m: Uuid, banned: bool): Step<bool> {
    if m in s.members && s.members[m].group == g && !s.members[m].role.Admin? then
      var status := if banned then BannedMember else ActiveMember;
      Step(s.(members := s.members[m := s.members[m].(status := status)]), Ok(true))
    else Step(s, Ok(false))
  }

  predicate ActiveAs(s: Tables, g: Uuid, m: Uuid, role: GroupRole) {
    m in s.members && s.members[m].group == g && s.members[m].status.ActiveMember? && s.members[m].role == role
  }

  /** No other row of the group has this hash: the UPDATE keeps UNIQUE(group_id, credential_hash). */
  predicate HashUpdatable(s: Tables, g: Uuid, m: Uuid, hash: Hash) {
    forall o :: o in s.members && MemberHas(s, o, g, hash) ==> o == m
  }

  function RotateGroupToken(s: Tables, g: Uuid, actor: Uuid, kind: TokenKind, token: string): Step<string> {
    var needed := if kind.MemberToken? then Member else Admin;
    if !ActiveAs(s, g, actor, needed) then Fail(s, RotationNotPermitted)
    else if CredentialHash(token).None? then Fail(s, InvalidCredentialFormat)
    else
      var hash := CredentialHash(token).value;
      match kind
      case InviteToken =>
        if g in s.groups && s.groups[g].mode.InviteGroup? then
          Step(s.(groups := s.groups[g := s.groups[g].(inviteHash := Some(hash))]), Ok(token))
        else Fail(s, RotationNotPermitted)
      case _ =>
        if !HashUpdatable(s, g, actor, hash) then Fail(s, ConstraintFailed)
        else
          var groups :=
            if kind.AdminToken? && g in s.groups then s.groups[g := s.groups[g].(adminHash := Some(hash))]
            else s.groups;
          Step(s.(groups := groups, members := s.members[actor := s.members[actor].(hash := hash)]), Ok(token))
  }

  // ---------- rooms ----------

  function CreateRoom(s: Tables, g: Uuid, name: string, visibility: RoomVisibility, creator: Option<Uuid>, room: string)
    : Step<RoomSummary>
  {
    var key := RoomKey(g, room);
    var row := RoomRow(name, visibility, 1);
    if RoomNameUsed(s, g, name) then Fail(s, RoomNameTaken)
    else if visibility.Private? && creator.None? then Fail(s, OwnerRequired)
    else if !RoomInsertable(s, key, row) then Fail(s, ConstraintFailed)
    else
      var withRoom := s.(rooms := s.rooms[key := row]);
      if visibility.Public? then Step(withRoom, Ok(RoomSummary(room, name, visibility)))
      else if !GrantInsertable(withRoom, GrantKey(key, creator.value)) then Fail(s, ConstraintFailed)
      else Step(withRoom.(grants := s.grants[GrantKey(key, creator.value) := Owner]),
        Ok(RoomSummary(room, name, visibility)))
  }

  predicate IsPrivate(s: Tables, key: RoomKey) {
    key in s.rooms && s.rooms[key].visibility.Private?
  }

  predicate IsOwner(s: Tables, key: RoomKey, m: Uuid) {
    GrantKey(key, m) in s.grants && s.grants[GrantKey(key, m)].Owner?
  }

  function SetRoomMember(s: Tables, g: Uuid, room: string, actor: Uuid, actorRole: GroupRole, target: Uuid,
                         included: bool)
    : Step<bool>
  {
    var key := RoomKey(g, room);
    var grant := GrantKey(key, target);
    if !IsPrivate(s, key) then Fail(s, RoomNotPrivate)
    else if !actorRole.Admin? && !IsOwner(s, key, actor) then Fail(s, ManagerRequired)
    else if !ActiveAs(s, g, target, Member) then Fail(s, TargetNotActive)
    else if included then
      if grant in s.grants then Step(s, Ok(false)) else Step(s.(grants := s.grants[grant := Guest]), Ok(true))
    else if grant in s.grants && s.grants[grant].Guest? then Step(s.(grants := s.grants - {grant}), Ok(true))
    else Step(s, Ok(false))
  }

  /** `member_can_access_room`: public, granted, or an active administrator of the group. */
  predicate CanAccess(s: Tables, g: Uuid, room: string, m: Uuid) {
    var key := RoomKey(g, room);
    && key in s.rooms
    && (|| s.rooms[key].visibility.Public?
        || GrantKey(key, m) in s.grants
        || ActiveAs(s, g, m, Admin))
  }

  /** `rooms_for_member`, without its order. */
  function RoomsForMember(s: Tables, g: Uuid, m: Uuid): set<string> {
    set k | k in s.rooms && k.group == g
            && (|| s.rooms[k].visibility.Public?
                || GrantKey(k, m) in s.grants
                || ActiveAs(s, g, m, Admin)) :: k.room
  }

  datatype RoomMemberSummary = RoomMemberSummary(
    memberId: Uuid, nickname: string, groupRole: GroupRole, included: bool, isOwner: bool)

  /** One line of `room_members`: the LEFT JOIN of an active member with its grant. */
  function RoomMemberLine(s: Tables, key: RoomKey, m: Uuid): RoomMemberSummary
    requires m in s.members
  {
    var row := s.members[m];
    RoomMemberSummary(m, row.nickname, row.role, GrantKey(key, m) in s.grants || row.role.Admin?, IsOwner(s, key, m))
  }

  /** `room_members`, all pages together and without their order. */
  function RoomMembers(s: Tables, g: Uuid, room: string): Result<set<RoomMemberSummary>, StoreError> {
    var key := RoomKey(g, room);
    if !IsPrivate(s, key) then Err(RoomNotPrivate)
    else Ok(set m | m in s.members && s.members[m].group == g && s.members[m].status.ActiveMember? ::
              RoomMemberLine(s, key, m))
  }

  // ---------- messages ----------

  function AsciiBytes(s: string): seq<Byte> {
    seq(|s|, i requires 0 <= i < |s| => s[i] as int % 256)
  }

  function At(key: RoomKey, message: Uuid, sequence: nat): Coordinates {
    Coordinates(BigEndian(key.group, 16), AsciiBytes(key.room), BigEndian(message, 16), sequence)
  }

  /** The row a message is stored as: its body sealed to its coordinates, its time saturated to SQLite's integers. */
  function SealedRow(key: nat, at: RoomKey, id: Uuid, sequence: nat, sender: Peer, sentAtMs: nat, text: string,
                     nonce: seq<Byte>): MessageRow
  {
    MessageRow(at, sequence, sender.sessionId, sender.memberId, sender.nickname,
               if sentAtMs <= I64_MAX then sentAtMs else I64_MAX,
               Encrypted(key, At(at, id, sequence), nonce, text))
  }

  function AppendMessage(key: nat, s: Tables, g: Uuid, room: string, id: Uuid, sender: Peer, sentAtMs: nat,
                         text: string,
                         nonce: seq<Byte>): Step<ChatRecord>
  {
    var at := RoomKey(g, room);
    if at !in s.rooms then Fail(s, RoomNotFound)
    else if s.rooms[at].nextSequence >= I64_MAX then Fail(s, ConstraintFailed)
    else
      var sequence := s.rooms[at].nextSequence;
      var counted := s.(rooms := s.rooms[at := s.rooms[at].(nextSequence := sequence + 1)]);
      var row := SealedRow(key, at, id, sequence, sender, sentAtMs, text, nonce);
      if !MessageInsertable(counted, id, row) then Fail(s, ConstraintFailed)
      else Step(counted.(messages := s.messages[id := row]), Ok(ChatRecord(sequence, id, sender, room, sentAtMs, text)))
  }

  // ---------- what a join can do to the tables ----------

  datatype JoinChange =
    | Nothing
    | Renamed(member: Uuid, nickname: string)
    | Admitted(member: Uuid, row: MemberRow, spent: Option<Uuid>)
    | Spent(request: Uuid)

  function AfterJoin(s: Tables, change: JoinChange): Tables {
    match change
    case Nothing => s
    case Renamed(m, nickname) =>
      if m in s.members then s.(members := s.members[m := s.members[m].(nickname := nickname)]) else s
    case Admitted(m, row, None) => s.(members := s.members[m := row])
    case Admitted(m, row, Some(r)) => s.(members := s.members[m := row], requests := s.requests - {r})
    case Spent(r) => s.(requests := s.requests - {r})
  }

  /** The request `r` of group `g` was approved and `token` is its token. */
  predicate ApprovedFor(s: Tables, g: Uuid, r: Uuid, credential: Option<string>) {
    && credential.Some?
    && g in s.groups && s.groups[g].mode.ApprovalGroup?
    && RequestHas(s, r, g, HashOf(credential.value))
    && s.requests[r].status.ApprovedRequest?
  }

  /** When each change can happen. */
  predicate Justified(s: Tables, change: JoinChange, g: Uuid, credential: Option<string>, token: string) {
    match change
    case Nothing => true
    case Renamed(m, _) =>
      && credential.Some? && MemberHas(s, m, g, HashOf(credential.value))
      && s.members[m].status.ActiveMember?
    case Admitted(m, row, spent) =>
      && g in s.groups && MemberInsertable(s, m, row)
      && row.group == g && row.status.ActiveMember?
      && (row.role.Admin? ==>
            spent.None? && credential.Some? && row.hash == HashOf(credential.value)
              && s.groups[g].adminHash == Some(row.hash))
      && (row.role.Member? ==>
            && row.hash == HashOf(token) && |RowsOf(s, g)| < MAX_GROUP_MEMBERS
            && (spent.Some? <==> s.groups[g].mode.ApprovalGroup?))
      && (spent.Some? ==> ApprovedFor(s, g, spent.value, credential))
    case Spent(r) => ApprovedFor(s, g, r, credential) && |RowsOf(s, g)| >= MAX_GROUP_MEMBERS
  }

  /** What each change answers. */
  predicate Answered(s: Tables, change: JoinChange, g: Uuid, answer: Result<JoinAuthorization, StoreError>) {
    match change
    case Nothing =>
      answer.Ok? ==>
        && !answer.value.Allowed?
        && (answer.value.MemberLimit? ==> g in s.groups && !s.groups[g].mode.ApprovalGroup?)
    case Renamed(m, _) => m in s.members && answer == Ok(Allowed(s.members[m].role, m, None))
    case Admitted(m, row, _) => answer.Ok? && answer.value.Allowed? && answer.value.memberId == m
    case Spent(_) => answer == Ok(MemberLimit)
  }

  lemma IssueEffect(s: Tables, g: Uuid, nickname: string, m: Uuid, token: string) returns (change: JoinChange)
    ensures var issued := IssueMember(s, g, nickname, m, token);
            var row := MemberRow(g, HashOf(token), Member, ActiveMember, nickname);
            if issued.result.Ok? && issued.result.value.Allowed? then
              && change == Admitted(m, row, None) && MemberInsertable(s, m, row)
              && |RowsOf(s, g)| < MAX_GROUP_MEMBERS && issued.tables == AfterJoin(s, change)
              && issued.result == Ok(Allowed(Member, m, Some(token)))
            else
              && change == Nothing && issued.tables == s
              && (issued.result.Ok? ==> issued.result.value.MemberLimit? && |RowsOf(s, g)| >= MAX_GROUP_MEMBERS)
  {
    var issued := IssueMember(s, g, nickname, m, token);
    change :=
      if issued.result.Ok? && issued.result.value.Allowed? then
        Admitted(m, MemberRow(g, HashOf(token), Member, ActiveMember, nickname), None)
      else Nothing;
  }

  lemma RequestEffect(s: Tables, g: Uuid, credential: string, nickname: string, m: Uuid, token: string)
    returns (change: JoinChange)
    requires g in s.groups && s.groups[g].mode.ApprovalGroup?
    ensures var step := JoinByRequest(s, g, credential, nickname, m, token);
            && step.tables == AfterJoin(s, change)
            && Justified(s, change, g, Some(credential), token)
            && Answered(s, change, g, step.result)
  {
    change := Nothing;
    var found := RequestWith(s, g, HashOf(credential));
    if found.Some? && s.requests[found.value].status.ApprovedRequest? {
      var issued := IssueMember(s, g, nickname, m, token);
      change := IssueEffect(s, g, nickname, m, token);
      if issued.result.Ok? {
        change := if change.Admitted? then change.(spent := found) else Spent(found.value);
      }
    }
  }

  lemma ModeEffect(s: Tables, g: Uuid, credential: Option<string>, nickname: string, m: Uuid, token: string)
    returns (change: JoinChange)
    requires g in s.groups
    ensures var step := JoinByMode(s, g, credential, nickname, m, token);
            && step.tables == AfterJoin(s, change)
            && Justified(s, change, g, credential, token)
            && Answered(s, change, g, step.result)
  {
    if s.groups[g].mode.ApprovalGroup? {
      if credential.Some? {
        change := RequestEffect(s, g, credential.value, nickname, m, token);
      } else {
        change := Nothing;
      }
    } else if JoinByMode(s, g, credential, nickname, m, token) == IssueMember(s, g, nickname, m, token) {
      change := IssueEffect(s, g, nickname, m, token);
    } else {
      change := Nothing;
    }
  }

  /** A join renames the row its credential belongs to, admits one new row, spends a request, or does nothing. */
  lemma JoinEffect(s: Tables, g: Uuid, credential: Option<string>, nickname: string, m: Uuid, token: string)
    returns (change: JoinChange)
    ensures var step := AuthorizeJoin(s, g, credential, nickname, m, token);
            && step.tables == AfterJoin(s, change)
            && Justified(s, change, g, credential, token)
            && Answered(s, change, g, step.result)
  {
    change := Nothing;
    if g in s.groups && (credential.Some? ==> IsValidGroupCredential(credential.value)) {
      var found := if credential.Some? then MemberWith(s, g, HashOf(credential.value)) else None;
      if found.Some? {
        if s.members[found.value].status.ActiveMember? {
          change := Renamed(found.value, nickname);
        }
      } else if credential.Some? && s.groups[g].adminHash == Some(HashOf(credential.value)) {
        if InsertMember(s, g, m, HashOf(credential.value), Admin, nickname).result.Ok? {
          change := Admitted(m, MemberRow(g, HashOf(credential.value), Admin, ActiveMember, nickname), None);
        }
      } else {
        change := ModeEffect(s, g, credential, nickname, m, token);
      }
    }
  }

  // ---------- operations as data ----------

  datatype Op =
    | OpCreateGroup(name: string, mode: AccessMode, group: Uuid, creator: Uuid, admin: string, invite: string)
    | OpAuthorizeJoin(group: Uuid, credential: Option<string>, nickname: string, member: Uuid, token: string)
    | OpCreateJoinRequest(group: Uuid, nickname: string, request: Uuid, token: string)
    | OpDecideJoinRequest(group: Uuid, request: Uuid, approve: bool)
    | OpUpdateMemberNickname(group: Uuid, member: Uuid, nickname: string)
    | OpSetMemberBanned(group: Uuid, member: Uuid, banned: bool)
    | OpRotateGroupToken(group: Uuid, actor: Uuid, kind: TokenKind, token: string)
    | OpCreateRoom(group: Uuid, name: string, visibility: RoomVisibility, owner: Option<Uuid>, room: string)
    | OpSetRoomMember(group: Uuid, room: string, actor: Uuid, actorRole: GroupRole, target: Uuid, included: bool)
    | OpAppendMessage(key: nat, group: Uuid, room: string, message: Uuid, sender: Peer, sentAtMs: nat, text: string,
      nonce: seq<Byte>)

  ghost function Perform(s: Tables, op: Op): Tables {
    match op
    case OpCreateGroup(name, mode, g, creator, admin, invite) =>
      CreateGroup(s, name, mode, g, creator, admin, invite).tables
    case OpAuthorizeJoin(g, credential, nickname, m, token) =>
      AuthorizeJoin(s, g, credential, nickname, m, token).tables
    case OpCreateJoinRequest(g, nickname, r, token) => CreateJoinRequest(s, g, nickname, r, token).tables
    case OpDecideJoinRequest(g, r, approve) => DecideJoinRequest(s, g, r, approve).tables
    case OpUpdateMemberNickname(g, m, nickname) => UpdateMemberNickname(s, g, m, nickname).tables
    case OpSetMemberBanned(g, m, banned) => SetMemberBanned(s, g, m, banned).tables
    case OpRotateGroupToken(g, actor, kind, token) => RotateGroupToken(s, g, actor, kind, token).tables
    case OpCreateRoom(g, name, visibility, owner, room) => CreateRoom(s, g, name, visibility, owner, room).tables
    case OpSetRoomMember(g, room, actor, role, target, included) =>
      SetRoomMember(s, g, room, actor, role, target, included).tables
    case OpAppendMessage(key, g, room, id, sender, sentAtMs, text, nonce) =>
      AppendMessage(key, s, g, room, id, sender, sentAtMs, text, nonce).tables
  }

  /** The tables after a run of operations. */
  ghost function PerformAll(s: Tables, ops: seq<Op>): Tables {
    if ops == [] then s else Perform(PerformAll(s, ops[..|ops| - 1]), ops[|ops| - 1])
  }

  // ---------- constraints are kept ----------

  lemma CreateGroupKeepsConstraints(s: Tables, name: string, mode: AccessMode, g: Uuid, creator: Uuid, admin: string,
                                    invite: string)
    requires Constraints(s)
    ensures Constraints(CreateGroup(s, name, mode, g, creator, admin, invite).tables)
  {
  }

  lemma AdmissionKeepsConstraints(s: Tables, m: Uuid, row: MemberRow)
    requires Constraints(s) && MemberInsertable(s, m, row)
    ensures Constraints(s.(members := s.members[m := row]))
  {
  }

  lemma SpendingKeepsConstraints(s: Tables, r: Uuid)
    requires Constraints(s)
    ensures Constraints(s.(requests := s.requests - {r}))
  {
  }

  lemma JoinChangeKeepsConstraints(s: Tables, change: JoinChange, g: Uuid, credential: Option<string>, token: string)
    requires Constraints(s) && Justified(s, change, g, credential, token)
    ensures Constraints(AfterJoin(s, change))
  {
    match change
    case Nothing =>
    case Renamed(m, nickname) => NicknameKeepsConstraints(s, g, m, nickname);
    case Admitted(m, row, spent) =>
      AdmissionKeepsConstraints(s, m, row);
      if spent.Some? {
        SpendingKeepsConstraints(s.(members := s.members[m := row]), spent.value);
      }
    case Spent(r) => SpendingKeepsConstraints(s, r);
  }

  lemma AuthorizeJoinKeepsConstraints(s: Tables, g: Uuid, credential: Option<string>, nickname: string, m: Uuid,
                                      token: string)
    requires Constraints(s)
    ensures Constraints(AuthorizeJoin(s, g, credential, nickname, m, token).tables)
  {
    var change := JoinEffect(s, g, credential, nickname, m, token);
    JoinChangeKeepsConstraints(s, change, g, credential, token);
  }

  lemma RotationKeepsConstraints(s: Tables, g: Uuid, actor: Uuid, kind: TokenKind, token: string)
    requires Constraints(s)
    ensures Constraints(RotateGroupToken(s, g, actor, kind, token).tables)
  {
  }

  lemma AppendKeepsConstraints(key: nat, s: Tables, g: Uuid, room: string, id: Uuid, sender: Peer, sentAtMs: nat,
                               text: string, nonce: seq<Byte>)
    requires Constraints(s)
    ensures Constraints(AppendMessage(key, s, g, room, id, sender, sentAtMs, text, nonce).tables)
  {
  }

  lemma CreateRoomKeepsConstraints(s: Tables, g: Uuid, name: string, visibility: RoomVisibility,
                                   creator: Option<Uuid>, room: string)
    requires Constraints(s)
    ensures Constraints(CreateRoom(s, g, name, visibility, creator, room).tables)
  {
  }

  lemma SetRoomMemberKeepsConstraints(s: Tables, g: Uuid, room: string, actor: Uuid, role: GroupRole, target: Uuid,
                                      included: bool)
    requires Constraints(s)
    ensures Constraints(SetRoomMember(s, g, room, actor, role, target, included).tables)
  {
  }

  lemma NicknameKeepsConstraints(s: Tables, g: Uuid, m: Uuid, nickname: string)
    requires Constraints(s)
    ensures Constraints(UpdateMemberNickname(s, g, m, nickname).tables)
  {
  }

  lemma BanKeepsConstraints(s: Tables, g: Uuid, m: Uuid, banned: bool)
    requires Constraints(s)
    ensures Constraints(SetMemberBanned(s, g, m, banned).tables)
  {
  }

  lemma RequestsKeepConstraints(s: Tables, g: Uuid, nickname: string, r: Uuid, token: string)
    requires Constraints(s)
    ensures Constraints(CreateJoinRequest(s, g, nickname, r, token).tables)
  {
  }

  lemma DecisionKeepsConstraints(s: Tables, g: Uuid, r: Uuid, approve: bool)
    requires Constraints(s)
    ensures Constraints(DecideJoinRequest(s, g, r, approve).tables)
  {
  }

  /** No operation, whatever ids and tokens it is given, leaves tables the schema would refuse. */
  lemma PerformKeepsConstraints(s: Tables, op: Op)
    requires Constraints(s)
    ensures Constraints(Perform(s, op))
  {
    match op
    case OpCreateGroup(name, mode, g, creator, admin, invite) =>
      CreateGroupKeepsConstraints(s, name, mode, g, creator, admin, invite);
    case OpAuthorizeJoin(g, credential, nickname, m, token) =>
      AuthorizeJoinKeepsConstraints(s, g, credential, nickname, m, token);
    case OpRotateGroupToken(g, actor, kind, token) => RotationKeepsConstraints(s, g, actor, kind, token);
    case OpCreateRoom(g, name, visibility, owner, room) =>
      CreateRoomKeepsConstraints(s, g, name, visibility, owner, room);
    case OpSetRoomMember(g, room, actor, role, target, included) =>
      SetRoomMemberKeepsConstraints(s, g, room, actor, role, target, included);
    case OpAppendMessage(key, g, room, id, sender, sentAtMs, text, nonce) =>
      AppendKeepsConstraints(key, s, g, room, id, sender, sentAtMs, text, nonce);
    case OpUpdateMemberNickname(g, m, nickname) => NicknameKeepsConstraints(s, g, m, nickname);
    case OpSetMemberBanned(g, m, banned) => BanKeepsConstraints(s, g, m, banned);
    case OpCreateJoinRequest(g, nickname, r, token) => RequestsKeepConstraints(s, g, nickname, r, token);
    case OpDecideJoinRequest(g, r, approve) => DecisionKeepsConstraints(s, g, r, approve);
  }
}
