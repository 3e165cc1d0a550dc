/**
 Room creation in one group at the granularity of await points (src/server.rs, `handle_create_room`): any number of
 creators take the creation lock, check the cache, persist the room, cache it and let go, while everything else goes on.
 The table is the store's; persisting is the store's own operation.
 */
module RoomCreation {
  import opened Wrappers
  import opened Protocol
  import opened BodyCipher
  import opened Store
  import opened StoreCredentials
  import opened StoreMembers
  import opened StoreRooms

  const MAX_ROOMS := 64

  /** How far a creator has come. `Cached` still holds the lock: the guard lives to the end of the handler. */
  datatype Phase = Waiting | Holding | Checked | Persisted(room: RoomSummary) | Cached | Finished

  datatype Creator = Creator(name: string, visibility: RoomVisibility, owner: Uuid, phase: Phase)

  datatype State = State(tables: Tables, cache: map<string, RoomSummary>, lock: Option<nat>, creators: map<nat,
  Creator>)

  datatype Action =
    | Start(task: nat, name: string, visibility: RoomVisibility, owner: Uuid)
    | Acquire(task: nat)
    | Check(task: nat)
    | Persist(task: nat, room: string)
    | Insert(task: nat)
    | Release(task: nat)
    | Elsewhere(op: Op)

  predicate NameCached(cache: map<string, RoomSummary>, name: string) {
    exists r :: r in cache && SameName(cache[r].roomName, name)
  }

  predicate InPhase(st: State, task: nat, phase: Phase) {
    task in st.creators && st.creators[task].phase == phase
  }

  function Moved(st: State, task: nat, phase: Phase): State
    requires task in st.creators
  {
    st.(creators := st.creators[task := st.creators[task].(phase := phase)])
  }

  /** The handler returns; its guard is dropped. */
  function Returned(st: State, task: nat): State
    requires task in st.creators
  {
    Moved(st, task, Finished).(lock := None)
  }

  function Persisting(g: Uuid, st: State, task: nat, room: string): State
    requires task in st.creators
  {
    var c := st.creators[task];
    var step := CreateRoom(st.tables, g, c.name, c.visibility, Some(c.owner), room);
    match step.result
    case Err(_) => Returned(st, task)
    case Ok(summary) => Moved(st, task, Persisted(summary)).(tables := step.tables)
  }

  /** One action of group `g`; an action that is not enabled does nothing. */
  ghost function Take(g: Uuid, st: State, a: Action): State {
    match a
    case Start(task, name, visibility, owner) =>
      if task in st.creators then st
      else st.(creators := st.creators[task := Creator(name, visibility, owner, Waiting)])
    case Acquire(task) =>
      if InPhase(st, task, Waiting) && st.lock.None? then Moved(st, task, Holding).(lock := Some(task)) else st
    case Check(task) =>
      if !InPhase(st, task, Holding) then st
      else if |st.cache| >= MAX_ROOMS || NameCached(st.cache, st.creators[task].name) then Returned(st, task)
      else Moved(st, task, Checked)
    case Persist(task, room) => if InPhase(st, task, Checked) then Persisting(g, st, task, room) else st
    case Insert(task) =>
      if task in st.creators && st.creators[task].phase.Persisted? then
        var room := st.creators[task].phase.room;
        Moved(st, task, Cached).(cache := st.cache[room.roomId := room])
      else st
    case Release(task) => if InPhase(st, task, Cached) then Returned(st, task) else st
    case Elsewhere(op) => if op.OpCreateRoom? && op.group == g then st else st.(tables := Perform(st.tables, op))
  }

  ghost function TakeAll(g: Uuid, st: State, actions: seq<Action>): State {
    if actions == [] then st else Take(g, TakeAll(g, st, actions[..|actions| - 1]), actions[|actions| - 1])
  }

  // ---------- the invariant ----------

  predicate InCritical(phase: Phase) {
    phase.Holding? || phase.Checked? || phase.Persisted? || phase.Cached?
  }

  /** The lock is held by exactly the creator between acquiring and returning. */
  predicate LockHeld(st: State) {
    && (st.lock.Some? ==> st.lock.value in st.creators)
    && forall t :: t in st.creators ==> (InCritical(st.creators[t].phase) <==> st.lock == Some(t))
  }

  /** The room persisted but not cached yet, if any. */
  function Uncached(st: State): (room: Option<RoomSummary>)
  {
    if st.lock.Some? && st.lock.value in st.creators && st.creators[st.lock.value].phase.Persisted? then
      Some(st.creators[st.lock.value].phase.room)
    else None
  }

  /** What the table's rooms of the group look like once the uncached one is cached. */
  function Expected(st: State): map<string, RoomSummary> {
    match Uncached(st)
    case None => st.cache
    case Some(room) => st.cache[room.roomId := room]
  }

  /** A cache that says of the group's rooms exactly what the table says. */
  ghost predicate Mirrors(g: Uuid, s: Tables, cache: map<string, RoomSummary>) {
    && (forall key :: key in s.rooms && key.group == g ==> key.room in cache)
    && (forall r :: r in cache ==>
          var key := RoomKey(g, r);
          key in s.rooms && cache[r] == RoomSummary(r, s.rooms[key].name, s.rooms[key].visibility))
  }

  predicate NamesDistinct(cache: map<string, RoomSummary>) {
    forall q, r :: q in cache && r in cache && SameName(cache[q].roomName, cache[r].roomName) ==> q == r
  }

  predicate Cleared(st: State) {
    st.lock.Some? && st.lock.value in st.creators && st.creators[st.lock.value].phase.Checked? ==>
      |st.cache| < MAX_ROOMS && !NameCached(st.cache, st.creators[st.lock.value].name)
  }

  ghost predicate Inv(g: Uuid, st: State) {
    && g in st.tables.groups
    && LockHeld(st)
    && Mirrors(g, st.tables, Expected(st))
    && NamesDistinct(Expected(st))
    && |Expected(st)| <= MAX_ROOMS
    && (Uncached(st).Some? ==> Uncached(st).value.roomId !in st.cache)
    && Cleared(st)
  }

  // ---------- one action ----------

  /** While the check stands, the store's own name check cannot fail: it would have failed on the cache. */
  lemma CheckedNameIsFree(g: Uuid, st: State, task: nat)
    requires Inv(g, st) && InPhase(st, task, Checked)
    ensures !RoomNameUsed(st.tables, g, st.creators[task].name)
  {
  }

  lemma OneMoreName(cache: map<string, RoomSummary>, room: RoomSummary)
    requires NamesDistinct(cache) && room.roomId !in cache && !NameCached(cache, room.roomName)
    ensures NamesDistinct(cache[room.roomId := room])
    ensures |cache[room.roomId := room]| == |cache| + 1
  {
  }

  lemma PersistMirrors(g: Uuid, s: Tables, s': Tables, cache: map<string, RoomSummary>, room: RoomSummary)
    requires Mirrors(g, s, cache) && RoomKey(g, room.roomId) !in s.rooms
    requires s'.rooms == s.rooms[RoomKey(g, room.roomId) := RoomRow(room.roomName, room.visibility, 1)]
    ensures room.roomId !in cache && Mirrors(g, s', cache[room.roomId := room])
  {
  }

  lemma PersistKeepsInv(g: Uuid, st: State, task: nat, room: string)
    requires Inv(g, st) && InPhase(st, task, Checked)
    ensures Inv(g, Persisting(g, st, task, room))
  {
    assert st.lock == Some(task);
    var c := st.creators[task];
    var step := CreateRoom(st.tables, g, c.name, c.visibility, Some(c.owner), room);
    var st' := Persisting(g, st, task, room);
    CreationRooms(st.tables, g, c.name, c.visibility, Some(c.owner), room);
    if step.result.Ok? {
      var summary := RoomSummary(room, c.name, c.visibility);
      assert step.result.value == summary;
      PersistMirrors(g, st.tables, step.tables, st.cache, summary);
      OneMoreName(st.cache, summary);
      assert Uncached(st') == Some(summary);
      CreateRoomKeepsGroups(st.tables, g, c.name, c.visibility, Some(c.owner), room);
    }
  }

  lemma CreateRoomKeepsGroups(s: Tables, g: Uuid, name: string, visibility: RoomVisibility, creator: Option<Uuid>,
                              room: string)
    ensures CreateRoom(s, g, name, visibility, creator, room).tables.groups == s.groups
  {
  }

  lemma MovingKeepsInv(g: Uuid, st: State, task: nat, from: Phase, to: Phase, lock: Option<nat>)
    requires Inv(g, st) && InPhase(st, task, from) && !from.Persisted? && !to.Persisted? && !to.Checked?
    requires if from.Waiting? then st.lock.None? else InCritical(from)
    requires lock == (if InCritical(to) then Some(task) else None)
    ensures Inv(g, Moved(st, task, to).(lock := lock))
  {
  }

  lemma CheckingKeepsInv(g: Uuid, st: State, task: nat)
    requires Inv(g, st) && InPhase(st, task, Holding)
    requires |st.cache| < MAX_ROOMS && !NameCached(st.cache, st.creators[task].name)
    ensures Inv(g, Moved(st, task, Checked))
  {
  }

  lemma InsertingKeepsInv(g: Uuid, st: State, task: nat)
    requires Inv(g, st) && task in st.creators && st.creators[task].phase.Persisted?
    ensures Inv(g, Take(g, st, Insert(task)))
  {
    assert Expected(Take(g, st, Insert(task))) == Expected(st);
  }

  lemma StartingKeepsInv(g: Uuid, st: State, task: nat, creator: Creator)
    requires Inv(g, st) && task !in st.creators && creator.phase.Waiting?
    ensures Inv(g, st.(creators := st.creators[task := creator]))
  {
  }

  lemma LockedStepKeepsInv(g: Uuid, st: State, a: Action)
    requires Inv(g, st) && !a.Persist? && !a.Elsewhere?
    ensures Inv(g, Take(g, st, a))
  {
    match a
    case Start(task, name, visibility, owner) =>
      if task !in st.creators {
        StartingKeepsInv(g, st, task, Creator(name, visibility, owner, Waiting));
      }
    case Acquire(task) =>
      if InPhase(st, task, Waiting) && st.lock.None? {
        MovingKeepsInv(g, st, task, Waiting, Holding, Some(task));
      }
    case Check(task) =>
      if InPhase(st, task, Holding) {
        if |st.cache| >= MAX_ROOMS || NameCached(st.cache, st.creators[task].name) {
          MovingKeepsInv(g, st, task, Holding, Finished, None);
        } else {
          CheckingKeepsInv(g, st, task);
        }
      }
    case Insert(task) =>
      if task in st.creators && st.creators[task].phase.Persisted? {
        InsertingKeepsInv(g, st, task);
      }
    case Release(task) =>
      if InPhase(st, task, Cached) {
        MovingKeepsInv(g, st, task, Cached, Finished, None);
      }
  }

  /** The group's rooms are as before, up to their counters. */
  ghost predicate SameRooms(g: Uuid, s: Tables, s': Tables) {
    && (g in s.groups ==> g in s'.groups)
    && (forall key: RoomKey :: key.group == g ==> (key in s'.rooms <==> key in s.rooms))
    && (forall key: RoomKey :: key.group == g && key in s.rooms ==>
          s'.rooms[key].name == s.rooms[key].name && s'.rooms[key].visibility == s.rooms[key].visibility)
  }

  lemma NewGroupElsewhere(g: Uuid, s: Tables, name: string, mode: AccessMode, group: Uuid, creator: Uuid,
                          admin: string, invite: string)
    requires g in s.groups
    ensures SameRooms(g, s, CreateGroup(s, name, mode, group, creator, admin, invite).tables)
  {
  }

  lemma AppendElsewhere(g: Uuid, s: Tables, key: nat, group: Uuid, room: string, id: Uuid, sender: Peer, sentAtMs: nat,
                        text: string, nonce: seq<Byte>)
    ensures SameRooms(g, s, AppendMessage(key, s, group, room, id, sender, sentAtMs, text, nonce).tables)
  {
  }

  /** Members, requests, tokens and lists are not rooms. */
  lemma RowOpsKeepRooms(s: Tables, op: Op)
    requires op.OpAuthorizeJoin? || op.OpRotateGroupToken?
    ensures Perform(s, op).rooms == s.rooms
    ensures s.groups.Keys <= Perform(s, op).groups.Keys
  {
    if op.OpAuthorizeJoin? {
      var change := JoinEffect(s, op.group, op.credential, op.nickname, op.member, op.token);
    } else {
      RotationChange(s, op);
    }
  }

  lemma ElsewhereKeepsRooms(g: Uuid, s: Tables, op: Op)
    requires g in s.groups && !(op.OpCreateRoom? && op.group == g)
    ensures SameRooms(g, s, Perform(s, op))
  {
    match op
    case OpCreateGroup(name, mode, group, creator, admin, invite) =>
      NewGroupElsewhere(g, s, name, mode, group, creator, admin, invite);
    case OpCreateRoom(group, name, visibility, owner, room) =>
      CreationRooms(s, group, name, visibility, owner, room);
      CreateRoomKeepsGroups(s, group, name, visibility, owner, room);
    case OpSetRoomMember(group, room, actor, role, target, included) =>
      SharingChangesOneEntry(s, group, room, actor, role, target, included);
    case OpAppendMessage(key, group, room, id, sender, sentAtMs, text, nonce) =>
      AppendElsewhere(g, s, key, group, room, id, sender, sentAtMs, text, nonce);
    case OpAuthorizeJoin(_, _, _, _, _) => RowOpsKeepRooms(s, op);
    case OpRotateGroupToken(_, _, _, _) => RowOpsKeepRooms(s, op);
    case _ =>
  }

  lemma ElsewhereKeepsInv(g: Uuid, st: State, op: Op)
    requires Inv(g, st) && !(op.OpCreateRoom? && op.group == g)
    ensures Inv(g, st.(tables := Perform(st.tables, op)))
  {
    ElsewhereKeepsRooms(g, st.tables, op);
  }

  lemma TakeKeepsInv(g: Uuid, st: State, a: Action)
    requires Inv(g, st)
    ensures Inv(g, Take(g, st, a))
  {
    match a
    case Persist(task, room) =>
      if InPhase(st, task, Checked) {
        PersistKeepsInv(g, st, task, room);
      }
    case Elsewhere(op) =>
      if !(op.OpCreateRoom? && op.group == g) {
        ElsewhereKeepsInv(g, st, op);
      }
    case _ => LockedStepKeepsInv(g, st, a);
  }

  // ---------- whole runs ----------

  /** At load, or for a group just made: the cache is the table, within the limit, names distinct, nobody creating. */
  ghost predicate Loaded(g: Uuid, st: State) {
    && g in st.tables.groups
    && st.lock.None? && st.creators == map[]
    && Mirrors(g, st.tables, st.cache) && NamesDistinct(st.cache) && |st.cache| <= MAX_ROOMS
  }

  const GENERAL := RoomSummary(DEFAULT_ROOM_ID, DEFAULT_ROOM_NAME, Public)

  lemma GeneralAloneIsLoaded(g: Uuid, s: Tables, others: map<RoomKey, RoomRow>)
    requires g in s.groups && forall key :: key in others ==> key.group != g
    requires s.rooms == others[RoomKey(g, DEFAULT_ROOM_ID) := RoomRow(DEFAULT_ROOM_NAME, Public, 1)]
    ensures Loaded(g, State(s, map[DEFAULT_ROOM_ID := GENERAL], None, map[]))
  {
    assert RoomKey(g, DEFAULT_ROOM_ID) in s.rooms;
  }

  /** A group just made has its general room in the table and in the cache. */
  lemma CreatedGroupIsLoaded(s: Tables, name: string, mode: AccessMode, g: Uuid, creator: Uuid, admin: string,
                             invite: string)
    requires Constraints(s) && CreateGroup(s, name, mode, g, creator, admin, invite).result.Ok?
    ensures Loaded(g, State(CreateGroup(s, name, mode, g, creator, admin, invite).tables,
                            map[DEFAULT_ROOM_ID := GENERAL], None, map[]))
  {
    GeneralAloneIsLoaded(g, CreateGroup(s, name, mode, g, creator, admin, invite).tables, s.rooms);
  }

  /** A group has its public general room, and no two of its rooms share a name whatever the case of their letters. */
  predicate RoomsInPlace(s: Tables, g: Uuid) {
    var general := RoomKey(g, DEFAULT_ROOM_ID);
    && general in s.rooms && s.rooms[general].visibility.Public?
    && forall key, other ::
         (key in s.rooms && other in s.rooms && key.group == other.group == g
           && SameName(s.rooms[key].name, s.rooms[other].name))
         ==> key == other
  }

  predicate GroupsHaveRooms(s: Tables) {
    forall g :: g in s.groups ==> RoomsInPlace(s, g)
  }

  lemma NewGroupHasRooms(s: Tables, name: string, mode: AccessMode, g: Uuid, creator: Uuid, admin: string,
                         invite: string)
    requires Constraints(s) && CreateGroup(s, name, mode, g, creator, admin, invite).result.Ok?
    ensures RoomsInPlace(CreateGroup(s, name, mode, g, creator, admin, invite).tables, g)
  {
    var s' := CreateGroup(s, name, mode, g, creator, admin, invite).tables;
    assert s'.rooms == s.rooms[RoomKey(g, DEFAULT_ROOM_ID) := RoomRow(DEFAULT_ROOM_NAME, Public, 1)];
    assert forall key :: key in s.rooms ==> key.group != g;
  }

  lemma NewRoomIsDistinct(s: Tables, g: Uuid, name: string, visibility: RoomVisibility, creator: Option<Uuid>,
                          room: string)
    requires RoomsInPlace(s, g)
    ensures RoomsInPlace(CreateRoom(s, g, name, visibility, creator, room).tables, g)
  {
    CreationRooms(s, g, name, visibility, creator, room);
  }

  lemma SameRoomsInPlace(s: Tables, s': Tables, g: Uuid)
    requires RoomsInPlace(s, g) && SameRooms(g, s, s')
    ensures RoomsInPlace(s', g)
  {
  }

  lemma RoomsStayInPlace(s: Tables, op: Op, g: Uuid)
    requires g in s.groups && RoomsInPlace(s, g)
    ensures RoomsInPlace(Perform(s, op), g)
  {
    if op.OpCreateRoom? && op.group == g {
      NewRoomIsDistinct(s, g, op.name, op.visibility, op.owner, op.room);
    } else {
      ElsewhereKeepsRooms(g, s, op);
      SameRoomsInPlace(s, Perform(s, op), g);
    }
  }

  lemma JoinMakesNoGroup(s: Tables, op: Op)
    requires op.OpAuthorizeJoin? || op.OpRotateGroupToken?
    ensures Perform(s, op).groups.Keys == s.groups.Keys
  {
    if op.OpAuthorizeJoin? {
      var change := JoinEffect(s, op.group, op.credential, op.nickname, op.member, op.token);
    } else {
      RotationChange(s, op);
    }
  }

  lemma RequestsMakeNoGroup(s: Tables, op: Op)
    requires op.OpCreateJoinRequest? || op.OpDecideJoinRequest?
    ensures Perform(s, op).groups == s.groups
  {
  }

  /** Only `create_group` makes groups. */
  lemma NoOtherOpMakesAGroup(s: Tables, op: Op)
    requires !op.OpCreateGroup?
    ensures Perform(s, op).groups.Keys == s.groups.Keys
  {
    match op
    case OpAuthorizeJoin(_, _, _, _, _) => JoinMakesNoGroup(s, op);
    case OpRotateGroupToken(_, _, _, _) => JoinMakesNoGroup(s, op);
    case OpUpdateMemberNickname(group, m, nickname) => NicknameTouchesNoCredential(s, group, m, nickname);
    case OpSetMemberBanned(group, m, banned) => BanTouchesNoCredential(s, group, m, banned);
    case OpCreateJoinRequest(_, _, _, _) => RequestsMakeNoGroup(s, op);
    case OpDecideJoinRequest(_, _, _) => RequestsMakeNoGroup(s, op);
    case _ => RoomOpsTouchNoCredential(s, op);
  }

  lemma GroupsAppearWithRooms(s: Tables, op: Op, g: Uuid)
    requires Constraints(s) && g !in s.groups && g in Perform(s, op).groups
    ensures RoomsInPlace(Perform(s, op), g)
  {
    if op.OpCreateGroup? {
      CreationChange(s, op);
      NewGroupHasRooms(s, op.name, op.mode, g, op.creator, op.admin, op.invite);
    } else {
      NoOtherOpMakesAGroup(s, op);
    }
  }

  /** In every reachable store every group has its general room and distinct names, also the groups made on the way. */
  lemma {:induction false} GroupsKeepTheirRooms(s: Tables, ops: seq<Op>)
    requires Constraints(s) && GroupsHaveRooms(s)
    ensures Constraints(PerformAll(s, ops)) && GroupsHaveRooms(PerformAll(s, ops))
  {
    if ops != [] {
      var n := |ops| - 1;
      GroupsKeepTheirRooms(s, ops[..n]);
      var before := PerformAll(s, ops[..n]);
      PerformKeepsConstraints(before, ops[n]);
      forall g | g in Perform(before, ops[n]).groups ensures RoomsInPlace(Perform(before, ops[n]), g) {
        if g in before.groups {
          RoomsStayInPlace(before, ops[n], g);
        } else {
          GroupsAppearWithRooms(before, ops[n], g);
        }
      }
    }
  }

  /** The cache `load_groups` reads from the table. */
  function CacheOf(g: Uuid, s: Tables): map<string, RoomSummary> {
    map key | key in s.rooms && key.group == g ::
      key.room := RoomSummary(key.room, s.rooms[key].name, s.rooms[key].visibility)
  }

  lemma CacheMirrors(g: Uuid, s: Tables)
    requires RoomsInPlace(s, g)
    ensures Mirrors(g, s, CacheOf(g, s)) && NamesDistinct(CacheOf(g, s))
    ensures DEFAULT_ROOM_ID in CacheOf(g, s) && CacheOf(g, s)[DEFAULT_ROOM_ID].visibility.Public?
  {
    assert RoomKey(g, DEFAULT_ROOM_ID) in s.rooms;
  }

  /**
   After a restart a group of any reachable store is loaded as the theorems below assume, if it has at most 64 rooms.
   */
  lemma ReloadedGroupIsLoaded(s: Tables, ops: seq<Op>, g: Uuid)
    requires Constraints(s) && GroupsHaveRooms(s) && g in PerformAll(s, ops).groups
    requires |CacheOf(g, PerformAll(s, ops))| <= MAX_ROOMS
    ensures var later := PerformAll(s, ops);
            Loaded(g, State(later, CacheOf(g, later), None, map[]))
  {
    GroupsKeepTheirRooms(s, ops);
    CacheMirrors(g, PerformAll(s, ops));
  }

  lemma {:induction false} InvHolds(g: Uuid, st: State, actions: seq<Action>)
    requires Loaded(g, st) || Inv(g, st)
    ensures Inv(g, TakeAll(g, st, actions))
  {
    if actions != [] {
      var n := |actions| - 1;
      InvHolds(g, st, actions[..n]);
      TakeKeepsInv(g, TakeAll(g, st, actions[..n]), actions[n]);
    }
  }

  /** The ids of a group's rooms in the table. */
  function RoomIds(g: Uuid, s: Tables): set<string> {
    set key | key in s.rooms && key.group == g :: key.room
  }

  lemma MirroredIds(g: Uuid, s: Tables, cache: map<string, RoomSummary>)
    requires Mirrors(g, s, cache)
    ensures RoomIds(g, s) == cache.Keys
  {
  }

  /**
   However the creators interleave, the table holds the cached rooms and at most one more: the room the lock holder has
   persisted and not cached yet. Neither holds more than 64 rooms.
   */
  lemma CacheAndTableAgree(g: Uuid, st: State, actions: seq<Action>)
    requires Loaded(g, st)
    ensures var end := TakeAll(g, st, actions);
            && (Uncached(end).None? ==> RoomIds(g, end.tables) == end.cache.Keys)
            && (Uncached(end).Some? ==>
                  && end.lock.Some?
                  && Uncached(end).value.roomId !in end.cache
                  && RoomIds(g, end.tables) == end.cache.Keys + {Uncached(end).value.roomId})
            && |end.cache| <= 64 && |RoomIds(g, end.tables)| <= 64
            && forall r :: r in end.cache ==>
                 && RoomKey(g, r) in end.tables.rooms
                 && var row := end.tables.rooms[RoomKey(g, r)];
                    end.cache[r] == RoomSummary(r, row.name, row.visibility)
  {
    InvHolds(g, st, actions);
    var end := TakeAll(g, st, actions);
    MirroredIds(g, end.tables, Expected(end));
    if Uncached(end).Some? {
      assert Expected(end).Keys == end.cache.Keys + {Uncached(end).value.roomId};
    }
  }

  /** No two rooms of the group have the same name, in the table as in the cache, whatever the case of their letters. */
  lemma RoomNamesAreDistinct(g: Uuid, st: State, actions: seq<Action>)
    requires Loaded(g, st)
    ensures var rooms := TakeAll(g, st, actions).tables.rooms;
            forall key, other ::
              (key in rooms && other in rooms && key.group == other.group == g
                && SameName(rooms[key].name, rooms[other].name))
              ==> key == other
  {
    InvHolds(g, st, actions);
    var end := TakeAll(g, st, actions);
    var rooms := end.tables.rooms;
    forall key, other |
      key in rooms && other in rooms && key.group == other.group == g && SameName(rooms[key].name, rooms[other].name)
      ensures key == other
    {
      assert key == RoomKey(g, key.room) && other == RoomKey(g, other.room);
      assert key.room in Expected(end) && other.room in Expected(end);
    }
  }

  /** A checked creator is refused by the store only for its random id or its owner row: never for the name. */
  lemma PersistNeverMeetsAUsedName(g: Uuid, st: State, actions: seq<Action>, task: nat, room: string)
    requires Loaded(g, st) && InPhase(TakeAll(g, st, actions), task, Checked)
    ensures var end := TakeAll(g, st, actions);
            var c := end.creators[task];
            CreateRoom(end.tables, g, c.name, c.visibility, Some(c.owner), room).result != Err(RoomNameTaken)
  {
    InvHolds(g, st, actions);
    CheckedNameIsFree(g, TakeAll(g, st, actions), task);
  }

  /** At most `n` of its own actions are left until creator `t` has returned. */
  predicate Remaining(st: State, t: nat, n: nat) {
    && t in st.creators
    && match st.creators[t].phase
       case Holding => st.lock == Some(t) && n >= 4
       case Checked => st.lock == Some(t) && n >= 3
       case Persisted(_) => st.lock == Some(t) && n >= 2
       case Cached => st.lock == Some(t) && n >= 1
       case Finished => st.lock.None?
       case Waiting => false
  }

  lemma OwnActionsAdvance(g: Uuid, st: State, t: nat, room: string)
    ensures Remaining(st, t, 4) ==> Remaining(Take(g, st, Check(t)), t, 3)
    ensures Remaining(st, t, 3) ==> Remaining(Take(g, st, Persist(t, room)), t, 2)
    ensures Remaining(st, t, 2) ==> Remaining(Take(g, st, Insert(t)), t, 1)
    ensures Remaining(st, t, 1) ==> Remaining(Take(g, st, Release(t)), t, 0)
  {
  }

  /** The lock is never stuck: from any moment its holder needs no one else to reach the end of its handler. */
  lemma HolderFinishesAlone(g: Uuid, st: State, actions: seq<Action>, room: string)
    requires Loaded(g, st) && TakeAll(g, st, actions).lock.Some?
    ensures var end := TakeAll(g, st, actions);
            var t := end.lock.value;
            var checked := Take(g, end, Check(t));
            var persisted := Take(g, checked, Persist(t, room));
            var inserted := Take(g, persisted, Insert(t));
            var released := Take(g, inserted, Release(t));
            released.lock.None? && InPhase(released, t, Finished)
  {
    InvHolds(g, st, actions);
    var end := TakeAll(g, st, actions);
    var t := end.lock.value;
    assert Remaining(end, t, 4);
    OwnActionsAdvance(g, end, t, room);
    var checked := Take(g, end, Check(t));
    OwnActionsAdvance(g, checked, t, room);
    var persisted := Take(g, checked, Persist(t, room));
    OwnActionsAdvance(g, persisted, t, room);
    OwnActionsAdvance(g, Take(g, persisted, Insert(t)), t, room);
  }

  /** What an action does to the store. */
  lemma TablesStep(g: Uuid, st: State, a: Action) returns (op: Option<Op>)
    ensures Take(g, st, a).tables == if op.Some? then Perform(st.tables, op.value) else st.tables
  {
    op := None;
    match a
    case Persist(task, room) =>
      if InPhase(st, task, Checked) {
        var c := st.creators[task];
        CreationRooms(st.tables, g, c.name, c.visibility, Some(c.owner), room);
        op := Some(OpCreateRoom(g, c.name, c.visibility, Some(c.owner), room));
      }
    case Elsewhere(used) =>
      if !(used.OpCreateRoom? && used.group == g) {
        op := Some(used);
      }
    case _ =>
  }

  lemma {:induction false} ConstraintsHold(g: Uuid, st: State, actions: seq<Action>)
    requires Constraints(st.tables)
    ensures Constraints(TakeAll(g, st, actions).tables)
  {
    if actions != [] {
      var n := |actions| - 1;
      ConstraintsHold(g, st, actions[..n]);
      var before := TakeAll(g, st, actions[..n]);
      var op := TablesStep(g, before, actions[n]);
      if op.Some? {
        PerformKeepsConstraints(before.tables, op.value);
      }
    }
  }

  /** The group has a place for a room of this name and id, and its owner has a row if the room is private. */
  predicate HasPlace(g: Uuid, s: Tables, name: string, visibility: RoomVisibility, owner: Uuid, room: string) {
    && |RoomIds(g, s)| < 64 && !RoomNameUsed(s, g, name)
    && RoomKey(g, room) !in s.rooms && (visibility.Private? ==> owner in s.members)
  }

  lemma CheckedExactly(g: Uuid, st: State, t: nat)
    requires Inv(g, st) && InPhase(st, t, Holding)
    ensures RoomIds(g, st.tables) == st.cache.Keys
    ensures RoomNameUsed(st.tables, g, st.creators[t].name) <==> NameCached(st.cache, st.creators[t].name)
  {
    assert Uncached(st).None?;
    MirroredIds(g, st.tables, st.cache);
    var name := st.creators[t].name;
    if r :| r in st.cache && SameName(st.cache[r].roomName, name) {
      assert SameName(st.tables.rooms[RoomKey(g, r)].name, name);
    }
  }

  /** A checked holder in its last three actions. */
  lemma CheckedHolderFinishes(g: Uuid, st: State, t: nat, room: string)
    requires InPhase(st, t, Checked)
    ensures var c := st.creators[t];
            var step := CreateRoom(st.tables, g, c.name, c.visibility, Some(c.owner), room);
            var done := Take(g, Take(g, Take(g, st, Persist(t, room)), Insert(t)), Release(t));
            && InPhase(done, t, Finished) && done.lock.None? && done.tables == step.tables
            && done.cache ==
               if step.result.Ok? then st.cache[step.result.value.roomId := step.result.value] else st.cache
  {
    var c := st.creators[t];
    CreationRooms(st.tables, g, c.name, c.visibility, Some(c.owner), room);
  }

  /** A creator turned away at the check has returned, and its other actions do nothing. */
  lemma FinishedStays(g: Uuid, st: State, t: nat, room: string)
    requires InPhase(st, t, Finished)
    ensures Take(g, Take(g, Take(g, st, Persist(t, room)), Insert(t)), Release(t)) == st
  {
  }

  lemma PlacedExactly(g: Uuid, s: Tables, name: string, visibility: RoomVisibility, owner: Uuid, room: string)
    requires Constraints(s) && g in s.groups && |RoomIds(g, s)| < 64 && !RoomNameUsed(s, g, name)
    ensures var step := CreateRoom(s, g, name, visibility, Some(owner), room);
            var key := RoomKey(g, room);
            if HasPlace(g, s, name, visibility, owner, room) then
              && step.result == Ok(RoomSummary(room, name, visibility))
              && step.tables.rooms == s.rooms[key := RoomRow(name, visibility, 1)]
              && (visibility.Private? ==> IsOwner(step.tables, key, owner))
            else step.tables == s && step.result.Err?
  {
    CreationAnswers(s, g, name, visibility, Some(owner), room);
    CreationRooms(s, g, name, visibility, Some(owner), room);
    CreationGrants(s, g, name, visibility, Some(owner), room);
  }

  /** What four actions of the lock's holder make of a state. */
  ghost function HolderAlone(g: Uuid, st: State, t: nat, room: string): State {
    Take(g, Take(g, Take(g, Take(g, st, Check(t)), Persist(t, room)), Insert(t)), Release(t))
  }

  ghost predicate CreatedExactly(g: Uuid, st: State, t: nat, room: string)
    requires t in st.creators
  {
    var c := st.creators[t];
    var done := HolderAlone(g, st, t, room);
    var key := RoomKey(g, room);
    && InPhase(done, t, Finished) && done.lock.None?
    && if HasPlace(g, st.tables, c.name, c.visibility, c.owner, room) then
         && done.tables.rooms == st.tables.rooms[key := RoomRow(c.name, c.visibility, 1)]
         && done.cache == st.cache[room := RoomSummary(room, c.name, c.visibility)]
         && (c.visibility.Private? ==> IsOwner(done.tables, key, c.owner))
       else done.tables == st.tables && done.cache == st.cache
  }

  lemma HolderCreates(g: Uuid, st: State, t: nat, room: string)
    requires Inv(g, st) && Constraints(st.tables) && InPhase(st, t, Holding)
    ensures CreatedExactly(g, st, t, room)
  {
    var c := st.creators[t];
    CheckedExactly(g, st, t);
    var checked := Take(g, st, Check(t));
    if |st.cache| >= MAX_ROOMS || NameCached(st.cache, c.name) {
      FinishedStays(g, checked, t, room);
    } else {
      PlacedExactly(g, st.tables, c.name, c.visibility, c.owner, room);
      CheckedHolderFinishes(g, checked, t, room);
    }
  }

  /**
   What the holder of the lock achieves, from any moment and whatever led to it: with a place in the table the room is
   persisted and cached, owned by its creator if private; without one nothing changes.
   */
  lemma HolderCreatesExactly(g: Uuid, st: State, actions: seq<Action>, t: nat, room: string)
    requires Loaded(g, st) && Constraints(st.tables) && InPhase(TakeAll(g, st, actions), t, Holding)
    ensures CreatedExactly(g, TakeAll(g, st, actions), t, room)
  {
    InvHolds(g, st, actions);
    ConstraintsHold(g, st, actions);
    HolderCreates(g, TakeAll(g, st, actions), t, room);
  }
}
