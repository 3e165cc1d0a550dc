/**
 Every frame the gateway builds from a room's history fits, in every reachable state: what sessions put into the store
 went through the sanitizers, so the records that come out of it are as small as Frames needs them to be.
 */
module GatewayFrames {
  import opened Wrappers
  import opened Text
  import opened Protocol
  import opened Sanitizer
  import opened BodyCipher
  import opened Frames
  import opened Store
  import opened StoreMessages
  import opened HistoryPaging
  import opened RoomCreation
  import opened Sessions
  import opened SessionGuarantees

  // ---------- the invariant ----------

  /** A stored message that opens to a clean text, from a bounded nickname in a room with a proper id. */
  predicate RowPresentable(key: nat, i: Uuid, row: MessageRow) {
    && IsSafeIdentifier(row.at.room) && row.sequence < U64_LIMIT && row.sentAtMs < U64_LIMIT
    && LineOfAtMost(row.senderNickname, MAX_NICKNAME_CHARS)
    && var text := Decrypted(key, Store.At(row.at, i, row.sequence), row.body);
       text.Ok? ==> CleanChat(text.value)
  }

  predicate RowsPresentable(key: nat, g: Uuid, s: Tables) {
    forall i :: i in s.messages && s.messages[i].at.group == g ==> RowPresentable(key, i, s.messages[i])
  }

  predicate PeerPresentable(peer: Peer) {
    LineOfAtMost(peer.nickname, MAX_NICKNAME_CHARS) && DirectInfoBounded(peer.direct)
  }

  predicate Presentable(key: nat, g: Uuid, r: Registry) {
    && RowsPresentable(key, g, r.tables)
    && (forall s :: s in r.clients ==> PeerPresentable(r.clients[s].peer))
    && (forall q :: q in r.cache ==> RoomBounded(r.cache[q]))
  }

  /**
   What the environment hands the gateway: a socket address prints in at most 58 characters, the id drawn for a room is
   a proper identifier, and the clock is a `u64`.
   */
  predicate WellFormed(e: Event) {
    match e
    case Entered(_, _, _, direct, _) => direct.Some? ==> LineOfAtMost(direct.value.endpoint, 58)
    case CreateAsked(_, _, _, room, _) => IsSafeIdentifier(room)
    case Spoken(draft) => draft.now < U64_LIMIT
    case _ => true
  }

  // ---------- every event keeps it ----------

  lemma AdmittedPeer(session: Uuid, member: Uuid, rawNickname: string, direct: Option<DirectInfo>)
    requires direct.Some? ==> LineOfAtMost(direct.value.endpoint, 58)
    ensures var peer := Hello(session, member, rawNickname, direct);
            peer.Some? ==> PeerPresentable(peer.value)
  {
    if SanitizedLine(rawNickname, MAX_NICKNAME_CHARS).Ok? {
      AcceptedLine(rawNickname, MAX_NICKNAME_CHARS);
    }
  }

  lemma PeersStay(key: nat, g: Uuid, r: Registry, e: Event)
    requires WellFormed(e) && forall s :: s in r.clients ==> PeerPresentable(r.clients[s].peer)
    ensures forall s :: s in After(key, g, r, e).clients ==> PeerPresentable(After(key, g, r, e).clients[s].peer)
  {
    match e
    case Entered(session, member, rawNickname, direct, role) => AdmittedPeer(session, member, rawNickname, direct);
    case CreateAsked(session, rawName, visibility, room, readable) =>
      if session in r.clients {
        var name := CreateOutcome(g, r, session, rawName, visibility, room, readable);
      }
    case Spoken(draft) => ChatOutcome(key, g, r, draft);
    case _ =>
  }

  lemma CacheStaysBounded(key: nat, g: Uuid, r: Registry, e: Event)
    requires WellFormed(e) && forall q :: q in r.cache ==> RoomBounded(r.cache[q])
    ensures forall q :: q in After(key, g, r, e).cache ==> RoomBounded(After(key, g, r, e).cache[q])
  {
    match e
    case CreateAsked(session, rawName, visibility, room, readable) =>
      if session in r.clients {
        var name := CreateOutcome(g, r, session, rawName, visibility, room, readable);
        if SanitizedLine(rawName, MAX_NICKNAME_CHARS).Ok? {
          AcceptedLine(rawName, MAX_NICKNAME_CHARS);
        }
      }
    case Spoken(draft) => ChatOutcome(key, g, r, draft);
    case _ =>
  }

  /** What a session appends is presentable. */
  lemma AppendedRow(key: nat, g: Uuid, s: Tables, op: Op)
    requires op.OpAppendMessage? && op.group == g && op.key == key && RowsPresentable(key, g, s)
    requires IsSafeIdentifier(op.room) && LineOfAtMost(op.sender.nickname, MAX_NICKNAME_CHARS) && CleanChat(op.text)
    ensures RowsPresentable(key, g,
              AppendMessage(op.key, s, op.group, op.room, op.message, op.sender, op.sentAtMs, op.text, op.nonce).tables)
  {
  }

  lemma AppendedElsewhere(key: nat, g: Uuid, s: Tables, op: Op)
    requires op.OpAppendMessage? && op.group != g && RowsPresentable(key, g, s)
    ensures RowsPresentable(key, g,
              AppendMessage(op.key, s, op.group, op.room, op.message, op.sender, op.sentAtMs, op.text, op.nonce).tables)
  {
  }

  lemma RowsStay(key: nat, g: Uuid, r: Registry, e: Event)
    requires Presentable(key, g, r) && WellFormed(e)
    ensures RowsPresentable(key, g, After(key, g, r, e).tables)
  {
    var op := StoreStep(key, g, r, e);
    if op.Some? && !op.value.OpAppendMessage? {
      MostStepsAreQuiet(r.tables, op.value);
    } else if op.Some? && op.value.group == g {
      AcceptedChatIsClean(e.draft.text);
      AppendedRow(key, g, r.tables, op.value);
    } else if op.Some? {
      AppendedElsewhere(key, g, r.tables, op.value);
    }
  }

  lemma {:induction false} GroupsStayPresentable(key: nat, g: Uuid, r: Registry, events: seq<Event>)
    requires Presentable(key, g, r) && forall i :: 0 <= i < |events| ==> WellFormed(events[i])
    ensures Presentable(key, g, AfterAll(key, g, r, events))
  {
    if events != [] {
      var n := |events| - 1;
      assert forall i :: 0 <= i < n ==> events[..n][i] == events[i];
      GroupsStayPresentable(key, g, r, events[..n]);
      var before := AfterAll(key, g, r, events[..n]);
      RowsStay(key, g, before, events[n]);
      PeersStay(key, g, before, events[n]);
      CacheStaysBounded(key, g, before, events[n]);
    }
  }

  lemma PlainNameIsBounded(name: string)
    requires 0 < |name| <= MAX_NICKNAME_CHARS && forall i :: 0 <= i < |name| ==> 'a' <= name[i] <= 'z'
    ensures IsSafeIdentifier(name) && LineOfAtMost(name, MAX_NICKNAME_CHARS)
  {
    AsciiByteLength(name);
  }

  lemma GeneralIsBounded()
    ensures RoomBounded(GENERAL)
  {
    PlainNameIsBounded(DEFAULT_ROOM_ID);
    PlainNameIsBounded(DEFAULT_ROOM_NAME);
  }

  lemma NoMessagesYet(key: nat, g: Uuid, s: Tables, s': Tables)
    requires Constraints(s) && g !in s.groups && s'.messages == s.messages
    ensures RowsPresentable(key, g, s')
  {
    assert forall i :: i in s.messages ==> s.messages[i].at.group != g;
  }

  /** A group just made is presentable. */
  lemma CreatedGroupIsPresentable(key: nat, s: Tables, name: string, mode: AccessMode, g: Uuid, creator: Uuid,
                                  admin: string, invite: string)
    requires Constraints(s) && CreateGroup(s, name, mode, g, creator, admin, invite).result.Ok?
    ensures Presentable(key, g, Registry(CreateGroup(s, name, mode, g, creator, admin, invite).tables,
                                         map[DEFAULT_ROOM_ID := GENERAL], map[]))
  {
    GeneralIsBounded();
    CreationIsQuiet(s, name, mode, g, creator, admin, invite);
    NoMessagesYet(key, g, s, CreateGroup(s, name, mode, g, creator, admin, invite).tables);
  }

  // ---------- the frames ----------

  /** Every record a query answers is small enough, and there are no more than asked for. */
  lemma {:induction false} QueriedRecords(key: nat, s: Tables, at: RoomKey, before: Option<nat>, limit: nat)
    requires RowsPresentable(key, at.group, s)
    ensures var answer := Query(key, s, at, before, limit);
            answer.Ok? ==> |answer.value| <= limit && forall i :: 0 <= i < |answer.value| ==> Sanitized(answer.value[i])
    decreases limit
  {
    if limit > 0 {
      var found := Newest(s, at, before);
      if found.Some? {
        QueriedRecords(key, s, at, Some(s.messages[found.value].sequence), limit - 1);
        var record := ReadBack(key, found.value, s.messages[found.value]);
        assert record.Ok? ==> Sanitized(record.value);
      }
    }
  }

  /** In every reachable state the reply to joining a room fits its frame. */
  lemma EveryRoomJoinedFrameFits(key: nat, g: Uuid, r: Registry, events: seq<Event>, room: string)
    requires Presentable(key, g, r) && forall i :: 0 <= i < |events| ==> WellFormed(events[i])
    ensures var here := AfterAll(key, g, r, events);
            var history := JoinedHistory(key, here.tables, g, room);
            room in here.cache && history.Ok? ==>
              ByteLength(RoomJoinedFrame(here.cache[room], history.value)) <= MAX_PLAINTEXT_FRAME
  {
    GroupsStayPresentable(key, g, r, events);
    var here := AfterAll(key, g, r, events);
    QueriedRecords(key, here.tables, RoomKey(g, room), None, HISTORY_CAPACITY);
    var history := History(key, here.tables, g, room, HISTORY_CAPACITY);
    if room in here.cache && history.Ok? {
      RoomJoinedFrameFits(here.cache[room], history.value);
    }
  }

  /** And so does every page of older history. */
  lemma EveryHistoryPageFrameFits(key: nat, g: Uuid, r: Registry, events: seq<Event>, room: string, before: nat,
                                  limit: nat)
    requires Presentable(key, g, r) && forall i :: 0 <= i < |events| ==> WellFormed(events[i])
    ensures var page := LoadHistory(key, AfterAll(key, g, r, events).tables, g, room, before, limit);
            page.HistoryPage? ==> ByteLength(HistoryPageFrame(room, page.messages, page.hasMore)) <= MAX_PLAINTEXT_FRAME
  {
    GroupsStayPresentable(key, g, r, events);
    var s := AfterAll(key, g, r, events).tables;
    var size := Clamp(limit, 1, MAX_HISTORY_PAGE);
    QueriedRecords(key, s, RoomKey(g, room), Some(if before <= I64_MAX then before else I64_MAX), size);
    var messages := HistoryBefore(key, s, g, room, before, size);
    var page := LoadHistory(key, s, g, room, before, limit);
    if page.HistoryPage? {
      HistoryPageFrameFits(room, messages.value, page.hasMore);
    }
  }

  /** And every message as it is broadcast. */
  lemma EveryChatFrameFits(key: nat, g: Uuid, r: Registry, events: seq<Event>, m: Draft)
    requires Presentable(key, g, r) && m.now < U64_LIMIT && forall i :: 0 <= i < |events| ==> WellFormed(events[i])
    ensures var reply := Chat(key, g, AfterAll(key, g, r, events), m).reply;
            reply.Delivered? ==> ByteLength(ChatFrame(reply.record)) <= MAX_PLAINTEXT_FRAME
  {
    GroupsStayPresentable(key, g, r, events);
    var here := AfterAll(key, g, r, events);
    var reply := Chat(key, g, here, m).reply;
    if reply.Delivered? {
      AcceptedChatIsClean(m.text);
      ChatFrameFits(reply.record);
    }
  }
}
