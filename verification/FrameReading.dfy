/**
 What a client reads from a frame: every record, room and page comes back as it was encoded, field by field, whatever
 the names and texts hold.
 */
module FrameReading {
  import opened Wrappers
  import opened Protocol
  import opened Json
  import opened JsonReading
  import opened Frames

  /** Identifiers have 128 bits. */
  const UUID_LIMIT := PowerOf16(32)

  // ---------- readers ----------

  function ReadUuid(s: string): (r: Read<Uuid>)
    ensures r.Got? ==> |r.rest| < |s|
  {
    var (text, rest) :- ReadString(s);
    var (u, _) :- UuidOf(text);
    Got(u, rest)
  }

  function ReadDirect(s: string): (r: Read<Option<DirectInfo>>)
    ensures r.Got? ==> |r.rest| < |s|
  {
    if "null" <= s then Got(None, s[4..])
    else
      var (_, s0) :- OpenObject("endpoint", s);
      var (endpoint, s1) :- ReadString(s0);
      var (_, s2) :- NextKey("fingerprint", s1);
      var (fingerprint, s3) :- ReadString(s2);
      var (_, s4) :- Expect("}", s3);
      Got(Some(DirectInfo(endpoint, fingerprint)), s4)
  }

  function ReadPeer(s: string): (r: Read<Peer>)
    ensures r.Got? ==> |r.rest| < |s|
  {
    var (_, s0) :- OpenObject("session_id", s);
    var (session, s1) :- ReadUuid(s0);
    var (_, s2) :- NextKey("member_id", s1);
    var (member, s3) :- ReadUuid(s2);
    var (_, s4) :- NextKey("nickname", s3);
    var (nickname, s5) :- ReadString(s4);
    var (_, s6) :- NextKey("direct", s5);
    var (direct, s7) :- ReadDirect(s6);
    var (_, s8) :- Expect("}", s7);
    Got(Peer(session, member, nickname, direct), s8)
  }

  /** The first half of a record, up to its sender. */
  function ReadHead(s: string): (r: Read<(nat, Uuid, Peer)>)
    ensures r.Got? ==> |r.rest| < |s|
  {
    var (_, s0) :- OpenObject("sequence", s);
    var (sequence, s1) :- ReadNumber(s0);
    var (_, s2) :- NextKey("message_id", s1);
    var (id, s3) :- ReadUuid(s2);
    var (_, s4) :- NextKey("sender", s3);
    var (sender, s5) :- ReadPeer(s4);
    Got((sequence, id, sender), s5)
  }

  /** And the second, from its room on. */
  function ReadTail(s: string): (r: Read<(string, nat, string)>)
    ensures r.Got? ==> |r.rest| < |s|
  {
    var (_, s0) :- NextKey("room_id", s);
    var (room, s1) :- ReadString(s0);
    var (_, s2) :- NextKey("sent_at_ms", s1);
    var (sentAt, s3) :- ReadNumber(s2);
    var (_, s4) :- NextKey("text", s3);
    var (text, s5) :- ReadString(s4);
    var (_, s6) :- Expect("}", s5);
    Got((room, sentAt, text), s6)
  }

  function ReadRecord(s: string): (r: Read<ChatRecord>)
    ensures r.Got? ==> |r.rest| < |s|
  {
    var (head, s0) :- ReadHead(s);
    var (tail, s1) :- ReadTail(s0);
    Got(ChatRecord(head.0, head.1, head.2, tail.0, tail.1, tail.2), s1)
  }

  function ReadRecords(s: string): (r: Read<seq<ChatRecord>>)
    ensures r.Got? ==> |r.rest| < |s|
  {
    ReadArray(ReadRecord, s)
  }

  function ReadVisibility(s: string): (r: Read<RoomVisibility>)
    ensures r.Got? ==> |r.rest| < |s|
  {
    var (text, rest) :- ReadString(s);
    if text == "public" then Got(Public, rest) else if text == "private" then Got(Private, rest) else Stuck
  }

  function ReadRoom(s: string): (r: Read<RoomSummary>)
    ensures r.Got? ==> |r.rest| < |s|
  {
    var (_, s0) :- OpenObject("room_id", s);
    var (room, s1) :- ReadString(s0);
    var (_, s2) :- NextKey("room_name", s1);
    var (name, s3) :- ReadString(s2);
    var (_, s4) :- NextKey("visibility", s3);
    var (visibility, s5) :- ReadVisibility(s4);
    var (_, s6) :- Expect("}", s5);
    Got(RoomSummary(room, name, visibility), s6)
  }

  // ---------- each reads back ----------

  lemma UuidValueReadsBack(u: Uuid, rest: string)
    requires u < UUID_LIMIT
    ensures ReadUuid(Quoted(UuidText(u)) + rest) == Got(u, rest)
  {
    StringReadsBack(UuidText(u), rest);
    UuidReadsBack(u);
  }

  lemma DirectReadsBack(direct: Option<DirectInfo>, rest: string)
    ensures ReadDirect(EncodedDirect(direct) + rest) == Got(direct, rest)
  {
    if direct.Some? {
      var f0 := Field("endpoint", Quoted(direct.value.endpoint));
      var f1 := Field("fingerprint", Quoted(direct.value.fingerprint));
      assert [f0, f1] == [f0] + [f1] && [f1] == [f1] + [];
      ObjectOpens(f0, [f1], rest);
      StringReadsBack(direct.value.endpoint, Others([f1]) + rest);
      KeyFollows(f1, [], rest);
      StringReadsBack(direct.value.fingerprint, Others([]) + rest);
      ObjectCloses(rest);
      assert (EncodedDirect(direct) + rest)[0] == '{';
    } else {
      assert ("null" + rest)[4..] == rest;
    }
  }

  predicate PeerIds(p: Peer) {
    p.sessionId < UUID_LIMIT && p.memberId < UUID_LIMIT
  }

  lemma PeerReadsBack(p: Peer, rest: string)
    requires PeerIds(p)
    ensures ReadPeer(EncodedPeer(p) + rest) == Got(p, rest)
  {
    var f0 := Field("session_id", Quoted(UuidText(p.sessionId)));
    var f1 := Field("member_id", Quoted(UuidText(p.memberId)));
    var f2 := Field("nickname", Quoted(p.nickname));
    var f3 := Field("direct", EncodedDirect(p.direct));
    assert [f0, f1, f2, f3] == [f0] + [f1, f2, f3] && [f1, f2, f3] == [f1] + [f2, f3];
    assert [f2, f3] == [f2] + [f3] && [f3] == [f3] + [];
    ObjectOpens(f0, [f1, f2, f3], rest);
    UuidValueReadsBack(p.sessionId, Others([f1, f2, f3]) + rest);
    KeyFollows(f1, [f2, f3], rest);
    UuidValueReadsBack(p.memberId, Others([f2, f3]) + rest);
    KeyFollows(f2, [f3], rest);
    StringReadsBack(p.nickname, Others([f3]) + rest);
    KeyFollows(f3, [], rest);
    DirectReadsBack(p.direct, Others([]) + rest);
    ObjectCloses(rest);
  }

  /** Record and sender are named by 128-bit identifiers. */
  predicate RecordIds(m: ChatRecord) {
    m.messageId < UUID_LIMIT && PeerIds(m.sender)
  }

  lemma HeadReadsBack(f0: Field, f1: Field, f2: Field, others: seq<Field>, m: ChatRecord, rest: string)
    requires RecordIds(m) && f0 == Field("sequence", Digits(m.sequence))
    requires f1 == Field("message_id", Quoted(UuidText(m.messageId))) && f2 == Field("sender", EncodedPeer(m.sender))
    ensures ReadHead(Object([f0] + ([f1] + ([f2] + others))) + rest) ==
            Got((m.sequence, m.messageId, m.sender), Others(others) + rest)
  {
    ObjectOpens(f0, [f1] + ([f2] + others), rest);
    OthersEndNumbers([f1] + ([f2] + others), rest);
    NumberReadsBack(m.sequence, Others([f1] + ([f2] + others)) + rest);
    KeyFollows(f1, [f2] + others, rest);
    UuidValueReadsBack(m.messageId, Others([f2] + others) + rest);
    KeyFollows(f2, others, rest);
    PeerReadsBack(m.sender, Others(others) + rest);
  }

  lemma TailReadsBack(f3: Field, f4: Field, f5: Field, m: ChatRecord, rest: string)
    requires f3 == Field("room_id", Quoted(m.roomId)) && f4 == Field("sent_at_ms", Digits(m.sentAtMs))
    requires f5 == Field("text", Quoted(m.text))
    ensures ReadTail(Others([f3, f4, f5]) + rest) == Got((m.roomId, m.sentAtMs, m.text), rest)
  {
    assert [f3, f4, f5] == [f3] + [f4, f5] && [f4, f5] == [f4] + [f5] && [f5] == [f5] + [];
    KeyFollows(f3, [f4, f5], rest);
    StringReadsBack(m.roomId, Others([f4, f5]) + rest);
    KeyFollows(f4, [f5], rest);
    OthersEndNumbers([f5], rest);
    NumberReadsBack(m.sentAtMs, Others([f5]) + rest);
    KeyFollows(f5, [], rest);
    StringReadsBack(m.text, Others([]) + rest);
    ObjectCloses(rest);
  }

  /** A record comes back whole. */
  lemma RecordReadsBack(m: ChatRecord, rest: string)
    requires RecordIds(m)
    ensures ReadRecord(EncodedRecord(m) + rest) == Got(m, rest)
  {
    var f0 := Field("sequence", Digits(m.sequence));
    var f1 := Field("message_id", Quoted(UuidText(m.messageId)));
    var f2 := Field("sender", EncodedPeer(m.sender));
    var f3 := Field("room_id", Quoted(m.roomId));
    var f4 := Field("sent_at_ms", Digits(m.sentAtMs));
    var f5 := Field("text", Quoted(m.text));
    assert [f0, f1, f2, f3, f4, f5] == [f0] + ([f1] + ([f2] + [f3, f4, f5]));
    HeadReadsBack(f0, f1, f2, [f3, f4, f5], m, rest);
    TailReadsBack(f3, f4, f5, m, rest);
  }

  predicate RecordsIds(records: seq<ChatRecord>) {
    forall i :: 0 <= i < |records| ==> RecordIds(records[i])
  }

  lemma RecordReads(m: ChatRecord)
    requires RecordIds(m)
    ensures Reads(ReadRecord, EncodedRecord(m), m)
  {
    forall after ensures ReadRecord(EncodedRecord(m) + after) == Got(m, after) {
      RecordReadsBack(m, after);
    }
  }

  lemma {:induction false} EncodedAt(records: seq<ChatRecord>, i: nat)
    requires i < |records|
    ensures |EncodedRecords(records)| == |records| && EncodedRecords(records)[i] == EncodedRecord(records[i])
  {
    var rest := EncodedRecords(records[1..]);
    if records[1..] != [] {
      EncodedAt(records[1..], if i > 0 then i - 1 else 0);
    }
    assert EncodedRecords(records)[1..] == rest;
  }

  lemma RecordsReadBack(records: seq<ChatRecord>, rest: string)
    requires RecordsIds(records)
    ensures ReadRecords(Array(EncodedRecords(records)) + rest) == Got(records, rest)
  {
    if records != [] {
      EncodedAt(records, 0);
    }
    forall i | 0 <= i < |records| ensures Reads(ReadRecord, EncodedRecords(records)[i], records[i]) {
      EncodedAt(records, i);
      RecordReads(records[i]);
    }
    ArrayReadsBack(ReadRecord, EncodedRecords(records), records, rest);
  }

  lemma TagReadsBack(tag: string, text: string, rest: string)
    requires text == "\"" + tag + "\"" && forall i :: 0 <= i < |tag| ==> 'a' <= tag[i] <= 'z' || tag[i] == '_'
    ensures ReadString(text + rest) == Got(tag, rest)
  {
    TagNeedsNoEscape(tag);
    StringReadsBack(tag, rest);
  }

  lemma {:induction false} TagNeedsNoEscape(s: string)
    requires forall i :: 0 <= i < |s| ==> 'a' <= s[i] <= 'z' || s[i] == '_'
    ensures Escaped(s) == s
  {
    if s != [] {
      TagNeedsNoEscape(s[1..]);
    }
  }

  lemma VisibilityReadsBack(visibility: RoomVisibility, rest: string)
    ensures ReadVisibility((if visibility.Public? then "\"public\"" else "\"private\"") + rest) ==
            Got(visibility, rest)
  {
    TagReadsBack("public", "\"public\"", rest);
    TagReadsBack("private", "\"private\"", rest);
  }

  lemma RoomReadsBack(room: RoomSummary, rest: string)
    ensures ReadRoom(EncodedRoom(room) + rest) == Got(room, rest)
  {
    var f0 := Field("room_id", Quoted(room.roomId));
    var f1 := Field("room_name", Quoted(room.roomName));
    var f2 := Field("visibility", if room.visibility.Public? then "\"public\"" else "\"private\"");
    assert [f0, f1, f2] == [f0] + [f1, f2] && [f1, f2] == [f1] + [f2] && [f2] == [f2] + [];
    ObjectOpens(f0, [f1, f2], rest);
    StringReadsBack(room.roomId, Others([f1, f2]) + rest);
    KeyFollows(f1, [f2], rest);
    StringReadsBack(room.roomName, Others([f2]) + rest);
    KeyFollows(f2, [], rest);
    VisibilityReadsBack(room.visibility, Others([]) + rest);
    ObjectCloses(rest);
  }

  // ---------- frames ----------

  datatype Frame =
    | ChatRead(message: ChatRecord)
    | RoomJoinedRead(room: RoomSummary, history: seq<ChatRecord>)
    | PageRead(roomId: string, messages: seq<ChatRecord>, hasMore: bool)

  function ReadFlag(s: string): (r: Read<bool>) {
    if s != [] && s[0] == 't' then
      var (_, rest) :- Expect("true", s);
      Got(true, rest)
    else
      var (_, rest) :- Expect("false", s);
      Got(false, rest)
  }

  /** What follows the tag of a chat message. */
  function ReadChatBody(s: string): Read<Frame> {
    var (_, s0) :- NextKey("message", s);
    var (message, s1) :- ReadRecord(s0);
    var (_, s2) :- Expect("}", s1);
    Got(ChatRead(message), s2)
  }

  function ReadRoomJoinedBody(s: string): Read<Frame> {
    var (_, s0) :- NextKey("room", s);
    var (room, s1) :- ReadRoom(s0);
    var (_, s2) :- NextKey("history", s1);
    var (history, s3) :- ReadRecords(s2);
    var (_, s4) :- Expect("}", s3);
    Got(RoomJoinedRead(room, history), s4)
  }

  function ReadPageBody(s: string): Read<Frame> {
    var (_, s0) :- NextKey("room_id", s);
    var (room, s1) :- ReadString(s0);
    var (_, s2) :- NextKey("messages", s1);
    var (messages, s3) :- ReadRecords(s2);
    var (_, s4) :- NextKey("has_more", s3);
    var (more, s5) :- ReadFlag(s4);
    var (_, s6) :- Expect("}", s5);
    Got(PageRead(room, messages, more), s6)
  }

  function ReadTag(s: string): Read<string> {
    var (_, s0) :- OpenObject("type", s);
    ReadString(s0)
  }

  /** A frame by its type tag. */
  function ReadFrame(s: string): Read<Frame> {
    var (tag, body) :- ReadTag(s);
    match tag
    case "chat" => ReadChatBody(body)
    case "room_joined" => ReadRoomJoinedBody(body)
    case "history_page" => ReadPageBody(body)
    case _ => Stuck
  }

  lemma FrameOpens(tag: string, text: string, others: seq<Field>)
    requires text == "\"" + tag + "\"" && forall i :: 0 <= i < |tag| ==> 'a' <= tag[i] <= 'z' || tag[i] == '_'
    ensures ReadTag(Object([Field("type", text)] + others)) == Got(tag, Others(others))
  {
    ObjectOpens(Field("type", text), others, "");
    TagReadsBack(tag, text, Others(others) + "");
    assert Object([Field("type", text)] + others) + "" == Object([Field("type", text)] + others);
    assert Others(others) + "" == Others(others);
  }

  lemma ChatBodyReadsBack(m: ChatRecord)
    requires RecordIds(m)
    ensures ReadChatBody(Others([Field("message", EncodedRecord(m))]) + "") == Got(ChatRead(m), "")
  {
    var f1 := Field("message", EncodedRecord(m));
    assert [f1] == [f1] + [];
    KeyFollows(f1, [], "");
    RecordReadsBack(m, Others([]) + "");
    ObjectCloses("");
  }

  /** A broadcast message reads back as the record. */
  lemma ChatFrameReadsBack(m: ChatRecord)
    requires RecordIds(m)
    ensures ReadFrame(ChatFrame(m)) == Got(ChatRead(m), "")
  {
    var f0, f1 := Field("type", "\"chat\""), Field("message", EncodedRecord(m));
    assert [f0, f1] == [f0] + [f1];
    FrameOpens("chat", f0.value, [f1]);
    ChatBodyReadsBack(m);
    assert Others([f1]) + "" == Others([f1]);
  }

  lemma RoomJoinedBodyReadsBack(f1: Field, f2: Field, room: RoomSummary, history: seq<ChatRecord>)
    requires RecordsIds(history)
    requires f1 == Field("room", EncodedRoom(room)) && f2 == Field("history", Array(EncodedRecords(history)))
    ensures ReadRoomJoinedBody(Others([f1, f2]) + "") == Got(RoomJoinedRead(room, history), "")
  {
    assert [f1, f2] == [f1] + [f2] && [f2] == [f2] + [];
    KeyFollows(f1, [f2], "");
    RoomReadsBack(room, Others([f2]) + "");
    KeyFollows(f2, [], "");
    RecordsReadBack(history, Others([]) + "");
    ObjectCloses("");
  }

  /** The reply to a join reads back as the room and the messages put into it, in order. */
  lemma RoomJoinedFrameReadsBack(room: RoomSummary, history: seq<ChatRecord>)
    requires RecordsIds(history)
    ensures ReadFrame(RoomJoinedFrame(room, history)) == Got(RoomJoinedRead(room, history), "")
  {
    var f0 := Field("type", "\"room_joined\"");
    var f1 := Field("room", EncodedRoom(room));
    var f2 := Field("history", Array(EncodedRecords(history)));
    assert [f0, f1, f2] == [f0] + [f1, f2];
    FrameOpens("room_joined", f0.value, [f1, f2]);
    RoomJoinedBodyReadsBack(f1, f2, room, history);
    assert Others([f1, f2]) + "" == Others([f1, f2]);
  }

  lemma FlagReadsBack(flag: bool, rest: string)
    ensures ReadFlag((if flag then "true" else "false") + rest) == Got(flag, rest)
  {
    Expected("true", rest);
    Expected("false", rest);
    assert ("false" + rest)[0] == 'f';
  }

  lemma PageBodyReadsBack(f1: Field, f2: Field, f3: Field, roomId: string, messages: seq<ChatRecord>, hasMore: bool)
    requires RecordsIds(messages)
    requires f1 == Field("room_id", Quoted(roomId)) && f2 == Field("messages", Array(EncodedRecords(messages)))
    requires f3 == Field("has_more", if hasMore then "true" else "false")
    ensures ReadPageBody(Others([f1, f2, f3]) + "") == Got(PageRead(roomId, messages, hasMore), "")
  {
    assert [f1, f2, f3] == [f1] + [f2, f3] && [f2, f3] == [f2] + [f3] && [f3] == [f3] + [];
    KeyFollows(f1, [f2, f3], "");
    StringReadsBack(roomId, Others([f2, f3]) + "");
    KeyFollows(f2, [f3], "");
    RecordsReadBack(messages, Others([f3]) + "");
    KeyFollows(f3, [], "");
    FlagReadsBack(hasMore, Others([]) + "");
    ObjectCloses("");
  }

  /** And so does a page of older history. */
  lemma HistoryPageFrameReadsBack(roomId: string, messages: seq<ChatRecord>, hasMore: bool)
    requires RecordsIds(messages)
    ensures ReadFrame(HistoryPageFrame(roomId, messages, hasMore)) == Got(PageRead(roomId, messages, hasMore), "")
  {
    var f0 := Field("type", "\"history_page\"");
    var f1 := Field("room_id", Quoted(roomId));
    var f2 := Field("messages", Array(EncodedRecords(messages)));
    var f3 := Field("has_more", if hasMore then "true" else "false");
    assert [f0, f1, f2, f3] == [f0] + [f1, f2, f3];
    FrameOpens("history_page", f0.value, [f1, f2, f3]);
    PageBodyReadsBack(f1, f2, f3, roomId, messages, hasMore);
    assert Others([f1, f2, f3]) + "" == Others([f1, f2, f3]);
  }

  /** What is sent of a history is its newest end, and the client reads exactly that. */
  lemma FittedHistoryArrives(room: RoomSummary, history: seq<ChatRecord>)
    requires RecordsIds(history)
    ensures var fitted := FittedHistory(history);
            && |fitted| <= |history| && (history != [] ==> fitted != [])
            && ReadFrame(RoomJoinedFrame(room, fitted)) ==
               Got(RoomJoinedRead(room, history[|history| - |fitted|..]), "")
  {
    FittedHistoryIsTheNewestEnd(history);
    RoomJoinedFrameReadsBack(room, FittedHistory(history));
  }

  /** A private message as the other side of the link reads it. */
  function ReadDirectChat(s: string): Read<(Uuid, nat, string)> {
    var (tag, s0) :- ReadTag(s);
    if tag != "chat" then Stuck
    else
      var (_, s1) :- NextKey("message_id", s0);
      var (id, s2) :- ReadUuid(s1);
      var (_, s3) :- NextKey("sent_at_ms", s2);
      var (sentAt, s4) :- ReadNumber(s3);
      var (_, s5) :- NextKey("text", s4);
      var (text, s6) :- ReadString(s5);
      var (_, s7) :- Expect("}", s6);
      Got((id, sentAt, text), s7)
  }

  lemma DirectChatFrameReadsBack(id: Uuid, sentAtMs: nat, text: string)
    requires id < UUID_LIMIT
    ensures ReadDirectChat(DirectChatFrame(id, sentAtMs, text)) == Got((id, sentAtMs, text), "")
  {
    var f0 := Field("type", "\"chat\"");
    var f1 := Field("message_id", Quoted(UuidText(id)));
    var f2 := Field("sent_at_ms", Digits(sentAtMs));
    var f3 := Field("text", Quoted(text));
    assert [f0, f1, f2, f3] == [f0] + [f1, f2, f3] && [f1, f2, f3] == [f1] + [f2, f3];
    assert [f2, f3] == [f2] + [f3] && [f3] == [f3] + [];
    FrameOpens("chat", f0.value, [f1, f2, f3]);
    assert Others([f1, f2, f3]) + "" == Others([f1, f2, f3]);
    KeyFollows(f1, [f2, f3], "");
    UuidValueReadsBack(id, Others([f2, f3]) + "");
    KeyFollows(f2, [f3], "");
    OthersEndNumbers([f3], "");
    NumberReadsBack(sentAtMs, Others([f3]) + "");
    KeyFollows(f3, [], "");
    StringReadsBack(text, Others([]) + "");
    ObjectCloses("");
  }
}
