/**
 Encrypted frames carry at most 16 KiB of JSON (src/crypto.rs). The gateway trims history to a budget before it
 sends it (src/server.rs, `fit_history_to_frame`); this module proves that every frame built from sanitized
 records fits.
 */
module Frames {
  import opened Wrappers
  import opened Text
  import opened Protocol
  import opened Sanitizer
  import opened Json
  import opened HistoryFitting

  const HISTORY_CAPACITY := 200

  // ---------- encoding ----------

  function EncodedDirect(direct: Option<DirectInfo>): string {
    match direct
    case None => "null"
    case Some(info) =>
      Object([Field("endpoint", Quoted(info.endpoint)), Field("fingerprint", Quoted(info.fingerprint))])
  }

  function EncodedPeer(peer: Peer): string {
    Object([Field("session_id", Quoted(UuidText(peer.sessionId))),
            Field("member_id", Quoted(UuidText(peer.memberId))),
            Field("nickname", Quoted(peer.nickname)),
            Field("direct", EncodedDirect(peer.direct))])
  }

  function EncodedRecord(m: ChatRecord): string {
    Object([Field("sequence", Digits(m.sequence)),
            Field("message_id", Quoted(UuidText(m.messageId))),
            Field("sender", EncodedPeer(m.sender)),
            Field("room_id", Quoted(m.roomId)),
            Field("sent_at_ms", Digits(m.sentAtMs)),
            Field("text", Quoted(m.text))])
  }

  function EncodedRecords(history: seq<ChatRecord>): seq<string> {
    if history == [] then [] else [EncodedRecord(history[0])] + EncodedRecords(history[1..])
  }

  function EncodedRoom(room: RoomSummary): string {
    Object([Field("room_id", Quoted(room.roomId)),
            Field("room_name", Quoted(room.roomName)),
            Field("visibility", if room.visibility.Public? then "\"public\"" else "\"private\"")])
  }

  function ChatFrame(m: ChatRecord): string {
    Object([Field("type", "\"chat\""), Field("message", EncodedRecord(m))])
  }

  function RoomJoinedFields(room: string, history: string): seq<Field> {
    [Field("type", "\"room_joined\""), Field("room", room), Field("history", history)]
  }

  function RoomJoinedFrame(room: RoomSummary, history: seq<ChatRecord>): string {
    Object(RoomJoinedFields(EncodedRoom(room), Array(EncodedRecords(history))))
  }

  function HistoryPageFields(roomId: string, messages: string, hasMore: bool): seq<Field> {
    [Field("type", "\"history_page\""), Field("room_id", roomId), Field("messages", messages),
     Field("has_more", if hasMore then "true" else "false")]
  }

  function HistoryPageFrame(roomId: string, messages: seq<ChatRecord>, hasMore: bool): string {
    Object(HistoryPageFields(Quoted(roomId), Array(EncodedRecords(messages)), hasMore))
  }

  /** The private-chat frame of src/direct.rs. */
  function DirectChatFrame(messageId: Uuid, sentAtMs: nat, text: string): string {
    Object([Field("type", "\"chat\""),
            Field("message_id", Quoted(UuidText(messageId))),
            Field("sent_at_ms", Digits(sentAtMs)),
            Field("text", Quoted(text))])
  }

  // ---------- what the gateway knows about a record ----------

  predicate LineOfAtMost(line: string, maxChars: nat) {
    |line| <= maxChars && forall i :: 0 <= i < |line| ==> IsLineChar(line[i])
  }

  /** A socket address prints in at most 58 characters and a fingerprint in 29, neither with control characters. */
  predicate DirectInfoBounded(direct: Option<DirectInfo>) {
    direct.Some? ==> LineOfAtMost(direct.value.endpoint, 58) && LineOfAtMost(direct.value.fingerprint, 29)
  }

  /** Text and nickname went through the sanitizer, the room id through `is_safe_identifier`, numbers are `u64`. */
  predicate Sanitized(m: ChatRecord) {
    && m.sequence < U64_LIMIT
    && m.sentAtMs < U64_LIMIT
    && LineOfAtMost(m.sender.nickname, MAX_NICKNAME_CHARS)
    && DirectInfoBounded(m.sender.direct)
    && IsSafeIdentifier(m.roomId)
    && CleanChat(m.text)
  }

  predicate RoomBounded(room: RoomSummary) {
    IsSafeIdentifier(room.roomId) && LineOfAtMost(room.roomName, MAX_NICKNAME_CHARS)
  }

  // ---------- fitting history ----------

  function Size(m: ChatRecord): nat {
    ByteLength(EncodedRecord(m))
  }

  /** The history that is sent: the longest suffix that fits, by the JSON length of its records. */
  function FittedHistory(history: seq<ChatRecord>): seq<ChatRecord> {
    Fitted(Size, history)
  }

  lemma FittedHistoryIsTheNewestEnd(history: seq<ChatRecord>)
    ensures var fitted := FittedHistory(history);
            |fitted| <= |history| && fitted == history[|history| - |fitted|..] && (history != [] ==> fitted != [])
  {
    FittedIsTheLongestFittingSuffix(Size, history);
  }

  /** `fit_history_to_frame` with the JSON length of each record as its size. */
  method FitHistoryToFrame(history: seq<ChatRecord>) returns (fitted: seq<ChatRecord>)
    ensures fitted == FittedHistory(history)
  {
    fitted := FitToBudget(Size, history);
  }

  // ---------- frame sizes ----------

  lemma LineBytes(line: string, maxChars: nat)
    requires LineOfAtMost(line, maxChars)
    ensures ByteLength(Quoted(line)) <= 2 + 8 * maxChars
  {
    ByteLengthBound(line);
    QuotedAtMostDouble(line);
  }

  lemma IdentifierBytes(id: string)
    requires IsSafeIdentifier(id)
    ensures ByteLength(Quoted(id)) <= 130
  {
    QuotedAtMostDouble(id);
  }

  /** Every byte of a clean text escapes to at most two. */
  lemma TextBytes(text: string)
    requires CleanChat(text)
    ensures ByteLength(Quoted(text)) <= 2 + 2 * MAX_MESSAGE_BYTES
  {
    QuotedAtMostDouble(text);
  }

  lemma DirectBytes(direct: Option<DirectInfo>)
    requires DirectInfoBounded(direct)
    ensures ByteLength(EncodedDirect(direct)) <= 800
  {
    if direct.Some? {
      var f0 := Field("endpoint", Quoted(direct.value.endpoint));
      var f1 := Field("fingerprint", Quoted(direct.value.fingerprint));
      LineBytes(direct.value.endpoint, 58);
      LineBytes(direct.value.fingerprint, 29);
      TwoFields(f0, f1);
    } else {
      ByteLengthBound("null");
    }
  }

  lemma PeerBytes(peer: Peer)
    requires LineOfAtMost(peer.nickname, MAX_NICKNAME_CHARS) && DirectInfoBounded(peer.direct)
    ensures ByteLength(EncodedPeer(peer)) <= 1800
  {
    var f0 := Field("session_id", Quoted(UuidText(peer.sessionId)));
    var f1 := Field("member_id", Quoted(UuidText(peer.memberId)));
    var f2 := Field("nickname", Quoted(peer.nickname));
    var f3 := Field("direct", EncodedDirect(peer.direct));
    UuidBytes(peer.sessionId);
    UuidBytes(peer.memberId);
    LineBytes(peer.nickname, MAX_NICKNAME_CHARS);
    DirectBytes(peer.direct);
    FourFields(f0, f1, f2, f3);
  }

  /** A sanitized record takes at most 11,000 bytes of JSON: more than half a frame, less than a whole one. */
  lemma RecordBytes(m: ChatRecord)
    requires Sanitized(m)
    ensures Size(m) <= 11000
  {
    var f0 := Field("sequence", Digits(m.sequence));
    var f1 := Field("message_id", Quoted(UuidText(m.messageId)));
    var f2 := Field("sender", EncodedPeer(m.sender));
    var f3 := Field("room_id", Quoted(m.roomId));
    var f4 := Field("sent_at_ms", Digits(m.sentAtMs));
    var f5 := Field("text", Quoted(m.text));
    U64Digits(m.sequence);
    UuidBytes(m.messageId);
    PeerBytes(m.sender);
    IdentifierBytes(m.roomId);
    U64Digits(m.sentAtMs);
    TextBytes(m.text);
    SixFields(f0, f1, f2, f3, f4, f5);
  }

  lemma RoomBytes(room: RoomSummary)
    requires RoomBounded(room)
    ensures ByteLength(EncodedRoom(room)) <= 560
  {
    var f0 := Field("room_id", Quoted(room.roomId));
    var f1 := Field("room_name", Quoted(room.roomName));
    var f2 := Field("visibility", if room.visibility.Public? then "\"public\"" else "\"private\"");
    IdentifierBytes(room.roomId);
    LineBytes(room.roomName, MAX_NICKNAME_CHARS);
    ByteLengthBound(f2.value);
    ThreeFields(f0, f1, f2);
  }

  /** A fitted page costs its messages and one comma each. */
  lemma {:induction false} RecordsCost(history: seq<ChatRecord>)
    ensures ArrayCost(EncodedRecords(history)) == 2 + TotalSize(Size, history) + |history|
  {
    if history != [] {
      RecordsCost(history[1..]);
      var items := EncodedRecords(history);
      assert items[1..] == EncodedRecords(history[1..]);
    }
  }

  lemma FittedArrayBytes(history: seq<ChatRecord>)
    requires |history| <= HISTORY_CAPACITY
    requires forall i :: 0 <= i < |history| ==> Sanitized(history[i])
    ensures ByteLength(Array(EncodedRecords(FittedHistory(history)))) <= 11980
  {
    forall i | 0 <= i < |history| ensures Size(history[i]) <= 11776 {
      RecordBytes(history[i]);
    }
    FittedTotal(Size, history, 11776);
    ArrayBytes(EncodedRecords(FittedHistory(history)));
    RecordsCost(FittedHistory(history));
  }

  /** A broadcast chat message fits its frame. */
  lemma ChatFrameFits(m: ChatRecord)
    requires Sanitized(m)
    ensures ByteLength(ChatFrame(m)) <= MAX_PLAINTEXT_FRAME
  {
    var f0 := Field("type", "\"chat\"");
    var f1 := Field("message", EncodedRecord(m));
    RecordBytes(m);
    ByteLengthBound(f0.value);
    TwoFields(f0, f1);
  }

  lemma RoomJoinedBytes(room: string, history: string)
    requires ByteLength(room) <= 560 && ByteLength(history) <= 11980
    ensures ByteLength(Object(RoomJoinedFields(room, history))) <= MAX_PLAINTEXT_FRAME
  {
    var f0 := Field("type", "\"room_joined\"");
    ByteLengthBound(f0.value);
    ThreeFields(f0, Field("room", room), Field("history", history));
  }

  lemma HistoryPageBytes(roomId: string, messages: string, hasMore: bool)
    requires ByteLength(roomId) <= 130 && ByteLength(messages) <= 11980
    ensures ByteLength(Object(HistoryPageFields(roomId, messages, hasMore))) <= MAX_PLAINTEXT_FRAME
  {
    var f0 := Field("type", "\"history_page\"");
    var f3 := Field("has_more", if hasMore then "true" else "false");
    ByteLengthBound(f0.value);
    ByteLengthBound(f3.value);
    FourFields(f0, Field("room_id", roomId), Field("messages", messages), f3);
  }

  lemma JoinedWith(room: RoomSummary, history: seq<ChatRecord>)
    requires RoomBounded(room) && ByteLength(Array(EncodedRecords(history))) <= 11980
    ensures ByteLength(RoomJoinedFrame(room, history)) <= MAX_PLAINTEXT_FRAME
  {
    RoomBytes(room);
    RoomJoinedBytes(EncodedRoom(room), Array(EncodedRecords(history)));
  }

  lemma PageWith(roomId: string, messages: seq<ChatRecord>, hasMore: bool)
    requires IsSafeIdentifier(roomId) && ByteLength(Array(EncodedRecords(messages))) <= 11980
    ensures ByteLength(HistoryPageFrame(roomId, messages, hasMore)) <= MAX_PLAINTEXT_FRAME
  {
    IdentifierBytes(roomId);
    HistoryPageBytes(Quoted(roomId), Array(EncodedRecords(messages)), hasMore);
  }

  /** The reply to joining a room fits its frame, whatever the history holds. */
  lemma RoomJoinedFrameFits(room: RoomSummary, history: seq<ChatRecord>)
    requires RoomBounded(room) && |history| <= HISTORY_CAPACITY
    requires forall i :: 0 <= i < |history| ==> Sanitized(history[i])
    ensures ByteLength(RoomJoinedFrame(room, FittedHistory(history))) <= MAX_PLAINTEXT_FRAME
  {
    FittedArrayBytes(history);
    JoinedWith(room, FittedHistory(history));
  }

  /** Every page of older history fits its frame. */
  lemma HistoryPageFrameFits(roomId: string, history: seq<ChatRecord>, hasMore: bool)
    requires IsSafeIdentifier(roomId) && |history| <= HISTORY_CAPACITY
    requires forall i :: 0 <= i < |history| ==> Sanitized(history[i])
    ensures ByteLength(HistoryPageFrame(roomId, FittedHistory(history), hasMore)) <= MAX_PLAINTEXT_FRAME
  {
    FittedArrayBytes(history);
    PageWith(roomId, FittedHistory(history), hasMore);
  }

  /** A private message accepted by the sender's sanitizer never breaks the link for its size. */
  lemma DirectChatFrameFits(messageId: Uuid, sentAtMs: nat, text: string)
    requires sentAtMs < U64_LIMIT && CleanChat(text)
    ensures ByteLength(DirectChatFrame(messageId, sentAtMs, text)) <= MAX_PLAINTEXT_FRAME
  {
    var f0 := Field("type", "\"chat\"");
    var f1 := Field("message_id", Quoted(UuidText(messageId)));
    var f2 := Field("sent_at_ms", Digits(sentAtMs));
    var f3 := Field("text", Quoted(text));
    ByteLengthBound(f0.value);
    UuidBytes(messageId);
    U64Digits(sentAtMs);
    TextBytes(text);
    FourFields(f0, f1, f2, f3);
  }
}
