/**
 Messages over whole runs: rooms number them without gap or repeat, and every stored row reads back as the message that
 was appended.
 */
module StoreMessages {
  import opened Wrappers
  import opened Protocol
  import opened BodyCipher
  import opened Store
  import opened StoreCredentials

  predicate MessageAt(s: Tables, i: Uuid, at: RoomKey, n: nat) {
    i in s.messages && s.messages[i].at == at && s.messages[i].sequence == n
  }

  ghost predicate Taken(s: Tables, at: RoomKey, n: nat) {
    exists i: Uuid :: MessageAt(s, i, at, n)
  }

  /** The sequences used in each room are exactly 1 to `nextSequence - 1`, each by one message. */
  ghost predicate Numbered(s: Tables) {
    && (forall at :: at in s.rooms ==> 1 <= s.rooms[at].nextSequence <= I64_MAX)
    && (forall i :: i in s.messages ==>
          s.messages[i].at in s.rooms && 1 <= s.messages[i].sequence < s.rooms[s.messages[i].at].nextSequence)
    && (forall at, n: nat, i: Uuid, j: Uuid :: MessageAt(s, i, at, n) && MessageAt(s, j, at, n) ==> i == j)
    && (forall at, n: nat :: at in s.rooms && 1 <= n < s.rooms[at].nextSequence ==> Taken(s, at, n))
  }

  /** A row as a record: the body opened, no private-chat address, the time as it was stored. */
  function ReadBack(key: nat, i: Uuid, row: MessageRow): Result<ChatRecord, CipherError> {
    match Decrypted(key, At(row.at, i, row.sequence), row.body)
    case Err(error) => Err(error)
    case Ok(text) =>
      Ok(ChatRecord(row.sequence, i, Peer(row.senderSession, row.senderMember, row.senderNickname, None), row.at.room,
                    row.sentAtMs, text))
  }

  /** Every stored row opens to the record kept for its message, and nothing else is kept. */
  ghost predicate Readable(key: nat, s: Tables, records: map<Uuid, ChatRecord>) {
    && records.Keys == s.messages.Keys
    && forall i :: i in s.messages ==> ReadBack(key, i, s.messages[i]) == Ok(records[i])
  }

  ghost predicate MessagesOk(key: nat, s: Tables, records: map<Uuid, ChatRecord>) {
    Numbered(s) && Readable(key, s, records)
  }

  // ---------- runs under one key ----------

  /** The store uses one key, read when it was opened. */
  predicate Keyed(key: nat, op: Op) {
    op.OpAppendMessage? ==> op.key == key
  }

  predicate KeyedRun(key: nat, ops: seq<Op>) {
    forall i :: 0 <= i < |ops| ==> Keyed(key, ops[i])
  }

  function Appended(s: Tables, op: Op): Result<ChatRecord, StoreError>
    requires op.OpAppendMessage?
  {
    AppendMessage(op.key, s, op.group, op.room, op.message, op.sender, op.sentAtMs, op.text, op.nonce).result
  }

  /**
   What is to be read of an appended message ever after: its sender without the address for private chat, and its time
   as far as the database can hold it.
   */
  function Kept(op: Op, number: nat): ChatRecord
    requires op.OpAppendMessage?
  {
    ChatRecord(number, op.message, op.sender.(direct := None), op.room,
               if op.sentAtMs <= I64_MAX then op.sentAtMs else I64_MAX, op.text)
  }

  /** The records of all messages appended, by message. */
  ghost function RecordsAfter(s: Tables, records: map<Uuid, ChatRecord>, ops: seq<Op>): map<Uuid, ChatRecord> {
    if ops == [] then records
    else
      var front := ops[..|ops| - 1];
      RecordsWith(PerformAll(s, front), RecordsAfter(s, records, front), ops[|ops| - 1])
  }

  function RecordsWith(s: Tables, records: map<Uuid, ChatRecord>, op: Op): map<Uuid, ChatRecord> {
    if op.OpAppendMessage? && Appended(s, op).Ok? then records[op.message := Kept(op, Appended(s, op).value.sequence)]
    else records
  }

  // ---------- one step ----------

  /** The messages stay, rooms keep their counters, and any new room starts at 1. */
  predicate QuietCounters(s: Tables, s': Tables) {
    && s'.messages == s.messages
    && (forall at :: at in s.rooms ==> at in s'.rooms && s'.rooms[at].nextSequence == s.rooms[at].nextSequence)
    && (forall at :: at in s'.rooms && at !in s.rooms ==> s'.rooms[at].nextSequence == 1)
  }

  lemma JoinIsQuiet(s: Tables, op: Op)
    requires op.OpAuthorizeJoin?
    ensures QuietCounters(s, Perform(s, op))
  {
    var change := JoinEffect(s, op.group, op.credential, op.nickname, op.member, op.token);
  }

  lemma CreationIsQuiet(s: Tables, name: string, mode: AccessMode, g: Uuid, creator: Uuid, admin: string,
                        invite: string)
    ensures QuietCounters(s, CreateGroup(s, name, mode, g, creator, admin, invite).tables)
  {
  }

  lemma RotationIsQuiet(s: Tables, op: Op)
    requires op.OpRotateGroupToken?
    ensures QuietCounters(s, Perform(s, op))
  {
    RotationChange(s, op);
  }

  lemma NewRoomIsQuiet(s: Tables, g: Uuid, name: string, visibility: RoomVisibility, creator: Option<Uuid>,
                       room: string)
    ensures QuietCounters(s, CreateRoom(s, g, name, visibility, creator, room).tables)
  {
  }

  lemma MostStepsAreQuiet(s: Tables, op: Op)
    requires !op.OpAppendMessage?
    ensures QuietCounters(s, Perform(s, op))
  {
    match op
    case OpAuthorizeJoin(_, _, _, _, _) => JoinIsQuiet(s, op);
    case OpCreateGroup(name, mode, g, creator, admin, invite) =>
      CreationIsQuiet(s, name, mode, g, creator, admin, invite);
    case OpRotateGroupToken(_, _, _, _) => RotationIsQuiet(s, op);
    case OpCreateRoom(g, name, visibility, owner, room) => NewRoomIsQuiet(s, g, name, visibility, owner, room);
    case _ =>
  }

  lemma QuietKeepsNumbers(s: Tables, s': Tables)
    requires Numbered(s) && QuietCounters(s, s')
    ensures Numbered(s')
  {
    forall at, n: nat | at in s'.rooms && 1 <= n < s'.rooms[at].nextSequence ensures Taken(s', at, n) {
      assert at in s.rooms;
      assert Taken(s, at, n);
      var i: Uuid :| MessageAt(s, i, at, n);
      assert MessageAt(s', i, at, n);
    }
    forall at, n: nat, i: Uuid, j: Uuid | MessageAt(s', i, at, n) && MessageAt(s', j, at, n) ensures i == j {
      assert MessageAt(s, i, at, n) && MessageAt(s, j, at, n);
    }
  }

  /** One message more, with the number the room was at. */
  predicate Extends(s: Tables, s': Tables, id: Uuid, row: MessageRow) {
    && row.at in s.rooms && id !in s.messages
    && row.sequence == s.rooms[row.at].nextSequence < I64_MAX
    && s'.messages == s.messages[id := row]
    && s'.rooms == s.rooms[row.at := s.rooms[row.at].(nextSequence := row.sequence + 1)]
  }

  lemma ExtensionKeepsNumbers(s: Tables, s': Tables, id: Uuid, row: MessageRow)
    requires Numbered(s) && Extends(s, s', id, row)
    ensures Numbered(s')
  {
    forall at, n: nat | at in s'.rooms && 1 <= n < s'.rooms[at].nextSequence ensures Taken(s', at, n) {
      if at == row.at && n == row.sequence {
        assert MessageAt(s', id, at, n);
      } else {
        assert Taken(s, at, n);
        var i: Uuid :| MessageAt(s, i, at, n);
        assert MessageAt(s', i, at, n);
      }
    }
    forall at, n: nat, i: Uuid, j: Uuid | MessageAt(s', i, at, n) && MessageAt(s', j, at, n) ensures i == j {
      if i != id && j != id {
        assert MessageAt(s, i, at, n) && MessageAt(s, j, at, n);
      }
    }
  }

  lemma ExtensionStaysReadable(key: nat, s: Tables, s': Tables, records: map<Uuid, ChatRecord>, id: Uuid,
                               row: MessageRow, record: ChatRecord)
    requires Readable(key, s, records) && Extends(s, s', id, row)
    requires ReadBack(key, id, row) == Ok(record)
    ensures Readable(key, s', records[id := record])
  {
  }

  /**
   Appending fails exactly for an unknown room, a message id already used, or a room whose numbers have run out, and
   then changes nothing. Otherwise the message gets the room's next number.
   */
  lemma AppendOutcome(key: nat, s: Tables, g: Uuid, room: string, id: Uuid, sender: Peer, sentAtMs: nat, text: string,
                      nonce: seq<Byte>)
    requires Numbered(s)
    ensures var step := AppendMessage(key, s, g, room, id, sender, sentAtMs, text, nonce);
            var at := RoomKey(g, room);
            && (step.result.Err? <==> at !in s.rooms || id in s.messages || s.rooms[at].nextSequence == I64_MAX)
            && (step.result.Err? ==> step.tables == s)
            && (step.result.Ok? ==>
                  && step.result.value.sequence == s.rooms[at].nextSequence
                  && id in step.tables.messages
                  && Extends(s, step.tables, id, step.tables.messages[id])
                  && step.tables.messages[id].at == at
                  && Decrypted(key, At(at, id, s.rooms[at].nextSequence), step.tables.messages[id].body) == Ok(text))
  {
  }

  /**
   A message reads back whole: the number that was answered, its id, its sender, its room, its time and its text. Only
   the sender's address for private chat is not stored, and a time beyond SQLite's integers is cut to the last of them.
   */
  lemma AppendedReadsBack(s: Tables, op: Op)
    requires op.OpAppendMessage? && Appended(s, op).Ok?
    ensures var s' := Perform(s, op);
            && op.message in s'.messages
            && s'.messages[op.message].at == RoomKey(op.group, op.room)
            && ReadBack(op.key, op.message, s'.messages[op.message]) == Ok(Kept(op, Appended(s, op).value.sequence))
    ensures Appended(s, op).value ==
            Kept(op, Appended(s, op).value.sequence).(sender := op.sender, sentAtMs := op.sentAtMs)
  {
  }

  /** Numbering is kept whatever the records and keys. */
  lemma NumberedStep(s: Tables, op: Op)
    requires Numbered(s)
    ensures Numbered(Perform(s, op))
  {
    if op.OpAppendMessage? {
      AppendOutcome(op.key, s, op.group, op.room, op.message, op.sender, op.sentAtMs, op.text, op.nonce);
      if Appended(s, op).Ok? {
        var s' := AppendMessage(op.key, s, op.group, op.room, op.message, op.sender, op.sentAtMs, op.text,
          op.nonce).tables;
        ExtensionKeepsNumbers(s, s', op.message, s'.messages[op.message]);
      }
    } else {
      MostStepsAreQuiet(s, op);
      QuietKeepsNumbers(s, Perform(s, op));
    }
  }

  lemma AppendStep(key: nat, s: Tables, records: map<Uuid, ChatRecord>, op: Op)
    requires op.OpAppendMessage? && op.key == key && MessagesOk(key, s, records) && Appended(s, op).Ok?
    ensures Readable(key, Perform(s, op), RecordsWith(s, records, op))
    ensures op.message !in s.messages
  {
    AppendOutcome(op.key, s, op.group, op.room, op.message, op.sender, op.sentAtMs, op.text, op.nonce);
    AppendedReadsBack(s, op);
    var s' := AppendMessage(op.key, s, op.group, op.room, op.message, op.sender, op.sentAtMs, op.text, op.nonce).tables;
    ExtensionStaysReadable(key, s, s', records, op.message, s'.messages[op.message],
                           Kept(op, Appended(s, op).value.sequence));
  }

  /** One step: numbering and readability are kept, and no stored message changes. */
  lemma MessageStep(key: nat, s: Tables, records: map<Uuid, ChatRecord>, op: Op)
    requires MessagesOk(key, s, records) && Keyed(key, op)
    ensures MessagesOk(key, Perform(s, op), RecordsWith(s, records, op))
    ensures forall i :: i in s.messages ==> i in Perform(s, op).messages && Perform(s, op).messages[i] == s.messages[i]
  {
    NumberedStep(s, op);
    if op.OpAppendMessage? {
      AppendOutcome(op.key, s, op.group, op.room, op.message, op.sender, op.sentAtMs, op.text, op.nonce);
      if Appended(s, op).Ok? {
        AppendStep(key, s, records, op);
      }
    } else {
      MostStepsAreQuiet(s, op);
    }
  }

  // ---------- whole runs ----------

  lemma EmptyStoreIsReadable(key: nat)
    ensures MessagesOk(key, Tables(map[], map[], map[], map[], map[], map[]), map[])
  {
  }

  /**
   In every reachable store the sequences of each room are exactly 1 to `nextSequence - 1`, each used once; the stored
   messages are those whose append succeeded; and each reads back as the message that was appended.
   */
  lemma {:induction false} MessagesStayNumberedAndReadable(key: nat, s: Tables, records: map<Uuid, ChatRecord>,
                                                           ops: seq<Op>)
    requires MessagesOk(key, s, records) && KeyedRun(key, ops)
    ensures MessagesOk(key, PerformAll(s, ops), RecordsAfter(s, records, ops))
  {
    if ops != [] {
      var n := |ops| - 1;
      MessagesStayNumberedAndReadable(key, s, records, ops[..n]);
      MessageStep(key, PerformAll(s, ops[..n]), RecordsAfter(s, records, ops[..n]), ops[n]);
    }
  }

  /** The store is append-only: a stored message stays as it is through every run. */
  lemma {:induction false} StoredMessagesStay(key: nat, s: Tables, records: map<Uuid, ChatRecord>, ops: seq<Op>,
                                              i: Uuid)
    requires MessagesOk(key, s, records) && KeyedRun(key, ops) && i in s.messages
    ensures i in PerformAll(s, ops).messages && PerformAll(s, ops).messages[i] == s.messages[i]
    ensures i in RecordsAfter(s, records, ops) && RecordsAfter(s, records, ops)[i] == records[i]
  {
    MessagesStayNumberedAndReadable(key, s, records, ops);
    if ops != [] {
      var n := |ops| - 1;
      StoredMessagesStay(key, s, records, ops[..n], i);
      MessagesStayNumberedAndReadable(key, s, records, ops[..n]);
      MessageStep(key, PerformAll(s, ops[..n]), RecordsAfter(s, records, ops[..n]), ops[n]);
    }
  }

  // ---------- bodies cannot be moved ----------

  lemma IdBytesDiffer(i: Uuid, j: Uuid)
    requires i != j && i < Power256(16) && j < Power256(16)
    ensures BigEndian(i, 16) != BigEndian(j, 16)
  {
    BigEndianRoundTrip(i, 16);
    BigEndianRoundTrip(j, 16);
  }

  /** The body of one stored message, put into the row of another, is rejected when it is read. */
  lemma SwappedBodyIsRejected(key: nat, s: Tables, records: map<Uuid, ChatRecord>, i: Uuid, j: Uuid)
    requires MessagesOk(key, s, records)
    requires i in s.messages && j in s.messages && i != j && i < Power256(16) && j < Power256(16)
    ensures Decrypted(key, At(s.messages[j].at, j, s.messages[j].sequence), s.messages[i].body) ==
      Err(AuthenticationFailed)
  {
    var c := At(s.messages[i].at, i, s.messages[i].sequence);
    var d := At(s.messages[j].at, j, s.messages[j].sequence);
    IdBytesDiffer(i, j);
    BigEndianLength(s.messages[i].at.group, 16);
    BigEndianLength(s.messages[j].at.group, 16);
    BigEndianLength(i, 16);
    BigEndianLength(j, 16);
    assert s.messages[i].body == Encrypted(key, c, s.messages[i].body.nonce, records[i].text);
    BodyOpensOnlyWhereItWasStored(key, c, d, s.messages[i].body.nonce, records[i].text);
  }
}
