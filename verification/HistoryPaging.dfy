/**
 Reading history page by page: the store's queries, the gateway's fitted pages and a client that asks for what precedes
 the oldest message it holds. However messages keep arriving in between, the pages add up to the whole history.
 */
module HistoryPaging {
  import opened Wrappers
  import opened Protocol
  import opened Sanitizer
  import opened BodyCipher
  import opened Frames
  import opened Store
  import opened StoreMessages

  const MAX_HISTORY_PAGE := 100
  const MAX_QUERY_ROWS := 1_000

  // ---------- the queries ----------

  predicate Matches(s: Tables, i: Uuid, at: RoomKey, before: Option<nat>) {
    i in s.messages && s.messages[i].at == at && (before.Some? ==> s.messages[i].sequence < before.value)
  }

  predicate IsNewest(s: Tables, i: Uuid, at: RoomKey, before: Option<nat>) {
    Matches(s, i, at, before) &&
    forall j :: j in s.messages && Matches(s, j, at, before) ==> s.messages[j].sequence <= s.messages[i].sequence
  }

  /** The first row in the order `sequence DESC`. */
  ghost function Newest(s: Tables, at: RoomKey, before: Option<nat>): (found: Option<Uuid>)
    ensures found.Some? ==> IsNewest(s, found.value, at, before)
  {
    if exists i: Uuid :: IsNewest(s, i, at, before) then
      var i: Uuid :| IsNewest(s, i, at, before);
      Some(i)
    else None
  }

  /**
   At most `limit` rows from the newest down, each opened, in ascending order; one that does not open fails them all.
   */
  ghost function Query(key: nat, s: Tables, at: RoomKey, before: Option<nat>, limit: nat): Result<seq<ChatRecord>,
                       CipherError>
    decreases limit
  {
    if limit == 0 then Ok([])
    else
      match Newest(s, at, before)
      case None => Ok([])
      case Some(i) =>
        match ReadBack(key, i, s.messages[i])
        case Err(error) => Err(error)
        case Ok(record) =>
          match Query(key, s, at, Some(s.messages[i].sequence), limit - 1)
          case Err(error) => Err(error)
          case Ok(older) => Ok(older + [record])
  }

  function Clamp(n: nat, low: nat, high: nat): nat {
    if n < low then low else if n > high then high else n
  }

  /** `history`. */
  ghost function History(key: nat, s: Tables, g: Uuid, room: string, limit: nat): Result<seq<ChatRecord>, CipherError> {
    Query(key, s, RoomKey(g, room), None, Clamp(limit, 1, MAX_QUERY_ROWS))
  }

  /** `history_before`. */
  ghost function HistoryBefore(key: nat, s: Tables, g: Uuid, room: string, before: nat, limit: nat)
    : Result<seq<ChatRecord>, CipherError>
  {
    Query(key, s, RoomKey(g, room), Some(if before <= I64_MAX then before else I64_MAX),
      Clamp(limit, 1, MAX_QUERY_ROWS))
  }

  // ---------- what the queries answer ----------

  ghost function IdAt(s: Tables, at: RoomKey, n: nat): (i: Uuid)
    requires Taken(s, at, n)
    ensures MessageAt(s, i, at, n)
  {
    var i: Uuid :| MessageAt(s, i, at, n);
    i
  }

  function Count(s: Tables, at: RoomKey): nat {
    if at in s.rooms && s.rooms[at].nextSequence > 0 then s.rooms[at].nextSequence - 1 else 0
  }

  /** The whole history of a room: message `n + 1` at place `n`. */
  ghost function Log(s: Tables, records: map<Uuid, ChatRecord>, at: RoomKey): (log: seq<ChatRecord>)
    requires Numbered(s) && records.Keys == s.messages.Keys
    ensures |log| == Count(s, at)
  {
    seq(Count(s, at), n requires 0 <= n < Count(s, at) =>
      assert Taken(s, at, n + 1);
      records[IdAt(s, at, n + 1)])
  }

  lemma LogAt(key: nat, s: Tables, records: map<Uuid, ChatRecord>, at: RoomKey, n: nat)
    requires MessagesOk(key, s, records) && n < Count(s, at)
    ensures Taken(s, at, n + 1) && Log(s, records, at)[n] == records[IdAt(s, at, n + 1)]
    ensures Log(s, records, at)[n].sequence == n + 1 && Log(s, records, at)[n].messageId == IdAt(s, at, n + 1)
    ensures Log(s, records, at)[n].roomId == at.room
  {
    assert Taken(s, at, n + 1);
  }

  /** How many messages precede the bound. */
  function Upper(count: nat, before: Option<nat>): (n: nat)
    ensures n <= count
  {
    if before.None? || before.value > count then count else if before.value == 0 then 0 else before.value - 1
  }

  function Lower(upper: nat, limit: nat): nat {
    if upper <= limit then 0 else upper - limit
  }

  lemma NewestHasThatNumber(s: Tables, at: RoomKey, before: Option<nat>)
    requires Numbered(s)
    ensures var hi := Upper(Count(s, at), before);
            var found := Newest(s, at, before);
            if hi == 0 then found == None else Taken(s, at, hi) && found == Some(IdAt(s, at, hi))
  {
    var hi := Upper(Count(s, at), before);
    if hi > 0 {
      assert Taken(s, at, hi);
      assert IsNewest(s, IdAt(s, at, hi), at, before);
      var found := Newest(s, at, before).value;
      assert Matches(s, IdAt(s, at, hi), at, before);
      assert MessageAt(s, found, at, hi);
    }
  }

  lemma StoredIsLogged(key: nat, s: Tables, records: map<Uuid, ChatRecord>, at: RoomKey, n: nat)
    requires MessagesOk(key, s, records) && n < Count(s, at)
    ensures Taken(s, at, n + 1) && IdAt(s, at, n + 1) in s.messages
    ensures s.messages[IdAt(s, at, n + 1)].sequence == n + 1
    ensures ReadBack(key, IdAt(s, at, n + 1), s.messages[IdAt(s, at, n + 1)]) == Ok(Log(s, records, at)[n])
  {
  }

  lemma LongerSlice(log: seq<ChatRecord>, hi: nat, limit: nat)
    requires 0 < hi <= |log| && limit > 0
    ensures Lower(hi, limit) == Lower(hi - 1, limit - 1) <= hi - 1
    ensures log[Lower(hi, limit)..hi] == log[Lower(hi - 1, limit - 1)..hi - 1] + [log[hi - 1]]
  {
  }

  /** One row of a query: the newest below the bound, after whatever the older ones are. */
  lemma QueryStep(key: nat, s: Tables, records: map<Uuid, ChatRecord>, at: RoomKey, before: Option<nat>, limit: nat,
                  older: seq<ChatRecord>)
    requires MessagesOk(key, s, records) && limit > 0
    requires var hi := Upper(Count(s, at), before);
             hi > 0 && Query(key, s, at, Some(hi), limit - 1) == Ok(older)
    ensures Query(key, s, at, before, limit) == Ok(older + [Log(s, records, at)[Upper(Count(s, at), before) - 1]])
  {
    NewestHasThatNumber(s, at, before);
    StoredIsLogged(key, s, records, at, Upper(Count(s, at), before) - 1);
  }

  lemma EmptyQuery(key: nat, s: Tables, at: RoomKey, before: Option<nat>, limit: nat)
    requires Numbered(s) && (limit == 0 || Upper(Count(s, at), before) == 0)
    ensures Query(key, s, at, before, limit) == Ok([])
  {
  }

  /** A query answers a slice of the history: the `limit` messages before the bound, in order. */
  lemma {:induction false} QueryIsASlice(key: nat, s: Tables, records: map<Uuid, ChatRecord>, at: RoomKey,
                                         before: Option<nat>, limit: nat)
    requires MessagesOk(key, s, records)
    ensures var hi := Upper(Count(s, at), before);
            Query(key, s, at, before, limit) == Ok(Log(s, records, at)[Lower(hi, limit)..hi])
    decreases limit
  {
    var hi := Upper(Count(s, at), before);
    if limit == 0 || hi == 0 {
      EmptyQuery(key, s, at, before, limit);
      assert Log(s, records, at)[Lower(hi, limit)..hi] == [];
    } else {
      var log := Log(s, records, at);
      LongerSlice(log, hi, limit);
      QueryIsASlice(key, s, records, at, Some(hi), limit - 1);
      QueryStep(key, s, records, at, before, limit, log[Lower(hi - 1, limit - 1)..hi - 1]);
    }
  }

  lemma LoggedStays(key: nat, s: Tables, records: map<Uuid, ChatRecord>, ops: seq<Op>, at: RoomKey, n: nat)
    requires MessagesOk(key, s, records) && KeyedRun(key, ops) && n < Count(s, at)
    ensures MessagesOk(key, PerformAll(s, ops), RecordsAfter(s, records, ops))
    ensures n < Count(PerformAll(s, ops), at)
    ensures Log(PerformAll(s, ops), RecordsAfter(s, records, ops), at)[n] == Log(s, records, at)[n]
  {
    var s', records' := PerformAll(s, ops), RecordsAfter(s, records, ops);
    LogAt(key, s, records, at, n);
    var i := IdAt(s, at, n + 1);
    MessagesStayNumberedAndReadable(key, s, records, ops);
    StoredMessagesStay(key, s, records, ops, i);
    assert MessageAt(s', i, at, n + 1);
    LogAt(key, s', records', at, n);
  }

  /** Later operations only lengthen a room's history: what it held stays in place. */
  lemma LogOnlyGrows(key: nat, s: Tables, records: map<Uuid, ChatRecord>, ops: seq<Op>, at: RoomKey)
    requires MessagesOk(key, s, records) && KeyedRun(key, ops)
    ensures MessagesOk(key, PerformAll(s, ops), RecordsAfter(s, records, ops))
    ensures Log(s, records, at) <= Log(PerformAll(s, ops), RecordsAfter(s, records, ops), at)
  {
    MessagesStayNumberedAndReadable(key, s, records, ops);
    var log, log' := Log(s, records, at), Log(PerformAll(s, ops), RecordsAfter(s, records, ops), at);
    forall n: nat | n < |log| ensures n < |log'| && log'[n] == log[n] {
      LoggedStays(key, s, records, ops, at, n);
    }
    if log != [] {
      LoggedStays(key, s, records, ops, at, |log| - 1);
    }
  }

  // ---------- the history is what was appended ----------

  /** The messages a run appended to one room, in the order they were appended. */
  ghost function AppendedTo(s: Tables, ops: seq<Op>, at: RoomKey): seq<ChatRecord> {
    if ops == [] then []
    else
      var front := ops[..|ops| - 1];
      AppendedTo(s, front, at) + AppendedBy(PerformAll(s, front), ops[|ops| - 1], at)
  }

  function AppendedBy(s: Tables, op: Op, at: RoomKey): seq<ChatRecord> {
    if op.OpAppendMessage? && RoomKey(op.group, op.room) == at && Appended(s, op).Ok? then
      [Kept(op, Appended(s, op).value.sequence)]
    else []
  }

  lemma CountStep(s: Tables, op: Op, at: RoomKey)
    requires Numbered(s)
    ensures Count(Perform(s, op), at) == Count(s, at) + |AppendedBy(s, op, at)|
    ensures AppendedBy(s, op, at) != [] ==> AppendedBy(s, op, at)[0].sequence == Count(s, at) + 1
  {
    if op.OpAppendMessage? {
      AppendOutcome(op.key, s, op.group, op.room, op.message, op.sender, op.sentAtMs, op.text, op.nonce);
    } else {
      MostStepsAreQuiet(s, op);
    }
  }

  lemma LogStepKeeps(key: nat, s: Tables, records: map<Uuid, ChatRecord>, op: Op, at: RoomKey, n: nat)
    requires MessagesOk(key, s, records) && Keyed(key, op) && n < Count(s, at)
    ensures MessagesOk(key, Perform(s, op), RecordsWith(s, records, op)) && n < Count(Perform(s, op), at)
    ensures Log(Perform(s, op), RecordsWith(s, records, op), at)[n] == Log(s, records, at)[n]
  {
    var s', records' := Perform(s, op), RecordsWith(s, records, op);
    MessageStep(key, s, records, op);
    CountStep(s, op, at);
    LogAt(key, s, records, at, n);
    LogAt(key, s', records', at, n);
    var i := IdAt(s, at, n + 1);
    assert MessageAt(s', i, at, n + 1) && MessageAt(s', IdAt(s', at, n + 1), at, n + 1);
    assert ReadBack(key, i, s'.messages[i]) == Ok(records[i]);
  }

  lemma LogStepAdds(key: nat, s: Tables, records: map<Uuid, ChatRecord>, op: Op, at: RoomKey)
    requires MessagesOk(key, s, records) && Keyed(key, op) && AppendedBy(s, op, at) != []
    ensures MessagesOk(key, Perform(s, op), RecordsWith(s, records, op))
    ensures Count(Perform(s, op), at) == Count(s, at) + 1
    ensures Log(Perform(s, op), RecordsWith(s, records, op), at)[Count(s, at)] == AppendedBy(s, op, at)[0]
  {
    var s', records' := Perform(s, op), RecordsWith(s, records, op);
    MessageStep(key, s, records, op);
    CountStep(s, op, at);
    LogAt(key, s', records', at, Count(s, at));
    AppendedReadsBack(s, op);
    assert MessageAt(s', op.message, at, Count(s, at) + 1);
  }

  lemma LogStep(key: nat, s: Tables, records: map<Uuid, ChatRecord>, op: Op, at: RoomKey)
    requires MessagesOk(key, s, records) && Keyed(key, op)
    ensures MessagesOk(key, Perform(s, op), RecordsWith(s, records, op))
    ensures Log(Perform(s, op), RecordsWith(s, records, op), at) == Log(s, records, at) + AppendedBy(s, op, at)
  {
    MessageStep(key, s, records, op);
    CountStep(s, op, at);
    var log, log' := Log(s, records, at), Log(Perform(s, op), RecordsWith(s, records, op), at);
    forall n | 0 <= n < |log| ensures log'[n] == log[n] {
      LogStepKeeps(key, s, records, op, at, n);
    }
    if AppendedBy(s, op, at) != [] {
      LogStepAdds(key, s, records, op, at);
    }
  }

  /**
   The history of a room is what was appended to it, whole and in order: what it was before the run, then every message
   the run appended there with its number, id, sender, time and text.
   */
  lemma {:induction false} HistoryIsWhatWasAppended(key: nat, s: Tables, records: map<Uuid, ChatRecord>, ops: seq<Op>,
                                                    at: RoomKey)
    requires MessagesOk(key, s, records) && KeyedRun(key, ops)
    ensures MessagesOk(key, PerformAll(s, ops), RecordsAfter(s, records, ops))
    ensures Log(PerformAll(s, ops), RecordsAfter(s, records, ops), at) == Log(s, records, at) + AppendedTo(s, ops, at)
  {
    if ops != [] {
      var n := |ops| - 1;
      HistoryIsWhatWasAppended(key, s, records, ops[..n], at);
      LogStep(key, PerformAll(s, ops[..n]), RecordsAfter(s, records, ops[..n]), ops[n], at);
    }
  }

  // ---------- the gateway's answers ----------

  datatype Page = InvalidRequest | Unavailable | HistoryPage(messages: seq<ChatRecord>, hasMore: bool)

  predicate StartsLate(messages: seq<ChatRecord>) {
    messages != [] && messages[0].sequence > 1
  }

  /** The history a room is joined with. */
  ghost function JoinedHistory(key: nat, s: Tables, g: Uuid, room: string): Result<seq<ChatRecord>, CipherError> {
    match History(key, s, g, room, HISTORY_CAPACITY)
    case Err(error) => Err(error)
    case Ok(history) => Ok(FittedHistory(history))
  }

  /** `handle_load_history` for a session that has joined the room. */
  ghost function LoadHistory(key: nat, s: Tables, g: Uuid, room: string, before: nat, limit: nat): Page {
    if !IsSafeIdentifier(room) || before <= 1 then InvalidRequest
    else
      match HistoryBefore(key, s, g, room, before, Clamp(limit, 1, MAX_HISTORY_PAGE))
      case Err(_) => Unavailable
      case Ok(messages) =>
        var fitted := FittedHistory(messages);
        HistoryPage(fitted, StartsLate(fitted))
  }

  lemma EndOfSlice(log: seq<ChatRecord>, lo: nat, hi: nat, slice: seq<ChatRecord>, end: seq<ChatRecord>)
    returns (from: nat)
    requires lo <= hi <= |log| && slice == log[lo..hi]
    requires |end| <= |slice| && end == slice[|slice| - |end|..] && (slice != [] ==> end != [])
    ensures lo <= from <= hi && end == log[from..hi] && (lo < hi ==> from < hi)
  {
    from := hi - |end|;
  }

  /** Fitting a slice keeps its newest end and at least one message. */
  lemma FittedSlice(log: seq<ChatRecord>, lo: nat, hi: nat) returns (from: nat)
    requires lo <= hi <= |log|
    ensures lo <= from <= hi && FittedHistory(log[lo..hi]) == log[from..hi]
    ensures lo < hi ==> from < hi
  {
    var slice := log[lo..hi];
    FittedHistoryIsTheNewestEnd(slice);
    from := EndOfSlice(log, lo, hi, slice, FittedHistory(slice));
  }

  // ---------- the client ----------

  predicate Holds(held: seq<ChatRecord>, m: ChatRecord) {
    exists i :: 0 <= i < |held| && held[i].messageId == m.messageId
  }

  /** The messages of a page that are not held yet. */
  function NotHeld(messages: seq<ChatRecord>, held: seq<ChatRecord>): seq<ChatRecord> {
    if messages == [] then []
    else (if Holds(held, messages[0]) then [] else [messages[0]]) + NotHeld(messages[1..], held)
  }

  lemma NotHeldStep(messages: seq<ChatRecord>, i: nat, held: seq<ChatRecord>)
    requires i < |messages|
    ensures NotHeld(messages[i..], held) + held ==
            (if Holds(held, messages[i]) then [] else [messages[i]]) + (NotHeld(messages[i + 1..], held) + held)
  {
  }

  /**
   What a client shows of one room: the messages it holds, whether older ones are known to exist, and a request under
   way.
   */
  class RoomView {
    var items: seq<ChatRecord>
    var hasMore: bool
    var loading: bool

    /** `RoomJoined`: the view starts from the history it was joined with. */
    constructor (history: seq<ChatRecord>)
      ensures items == history && hasMore == StartsLate(history) && !loading
    {
      items, hasMore, loading := history, history != [] && history[0].sequence > 1, false;
    }

    /** `PageUp`: ask for what precedes the oldest message held. */
    method PageUp() returns (before: Option<nat>)
      modifies this
      ensures items == old(items) && hasMore == old(hasMore)
      ensures before == if hasMore && !old(loading) && items != [] then Some(items[0].sequence) else None
      ensures loading == (old(loading) || before.Some?)
    {
      before := None;
      if hasMore && !loading && items != [] {
        loading := true;
        before := Some(items[0].sequence);
      }
    }

    /** `HistoryPage`: put the messages not held yet in front. */
    method ReceivePage(messages: seq<ChatRecord>, more: bool)
      modifies this
      ensures items == NotHeld(messages, old(items)) + old(items)
      ensures hasMore == more && !loading
    {
      var existing := items;
      var i := |messages|;
      while i > 0
        invariant 0 <= i <= |messages|
        invariant existing == old(items)
        invariant items == NotHeld(messages[i..], existing) + existing
      {
        i := i - 1;
        NotHeldStep(messages, i, existing);
        if !Holds(existing, messages[i]) {
          items := [messages[i]] + items;
        }
      }
      assert messages[0..] == messages;
      hasMore := more;
      loading := false;
    }

    /** A whole turn: the request `PageUp` makes and the page the gateway answers it with. */
    method TurnPage(key: nat, g: Uuid, room: string, ghost r: Reader, reply: Page)
      requires !loading && r.items == items && r.hasMore == hasMore && hasMore && items != []
      requires reply == LoadHistory(key, r.tables, g, room, items[0].sequence, MAX_HISTORY_PAGE) && reply.HistoryPage?
      modifies this
      ensures r.(items := items, hasMore := hasMore) == NextPage(key, g, room, r) && !loading
    {
      var before := PageUp();
      ReceivePage(reply.messages, reply.hasMore);
    }
  }

  /** A reader of one room and the store it reads from, with the records of what that store was given. */
  datatype Reader = Reader(tables: Tables, records: map<Uuid, ChatRecord>, items: seq<ChatRecord>, hasMore: bool)

  /** One request and its answer, as `RoomView` makes and takes them. */
  ghost function NextPage(key: nat, g: Uuid, room: string, r: Reader): Reader {
    if !r.hasMore || r.items == [] then r
    else
      match LoadHistory(key, r.tables, g, room, r.items[0].sequence, MAX_HISTORY_PAGE)
      case HistoryPage(messages, more) => r.(items := NotHeld(messages, r.items) + r.items, hasMore := more)
      case _ => r
  }

  function Meanwhile(r: Reader, tables: Tables, records: map<Uuid, ChatRecord>): Reader {
    r.(tables := tables, records := records)
  }

  /** A request after each of the given runs of the store. */
  ghost function ReadPages(key: nat, g: Uuid, room: string, r: Reader, runs: seq<seq<Op>>): Reader {
    if runs == [] then r
    else
      var so := ReadPages(key, g, room, r, runs[..|runs| - 1]);
      var ops := runs[|runs| - 1];
      NextPage(key, g, room, Meanwhile(so, PerformAll(so.tables, ops), RecordsAfter(so.tables, so.records, ops)))
  }

  predicate KeyedRuns(key: nat, runs: seq<seq<Op>>) {
    forall i :: 0 <= i < |runs| ==> KeyedRun(key, runs[i])
  }

  /** The reader holds exactly messages `from + 1` to `|log|`, and knows whether any are missing. */
  ghost predicate Reading(key: nat, at: RoomKey, r: Reader, log: seq<ChatRecord>, from: nat) {
    && MessagesOk(key, r.tables, r.records)
    && log <= Log(r.tables, r.records, at)
    && from <= |log| && (from == |log| ==> log == [])
    && r.items == log[from..]
    && (r.hasMore <==> from > 0)
  }

  lemma {:induction false} AllNew(messages: seq<ChatRecord>, held: seq<ChatRecord>)
    requires forall i, j :: 0 <= i < |messages| && 0 <= j < |held| ==> messages[i].messageId != held[j].messageId
    ensures NotHeld(messages, held) == messages
  {
    if messages != [] {
      AllNew(messages[1..], held);
      assert [messages[0]] + messages[1..] == messages;
    }
  }

  lemma LogIdsDiffer(key: nat, s: Tables, records: map<Uuid, ChatRecord>, at: RoomKey, i: nat, j: nat)
    requires MessagesOk(key, s, records) && i < Count(s, at) && j < Count(s, at) && i != j
    ensures Log(s, records, at)[i].messageId != Log(s, records, at)[j].messageId
  {
    LogAt(key, s, records, at, i);
    LogAt(key, s, records, at, j);
  }

  function Asked(limit: nat): nat {
    if limit == 0 then 1 else if limit > 100 then 100 else limit
  }

  lemma CountIsSmall(s: Tables, at: RoomKey)
    requires Numbered(s)
    ensures Count(s, at) < I64_MAX
  {
  }

  /**
   What the gateway answers to any valid request: of the messages before the bound the last `limit`, from 1 to 100 of
   them, as many as fit, and whether they start after message 1.
   */
  lemma EveryPageIsTheFittedSlice(key: nat, g: Uuid, room: string, s: Tables, records: map<Uuid, ChatRecord>,
                                  before: nat, limit: nat)
    requires MessagesOk(key, s, records) && IsSafeIdentifier(room) && before > 1
    ensures var log := Log(s, records, RoomKey(g, room));
            var hi := Upper(|log|, Some(before));
            var page := FittedHistory(log[Lower(hi, Asked(limit))..hi]);
            LoadHistory(key, s, g, room, before, limit) == HistoryPage(page, StartsLate(page))
  {
    var bound := if before <= I64_MAX then before else I64_MAX;
    CountIsSmall(s, RoomKey(g, room));
    QueryIsASlice(key, s, records, RoomKey(g, room), Some(bound), Asked(limit));
  }

  lemma StartOfPage(key: nat, s: Tables, records: map<Uuid, ChatRecord>, at: RoomKey, page: seq<ChatRecord>, next: nat,
                    from: nat)
    requires MessagesOk(key, s, records) && next < from <= Count(s, at)
    requires page == Log(s, records, at)[next..from]
    ensures StartsLate(page) <==> next > 0
  {
    LogAt(key, s, records, at, next);
    assert page[0] == Log(s, records, at)[next];
  }

  /** What the gateway answers a reader who holds everything from place `from` on. */
  lemma PageAnswer(key: nat, g: Uuid, room: string, s: Tables, records: map<Uuid, ChatRecord>, from: nat)
    returns (next: nat)
    requires MessagesOk(key, s, records) && IsSafeIdentifier(room) && 0 < from < Count(s, RoomKey(g, room))
    ensures next < from
    ensures LoadHistory(key, s, g, room, from + 1, MAX_HISTORY_PAGE) ==
            HistoryPage(Log(s, records, RoomKey(g, room))[next..from], next > 0)
  {
    var at := RoomKey(g, room);
    EveryPageIsTheFittedSlice(key, g, room, s, records, from + 1, MAX_HISTORY_PAGE);
    next := FittedSlice(Log(s, records, at), Lower(from, MAX_HISTORY_PAGE), from);
    StartOfPage(key, s, records, at, Log(s, records, at)[next..from], next, from);
  }

  lemma PageIsNew(key: nat, s: Tables, records: map<Uuid, ChatRecord>, at: RoomKey, next: nat, from: nat, upto: nat)
    requires MessagesOk(key, s, records) && next <= from <= upto <= Count(s, at)
    ensures var log := Log(s, records, at);
            NotHeld(log[next..from], log[from..upto]) == log[next..from]
  {
    var log := Log(s, records, at);
    var page, held := log[next..from], log[from..upto];
    forall i, j | 0 <= i < |page| && 0 <= j < |held| ensures page[i].messageId != held[j].messageId {
      LogIdsDiffer(key, s, records, at, next + i, from + j);
    }
    AllNew(page, held);
  }

  lemma PrefixSlices(log: seq<ChatRecord>, whole: seq<ChatRecord>, next: nat, from: nat)
    requires log <= whole && next <= from <= |log|
    ensures log[from..] == whole[from..|log|]
    ensures whole[next..from] + log[from..] == log[next..]
  {
  }

  /** One request of a reader that misses something. */
  lemma PageTaken(key: nat, g: Uuid, room: string, r: Reader, log: seq<ChatRecord>, from: nat) returns (next: nat)
    requires IsSafeIdentifier(room) && Reading(key, RoomKey(g, room), r, log, from) && from > 0
    ensures next < from && NextPage(key, g, room, r) == r.(items := log[next..], hasMore := next > 0)
  {
    var at := RoomKey(g, room);
    var whole := Log(r.tables, r.records, at);
    LogAt(key, r.tables, r.records, at, from);
    next := PageAnswer(key, g, room, r.tables, r.records, from);
    PageIsNew(key, r.tables, r.records, at, next, from, |log|);
    PrefixSlices(log, whole, next, from);
    assert r.items[0] == whole[from];
  }

  /** One page brings the reader strictly further, and never a message twice. */
  lemma PageStep(key: nat, g: Uuid, room: string, r: Reader, log: seq<ChatRecord>, from: nat) returns (next: nat)
    requires IsSafeIdentifier(room) && Reading(key, RoomKey(g, room), r, log, from)
    ensures Reading(key, RoomKey(g, room), NextPage(key, g, room, r), log, next)
    ensures from > 0 ==> next < from
    ensures from == 0 ==> next == 0
  {
    next := from;
    if from > 0 {
      next := PageTaken(key, g, room, r, log, from);
    }
  }

  /** A room is joined with as many of its last 200 messages as fit. */
  lemma EveryJoinShowsTheFittedEnd(key: nat, g: Uuid, room: string, s: Tables, records: map<Uuid, ChatRecord>)
    requires MessagesOk(key, s, records)
    ensures var log := Log(s, records, RoomKey(g, room));
            JoinedHistory(key, s, g, room) == Ok(FittedHistory(log[Lower(|log|, 200)..|log|]))
  {
    QueryIsASlice(key, s, records, RoomKey(g, room), None, HISTORY_CAPACITY);
  }

  lemma StartsLateAt(key: nat, s: Tables, records: map<Uuid, ChatRecord>, at: RoomKey, from: nat)
    requires MessagesOk(key, s, records) && from <= Count(s, at)
    ensures StartsLate(Log(s, records, at)[from..]) <==> 0 < from < Count(s, at)
  {
    if from < Count(s, at) {
      LogAt(key, s, records, at, from);
    }
  }

  /** Joining starts the reader with the newest messages, at least one if there are any. */
  lemma JoinStep(key: nat, g: Uuid, room: string, s: Tables, records: map<Uuid, ChatRecord>, history: seq<ChatRecord>)
    returns (from: nat)
    requires MessagesOk(key, s, records) && JoinedHistory(key, s, g, room) == Ok(history)
    ensures Reading(key, RoomKey(g, room), Reader(s, records, history, StartsLate(history)),
      Log(s, records, RoomKey(g, room)), from)
  {
    var at := RoomKey(g, room);
    var log := Log(s, records, at);
    EveryJoinShowsTheFittedEnd(key, g, room, s, records);
    from := FittedSlice(log, Lower(|log|, 200), |log|);
    assert log[from..|log|] == log[from..];
    StartsLateAt(key, s, records, at, from);
  }

  /** Between requests the store only adds to what the reader is reading. */
  lemma ReadingMeanwhile(key: nat, at: RoomKey, r: Reader, log: seq<ChatRecord>, from: nat, ops: seq<Op>)
    requires Reading(key, at, r, log, from) && KeyedRun(key, ops)
    ensures Reading(key, at, Meanwhile(r, PerformAll(r.tables, ops), RecordsAfter(r.tables, r.records, ops)), log, from)
  {
    LogOnlyGrows(key, r.tables, r.records, ops, at);
  }

  lemma {:induction false} ReadingOn(key: nat, g: Uuid, room: string, r: Reader, log: seq<ChatRecord>, from: nat,
                                     runs: seq<seq<Op>>)
    returns (next: nat)
    requires IsSafeIdentifier(room) && Reading(key, RoomKey(g, room), r, log, from) && KeyedRuns(key, runs)
    ensures Reading(key, RoomKey(g, room), ReadPages(key, g, room, r, runs), log, next)
    ensures next == 0 || next + |runs| <= from
  {
    next := from;
    if runs != [] {
      var n := |runs| - 1;
      var at := RoomKey(g, room);
      assert forall i :: 0 <= i < n ==> runs[..n][i] == runs[i];
      var so := ReadPages(key, g, room, r, runs[..n]);
      next := ReadingOn(key, g, room, r, log, from, runs[..n]);
      ReadingMeanwhile(key, at, so, log, next, runs[n]);
      var later := Meanwhile(so, PerformAll(so.tables, runs[n]), RecordsAfter(so.tables, so.records, runs[n]));
      next := PageStep(key, g, room, later, log, next);
    }
  }

  /** At every moment of paging the reader holds an unbroken end of the history, and each request brings it further. */
  lemma PagingLeavesNoGap(key: nat, g: Uuid, room: string, s: Tables, records: map<Uuid, ChatRecord>,
                          history: seq<ChatRecord>,
                          runs: seq<seq<Op>>) returns (from: nat)
    requires MessagesOk(key, s, records) && IsSafeIdentifier(room) && JoinedHistory(key, s, g, room) == Ok(history)
    requires KeyedRuns(key, runs)
    ensures var log := Log(s, records, RoomKey(g, room));
            var reader := ReadPages(key, g, room, Reader(s, records, history, StartsLate(history)), runs);
            && from <= |log| && reader.items == log[from..] && (reader.hasMore <==> from > 0)
            && (from == 0 || from + |runs| < |log|)
  {
    var start := JoinStep(key, g, room, s, records, history);
    from := ReadingOn(key, g, room, Reader(s, records, history, StartsLate(history)), Log(s, records, RoomKey(g, room)),
      start, runs);
  }

  lemma LogIsNumbered(key: nat, s: Tables, records: map<Uuid, ChatRecord>, at: RoomKey)
    requires MessagesOk(key, s, records)
    ensures forall i :: 0 <= i < Count(s, at) ==> Log(s, records, at)[i].sequence == i + 1
  {
    forall i | 0 <= i < Count(s, at) ensures Log(s, records, at)[i].sequence == i + 1 {
      LogAt(key, s, records, at, i);
    }
  }

  /**
   Paging is complete: within as many requests as there were messages at joining, the reader holds all of them, 1 to n
   in order with no gap or repeat, and is told there is no more, whatever the store does between the requests.
   */
  lemma PagingReadsEverything(key: nat, g: Uuid, room: string, s: Tables, records: map<Uuid, ChatRecord>,
                              history: seq<ChatRecord>,
                              runs: seq<seq<Op>>)
    requires MessagesOk(key, s, records) && IsSafeIdentifier(room) && JoinedHistory(key, s, g, room) == Ok(history)
    requires KeyedRuns(key, runs) && |runs| >= Count(s, RoomKey(g, room))
    ensures var reader := ReadPages(key, g, room, Reader(s, records, history, StartsLate(history)), runs);
            && !reader.hasMore
            && |reader.items| == Count(s, RoomKey(g, room))
            && reader.items == Log(s, records, RoomKey(g, room))
            && forall i :: 0 <= i < |reader.items| ==> reader.items[i].sequence == i + 1
  {
    var from := PagingLeavesNoGap(key, g, room, s, records, history, runs);
    assert Log(s, records, RoomKey(g, room))[0..] == Log(s, records, RoomKey(g, room));
    LogIsNumbered(key, s, records, RoomKey(g, room));
  }
}
