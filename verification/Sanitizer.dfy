/** The text boundary of src/security.rs, applied by the sender, the gateway and the receiver. */
module Sanitizer {
  import opened Wrappers
  import opened Text

  const MAX_NICKNAME_CHARS := 32
  const MAX_MESSAGE_BYTES := 4096
  const MAX_MESSAGE_LINES := 40
  const MAX_GROUP_CREDENTIAL_BYTES := 128

  datatype TextError = TooLarge | TooManyLines | EmptyText | TooLong

  predicate IsForbiddenTerminalChar(c: char) {
    || c as int == 0x1B
    || c as int == 0x7F
    || (IsControl(c) && c != '\n' && c != '\r' && c != '\t')
    || 0x80 <= c as int <= 0x9F
  }

  // ---------- chat text ----------

  /** The characters a chat message keeps. */
  predicate IsChatChar(c: char) {
    c != '\r' && !IsForbiddenTerminalChar(c)
  }

  function KeepChatChars(s: string): string {
    if s == [] then []
    else (if IsChatChar(s[0]) then [s[0]] else []) + KeepChatChars(s[1..])
  }

  /** What `sanitize_chat_text` computes, stated without its loop. */
  function SanitizedChat(raw: string): Result<string, TextError> {
    if ByteLength(raw) > MAX_MESSAGE_BYTES then Err(TooLarge)
    else if 1 + Occurrences(raw, '\n') > MAX_MESSAGE_LINES then Err(TooManyLines)
    else
      var text := Trim(KeepChatChars(raw));
      if text == [] then Err(EmptyText) else Ok(text)
  }

  /** A text that can be shown and carried as it is: what every accepted message looks like. */
  predicate CleanChat(text: string) {
    && text != []
    && Trimmed(text)
    && ByteLength(text) <= MAX_MESSAGE_BYTES
    && 1 + Occurrences(text, '\n') <= MAX_MESSAGE_LINES
    && forall i :: 0 <= i < |text| ==> IsChatChar(text[i])
  }

  /** One character of the loop: what is kept and how the line count moves. */
  lemma KeepStep(raw: string, i: nat)
    requires i < |raw|
    ensures KeepChatChars(raw[i..]) == (if IsChatChar(raw[i]) then [raw[i]] else []) + KeepChatChars(raw[i + 1..])
    ensures Occurrences(raw[i..], '\n') == (if raw[i] == '\n' then 1 else 0) + Occurrences(raw[i + 1..], '\n')
  {
  }

  lemma KeptSoFar(sanitized: string, head: string, rest: string, whole: string)
    requires sanitized + (head + rest) == whole
    ensures (sanitized + head) + rest == whole
  {
  }

  method SanitizeChatText(raw: string) returns (result: Result<string, TextError>)
    ensures result == SanitizedChat(raw)
  {
    if ByteLength(raw) > MAX_MESSAGE_BYTES {
      return Err(TooLarge);
    }
    var sanitized: string := "";
    var lines := 1;
    for i := 0 to |raw|
      invariant sanitized + KeepChatChars(raw[i..]) == KeepChatChars(raw)
      invariant lines + Occurrences(raw[i..], '\n') == 1 + Occurrences(raw, '\n')
      invariant lines <= MAX_MESSAGE_LINES
    {
      var ch := raw[i];
      KeepStep(raw, i);
      KeptSoFar(sanitized, if IsChatChar(ch) then [ch] else [], KeepChatChars(raw[i + 1..]), KeepChatChars(raw));
      if ch == '\n' {
        lines := lines + 1;
        if lines > MAX_MESSAGE_LINES {
          return Err(TooManyLines);
        }
        sanitized := sanitized + [ch];
      } else if ch == '\t' {
        sanitized := sanitized + [ch];
      } else if ch == '\r' {
      } else if IsForbiddenTerminalChar(ch) {
      } else {
        sanitized := sanitized + [ch];
      }
    }
    assert sanitized == KeepChatChars(raw);
    var trimmed := Trim(sanitized);
    if trimmed == "" {
      return Err(EmptyText);
    }
    return Ok(trimmed);
  }

  lemma {:induction false} KeptChars(s: string)
    ensures forall i :: 0 <= i < |KeepChatChars(s)| ==> IsChatChar(KeepChatChars(s)[i])
    ensures ByteLength(KeepChatChars(s)) <= ByteLength(s)
    ensures Occurrences(KeepChatChars(s), '\n') == Occurrences(s, '\n')
  {
    if s != [] {
      KeptChars(s[1..]);
      var head := if IsChatChar(s[0]) then [s[0]] else [];
      ByteLengthConcat(head, KeepChatChars(s[1..]));
      OccurrencesConcat(head, KeepChatChars(s[1..]), '\n');
    }
  }

  lemma {:induction false} KeepFixesChatChars(s: string)
    requires forall i :: 0 <= i < |s| ==> IsChatChar(s[i])
    ensures KeepChatChars(s) == s
  {
    if s != [] {
      KeepFixesChatChars(s[1..]);
    }
  }

  /** Every accepted message is clean: no control sequences, at most 4096 bytes and 40 lines, no blank ends. */
  lemma AcceptedChatIsClean(raw: string)
    requires SanitizedChat(raw).Ok?
    ensures CleanChat(SanitizedChat(raw).value)
  {
    var kept := KeepChatChars(raw);
    KeptChars(raw);
    var a, b := TrimSplit(kept);
    var text := Trim(kept);
    ByteLengthConcat(a + text, b);
    ByteLengthConcat(a, text);
    OccurrencesConcat(a + text, b, '\n');
    OccurrencesConcat(a, text, '\n');
    forall i | 0 <= i < |text| ensures IsChatChar(text[i]) {
      assert text[i] == kept[|a| + i];
    }
  }

  /** The characters a chat message and a line keep, as ranges of code points. */
  lemma KeptRanges(c: char)
    ensures IsChatChar(c) <==> c == '\n' || c == '\t' || 0x20 <= c as int < 0x7F || c as int >= 0xA0
    ensures !IsForbiddenTerminalChar(c) <==> IsChatChar(c) || c == '\r'
  {
  }

  /** Positions in a string, from front to back. */
  predicate Ascending(at: seq<nat>, n: nat) {
    && (forall i :: 0 <= i < |at| ==> at[i] < n)
    && (forall i, j :: 0 <= i < j < |at| ==> at[i] < at[j])
  }

  function Shifted(at: seq<nat>, k: nat): (r: seq<nat>)
    ensures |r| == |at| && forall i :: 0 <= i < |at| ==> r[i] == at[i] + k
  {
    seq(|at|, i requires 0 <= i < |at| => at[i] + k)
  }

  /** The positions once a character is put in front, itself kept or not. */
  function Fronted(rest: seq<nat>, kept: bool): seq<nat> {
    (if kept then [0] else []) + Shifted(rest, 1)
  }

  lemma ShiftedAt(at: seq<nat>, j: nat)
    ensures j in Shifted(at, 1) <==> j > 0 && j - 1 in at
  {
    if j > 0 && j - 1 in at {
      var i :| 0 <= i < |at| && at[i] == j - 1;
      assert Shifted(at, 1)[i] == j;
    }
  }

  lemma FrontedAt(rest: seq<nat>, kept: bool, n: nat)
    requires Ascending(rest, n)
    ensures Ascending(Fronted(rest, kept), n + 1)
    ensures forall j: nat :: j in Fronted(rest, kept) <==> if j == 0 then kept else j - 1 in rest
  {
    forall j: nat ensures j in Fronted(rest, kept) <==> if j == 0 then kept else j - 1 in rest {
      ShiftedAt(rest, j);
    }
  }

  /** The positions at `at` are exactly those that `kept` says. */
  predicate Marks(at: seq<nat>, kept: seq<bool>) {
    Ascending(at, |kept|) && forall j :: 0 <= j < |kept| ==> (j in at <==> kept[j])
  }

  lemma MarksFronted(rest: seq<nat>, kept: seq<bool>)
    requires kept != [] && Marks(rest, kept[1..])
    ensures Marks(Fronted(rest, kept[0]), kept)
  {
    FrontedAt(rest, kept[0], |kept| - 1);
    forall j | 0 <= j < |kept| ensures j in Fronted(rest, kept[0]) <==> kept[j] {
      if j > 0 {
        assert kept[j] == kept[1..][j - 1];
      }
    }
  }

  /** Reading a string at positions. */
  function Picked(s: string, at: seq<nat>): (r: string)
    requires Ascending(at, |s|)
    ensures |r| == |at| && forall i :: 0 <= i < |at| ==> r[i] == s[at[i]]
  {
    seq(|at|, i requires 0 <= i < |at| => s[at[i]])
  }

  lemma PickedFronted(s: string, rest: seq<nat>, kept: bool)
    requires s != [] && Ascending(rest, |s| - 1) && Ascending(Fronted(rest, kept), |s|)
    ensures Picked(s, Fronted(rest, kept)) == (if kept then [s[0]] else []) + Picked(s[1..], rest)
  {
  }

  function ChatMask(s: string): seq<bool> {
    seq(|s|, i requires 0 <= i < |s| => IsChatChar(s[i]))
  }

  /** Filtering keeps the chat characters, all of them, in order. */
  lemma {:induction false} KeptInOrder(s: string) returns (at: seq<nat>)
    ensures Marks(at, ChatMask(s)) && KeepChatChars(s) == Picked(s, at)
  {
    at := [];
    if s != [] {
      var rest := KeptInOrder(s[1..]);
      assert ChatMask(s[1..]) == ChatMask(s)[1..];
      MarksFronted(rest, ChatMask(s));
      PickedFronted(s, rest, IsChatChar(s[0]));
      at := Fronted(rest, IsChatChar(s[0]));
    }
  }

  lemma MarkedAt(at: seq<nat>, kept: seq<bool>, j: nat) returns (i: nat)
    requires Marks(at, kept) && j < |kept| && kept[j]
    ensures i < |at| && at[i] == j
  {
    i :| i < |at| && at[i] == j;
  }

  /** A chat character that trimming lost is whitespace outside what is left. */
  lemma LostToTrimming(raw: string, at: seq<nat>, a: string, text: string, b: string, j: nat)
    requires Marks(at, ChatMask(raw)) && Picked(raw, at) == a + text + b && text != []
    requires forall i :: 0 <= i < |a| ==> IsWhitespace(a[i])
    requires forall i :: 0 <= i < |b| ==> IsWhitespace(b[i])
    requires j < |raw| && IsChatChar(raw[j])
    ensures j in at[|a|..|a| + |text|] || (IsWhitespace(raw[j]) && (j < at[|a|] || j > at[|a| + |text| - 1]))
  {
    var i := MarkedAt(at, ChatMask(raw), j);
    assert Picked(raw, at)[i] == raw[j];
    if |a| <= i < |a| + |text| {
      assert at[|a|..|a| + |text|][i - |a|] == j;
    }
  }

  lemma CutOfPicked(raw: string, at: seq<nat>, a: string, text: string, b: string)
    requires Ascending(at, |raw|) && Picked(raw, at) == a + text + b
    ensures var cut := at[|a|..|a| + |text|];
            Ascending(cut, |raw|) && Picked(raw, cut) == text
  {
    assert forall i :: 0 <= i < |text| ==> text[i] == Picked(raw, at)[|a| + i];
  }

  /**
   An accepted message is its input without the characters that are not chat characters and without the whitespace at
   either end: nothing else is dropped, and nothing is moved or made up.
   */
  lemma AcceptedChatIsTheInput(raw: string) returns (at: seq<nat>)
    requires SanitizedChat(raw).Ok?
    ensures Ascending(at, |raw|) && at != [] && SanitizedChat(raw).value == Picked(raw, at)
    ensures forall i :: 0 <= i < |at| ==> IsChatChar(raw[at[i]])
    ensures forall j: nat :: j < |raw| && IsChatChar(raw[j]) ==>
              j in at || (IsWhitespace(raw[j]) && (j < at[0] || j > at[|at| - 1]))
    ensures !IsWhitespace(raw[at[0]]) && !IsWhitespace(raw[at[|at| - 1]])
  {
    var all := KeptInOrder(raw);
    var a, b := TrimSplit(KeepChatChars(raw));
    var text := Trim(KeepChatChars(raw));
    at := all[|a|..|a| + |text|];
    CutOfPicked(raw, all, a, text, b);
    AcceptedChatIsClean(raw);
    assert forall i :: 0 <= i < |at| ==> raw[at[i]] == text[i];
    forall j: nat | j < |raw| && IsChatChar(raw[j])
      ensures j in at || (IsWhitespace(raw[j]) && (j < at[0] || j > at[|at| - 1]))
    {
      LostToTrimming(raw, all, a, text, b, j);
    }
  }

  /** No character of the message is worth keeping. */
  predicate Blank(raw: string) {
    forall j :: 0 <= j < |raw| ==> IsChatChar(raw[j]) ==> IsWhitespace(raw[j])
  }

  lemma BlankExactly(raw: string)
    ensures Trim(KeepChatChars(raw)) == [] <==> Blank(raw)
  {
    var kept := KeepChatChars(raw);
    var all := KeptInOrder(raw);
    var a, b := TrimSplit(kept);
    if Trim(kept) != [] {
      var i := |a|;
      assert kept[i] == Trim(kept)[0] == raw[all[i]];
      assert all[i] in all && ChatMask(raw)[all[i]];
    } else {
      forall j | 0 <= j < |raw| ensures IsChatChar(raw[j]) ==> IsWhitespace(raw[j]) {
        if IsChatChar(raw[j]) {
          var i := MarkedAt(all, ChatMask(raw), j);
          assert kept == a + b && kept[i] == raw[j];
        }
      }
    }
  }

  /** Why a message is refused: its size, its lines, or nothing to see in it. Everything else is accepted. */
  lemma ChatIsRefusedExactly(raw: string)
    ensures var small := ByteLength(raw) <= 4096;
            var short := 1 + Occurrences(raw, '\n') <= 40;
            && (SanitizedChat(raw) == Err(TooLarge) <==> !small)
            && (SanitizedChat(raw) == Err(TooManyLines) <==> small && !short)
            && (SanitizedChat(raw) == Err(EmptyText) <==> small && short && Blank(raw))
            && (SanitizedChat(raw).Ok? <==> small && short && !Blank(raw))
  {
    BlankExactly(raw);
  }

  /** The texts sanitizing leaves alone are exactly the clean ones. */
  lemma SanitizingFixesExactlyCleanChat(text: string)
    ensures SanitizedChat(text) == Ok(text) <==> CleanChat(text)
  {
    if SanitizedChat(text) == Ok(text) {
      AcceptedChatIsClean(text);
    }
    if CleanChat(text) {
      KeepFixesChatChars(text);
      TrimFixesTrimmed(text);
    }
  }

  /** Re-sanitizing an accepted message neither changes nor rejects it. */
  lemma SanitizingChatIsIdempotent(raw: string)
    requires SanitizedChat(raw).Ok?
    ensures SanitizedChat(SanitizedChat(raw).value) == SanitizedChat(raw)
  {
    AcceptedChatIsClean(raw);
    SanitizingFixesExactlyCleanChat(SanitizedChat(raw).value);
  }

  // ---------- single lines ----------

  function VisibleChar(c: char): char {
    if c == '\n' || c == '\r' || c == '\t' then ' ' else c
  }

  /** Drop forbidden characters and turn line breaks and tabs into spaces. */
  function VisibleLine(s: string): string {
    if s == [] then []
    else (if IsForbiddenTerminalChar(s[0]) then [] else [VisibleChar(s[0])]) + VisibleLine(s[1..])
  }

  /** `sanitize_single_line`: nicknames, room names and group names. It trims first and filters second. */
  function SanitizedLine(raw: string, maxChars: nat): Result<string, TextError> {
    var line := VisibleLine(Trim(raw));
    if line == [] then Err(EmptyText)
    else if |line| > maxChars then Err(TooLong)
    else Ok(line)
  }

  predicate IsLineChar(c: char) {
    !IsControl(c)
  }

  lemma {:induction false} VisibleLineChars(s: string)
    ensures forall i :: 0 <= i < |VisibleLine(s)| ==> IsLineChar(VisibleLine(s)[i])
  {
    if s != [] {
      VisibleLineChars(s[1..]);
    }
  }

  lemma {:induction false} VisibleLineFixesLineChars(s: string)
    requires forall i :: 0 <= i < |s| ==> IsLineChar(s[i])
    ensures VisibleLine(s) == s
  {
    if s != [] {
      VisibleLineFixesLineChars(s[1..]);
    }
  }

  /** An accepted line has between 1 and `maxChars` characters, none of them a control character. */
  lemma AcceptedLine(raw: string, maxChars: nat)
    requires SanitizedLine(raw, maxChars).Ok?
    ensures var line := SanitizedLine(raw, maxChars).value;
            1 <= |line| <= maxChars && forall i :: 0 <= i < |line| ==> IsLineChar(line[i])
  {
    VisibleLineChars(Trim(raw));
  }

  /** The characters of the trimmed input that survive the filter, before line breaks become spaces. */
  function Survivors(s: string): string {
    if s == [] then []
    else (if IsForbiddenTerminalChar(s[0]) then [] else [s[0]]) + Survivors(s[1..])
  }

  lemma {:induction false} VisibleLineMapsSurvivors(s: string)
    ensures |VisibleLine(s)| == |Survivors(s)|
    ensures forall i :: 0 <= i < |Survivors(s)| ==> VisibleLine(s)[i] == VisibleChar(Survivors(s)[i])
  {
    if s != [] {
      VisibleLineMapsSurvivors(s[1..]);
    }
  }

  function LineMask(s: string): seq<bool> {
    seq(|s|, i requires 0 <= i < |s| => !IsForbiddenTerminalChar(s[i]))
  }

  /** Filtering a line drops the forbidden characters and nothing else, and keeps the rest in order. */
  lemma {:induction false} SurvivorsInOrder(s: string) returns (at: seq<nat>)
    ensures Marks(at, LineMask(s)) && Survivors(s) == Picked(s, at)
  {
    at := [];
    if s != [] {
      var rest := SurvivorsInOrder(s[1..]);
      assert LineMask(s[1..]) == LineMask(s)[1..];
      MarksFronted(rest, LineMask(s));
      PickedFronted(s, rest, !IsForbiddenTerminalChar(s[0]));
      at := Fronted(rest, !IsForbiddenTerminalChar(s[0]));
    }
  }

  /**
   The whole answer for a line: the characters of the trimmed input that are not forbidden, all of them and in order,
   with line breaks and tabs as spaces; refused if there are none or more than `maxChars`.
   */
  lemma LineIsTheTrimmedInput(raw: string, maxChars: nat) returns (at: seq<nat>)
    ensures var trimmed := Trim(raw);
            && Ascending(at, |trimmed|)
            && (forall j :: 0 <= j < |trimmed| ==> (!IsForbiddenTerminalChar(trimmed[j]) <==> j in at))
            && (SanitizedLine(raw, maxChars) == Err(EmptyText) <==> at == [])
            && (SanitizedLine(raw, maxChars) == Err(TooLong) <==> at != [] && |at| > maxChars)
            && (SanitizedLine(raw, maxChars).Ok? <==> 1 <= |at| <= maxChars)
            && (SanitizedLine(raw, maxChars).Ok? ==>
                  var line := SanitizedLine(raw, maxChars).value;
                  |line| == |at| && forall i :: 0 <= i < |at| ==>
                    line[i] == if trimmed[at[i]] in "\n\r\t" then ' ' else trimmed[at[i]])
  {
    at := SurvivorsInOrder(Trim(raw));
    VisibleLineMapsSurvivors(Trim(raw));
  }

  /**
   Trimming before filtering makes the line sanitizer not idempotent: a forbidden character shields the
   space behind it from the first trim.
   */
  lemma LineSanitizerIsNotIdempotent()
    ensures SanitizedLine("\U{1B} a", MAX_NICKNAME_CHARS) == Ok(" a")
    ensures SanitizedLine(" a", MAX_NICKNAME_CHARS) == Ok("a")
  {
    var raw := "\U{1B} a";
    TrimFixesTrimmed(raw);
    assert raw[1..] == " a" && raw[1..][1..] == "a" && "a"[1..] == "";
    assert VisibleLine("a") == "a";
    assert VisibleLine(" a") == " a" by { assert " a"[1..] == "a"; }
    assert VisibleLine(raw) == " a";
    assert TrimStart(" a") == "a" by { assert " a"[1..] == "a"; }
    assert TrimEnd("a") == "a";
  }

  /**
   An accepted line is left alone by a second pass exactly when the first and the last character that survive
   the filter are not whitespace.
   */
  lemma LineSanitizerFixpoint(raw: string, maxChars: nat)
    requires SanitizedLine(raw, maxChars).Ok?
    ensures var line := SanitizedLine(raw, maxChars).value;
            SanitizedLine(line, maxChars) == Ok(line) <==> Trimmed(Survivors(Trim(raw)))
  {
    var line := SanitizedLine(raw, maxChars).value;
    VisibleLineChars(Trim(raw));
    VisibleLineMapsSurvivors(Trim(raw));
    assert Trimmed(line) <==> Trimmed(Survivors(Trim(raw)));
    var a, b := TrimSplit(line);
    forall i | 0 <= i < |Trim(line)| ensures IsLineChar(Trim(line)[i]) {
      assert Trim(line)[i] == line[|a| + i];
    }
    VisibleLineFixesLineChars(Trim(line));
    if Trimmed(line) {
      TrimFixesTrimmed(line);
    }
  }

  // ---------- identifiers and credentials ----------

  predicate IsAsciiAlphanumeric(c: char) {
    '0' <= c <= '9' || 'a' <= c <= 'z' || 'A' <= c <= 'Z'
  }

  predicate IsSafeIdentifier(value: string) {
    && value != []
    && ByteLength(value) <= 64
    && forall i :: 0 <= i < |value| ==> IsAsciiAlphanumeric(value[i]) || value[i] in "-_."
  }

  predicate IsHexDigit(c: char) {
    '0' <= c <= '9' || 'a' <= c <= 'f' || 'A' <= c <= 'F'
  }

  /**
   29 bytes of hexadecimal digits with a colon after every four. Any other character would be one of several bytes.
   */
  predicate IsValidFingerprint(value: string) {
    && |value| == 29
    && forall i :: 0 <= i < |value| ==> if i in {4, 9, 14, 19, 24} then value[i] == ':' else IsHexDigit(value[i])
  }

  predicate IsValidGroupCredential(value: string) {
    && value != []
    && ByteLength(value) <= MAX_GROUP_CREDENTIAL_BYTES
    && forall i :: 0 <= i < |value| ==> IsAsciiAlphanumeric(value[i]) || value[i] == '_'
  }
}
