/** Reading JSON text (RFC 8259): what was written by Json is read back, whatever the strings hold. */
module JsonReading {
  import opened Json

  /** What was read and the text that is left, or nothing. */
  datatype Read<+T> = Got(value: T, rest: string) | Stuck {
    predicate IsFailure() {
      Stuck?
    }

    function PropagateFailure<U>(): Read<U>
      requires IsFailure()
    {
      Stuck
    }

    function Extract(): (T, string)
      requires !IsFailure()
    {
      (value, rest)
    }
  }

  function Expect(prefix: string, s: string): (r: Read<()>)
    ensures r.Got? ==> |r.rest| + |prefix| == |s|
  {
    if prefix <= s then Got((), s[|prefix|..]) else Stuck
  }

  lemma Expected(prefix: string, rest: string)
    ensures Expect(prefix, prefix + rest) == Got((), rest)
  {
  }

  // ---------- numbers ----------

  predicate IsDigit(c: char) {
    '0' <= c <= '9'
  }

  function HexValue(c: char): nat
    requires c in HEX
  {
    if IsDigit(c) then c as int - '0' as int else c as int - 'a' as int + 10
  }

  lemma HexValues(n: nat)
    requires n < 16
    ensures HEX[n] in HEX && HexValue(HEX[n]) == n && (n < 10 <==> IsDigit(HEX[n]))
  {
  }

  predicate AllDigits(s: string) {
    forall i :: 0 <= i < |s| ==> IsDigit(s[i])
  }

  function Decimal(s: string): nat
    requires AllDigits(s)
  {
    if s == [] then 0 else 10 * Decimal(s[..|s| - 1]) + (s[|s| - 1] as int - '0' as int)
  }

  function LeadingDigits(s: string): (n: nat)
    ensures n <= |s| && AllDigits(s[..n]) && (n < |s| ==> !IsDigit(s[n]))
  {
    if s == [] || !IsDigit(s[0]) then 0
    else
      var n := LeadingDigits(s[1..]);
      assert s[..n + 1] == [s[0]] + s[1..][..n];
      n + 1
  }

  function ReadNumber(s: string): (r: Read<nat>)
    ensures r.Got? ==> |r.rest| < |s|
  {
    var n := LeadingDigits(s);
    if n == 0 then Stuck else Got(Decimal(s[..n]), s[n..])
  }

  lemma {:induction false} DigitsAreDecimal(n: nat)
    ensures Digits(n) != [] && AllDigits(Digits(n)) && Decimal(Digits(n)) == n
  {
    HexValues(n % 10);
    if n >= 10 {
      DigitsAreDecimal(n / 10);
      assert Digits(n)[..|Digits(n)| - 1] == Digits(n / 10);
    } else {
      assert Digits(n)[..0] == [];
    }
  }

  lemma {:induction false} DigitsLead(digits: string, rest: string)
    requires AllDigits(digits) && (rest == [] || !IsDigit(rest[0]))
    ensures LeadingDigits(digits + rest) == |digits|
  {
    if digits != [] {
      DigitsLead(digits[1..], rest);
      assert (digits + rest)[1..] == digits[1..] + rest;
    }
  }

  /** A number ends where its digits end. */
  lemma NumberReadsBack(n: nat, rest: string)
    requires rest == [] || !IsDigit(rest[0])
    ensures ReadNumber(Digits(n) + rest) == Got(n, rest)
  {
    DigitsAreDecimal(n);
    DigitsLead(Digits(n), rest);
    var s := Digits(n) + rest;
    assert s[..|Digits(n)|] == Digits(n) && s[|Digits(n)|..] == rest;
  }

  // ---------- identifiers ----------

  predicate AllHex(s: string) {
    forall i :: 0 <= i < |s| ==> s[i] in HEX
  }

  function HexNumber(s: string): nat
    requires AllHex(s)
  {
    if s == [] then 0 else 16 * HexNumber(s[..|s| - 1]) + HexValue(s[|s| - 1])
  }

  function PowerOf16(k: nat): nat {
    if k == 0 then 1 else 16 * PowerOf16(k - 1)
  }

  lemma {:induction false} HexReadsBack(n: nat, width: nat)
    requires n < PowerOf16(width)
    ensures AllHex(HexDigits(n, width)) && HexNumber(HexDigits(n, width)) == n
  {
    if width > 0 {
      HexReadsBack(n / 16, width - 1);
      HexValues(n % 16);
      assert HexDigits(n, width)[..|HexDigits(n, width)| - 1] == HexDigits(n / 16, width - 1);
    }
  }

  /** The number a hyphenated identifier stands for. */
  function UuidOf(s: string): Read<nat> {
    if |s| != 36 || s[8] != '-' || s[13] != '-' || s[18] != '-' || s[23] != '-' then Stuck
    else
      var h := s[..8] + s[9..13] + s[14..18] + s[19..23] + s[24..];
      if AllHex(h) then Got(HexNumber(h), "") else Stuck
  }

  lemma HyphensOff(a: string, b: string, c: string, d: string, e: string)
    requires |a| == 8 && |b| == |c| == |d| == 4 && |e| == 12
    ensures var s := a + "-" + b + "-" + c + "-" + d + "-" + e;
            && |s| == 36 && s[8] == s[13] == s[18] == s[23] == '-'
            && s[..8] == a && s[9..13] == b && s[14..18] == c && s[19..23] == d && s[24..] == e
  {
  }

  lemma FiveParts(h: string)
    requires |h| == 32
    ensures h[..8] + h[8..12] + h[12..16] + h[16..20] + h[20..] == h
  {
    assert h[..8] + h[8..12] == h[..12];
    assert h[..12] + h[12..16] == h[..16];
    assert h[..16] + h[16..20] == h[..20];
  }

  lemma UuidReadsBack(u: nat)
    requires u < PowerOf16(32)
    ensures UuidOf(UuidText(u)) == Got(u, "")
  {
    var h := HexDigits(u, 32);
    HexLength(u, 32);
    HexReadsBack(u, 32);
    HyphensOff(h[..8], h[8..12], h[12..16], h[16..20], h[20..]);
    FiveParts(h);
  }

  // ---------- strings ----------

  /** One character of a string: itself, or what follows a backslash. A control character must be escaped. */
  function ReadChar(s: string): (r: Read<char>)
    ensures r.Got? ==> |r.rest| < |s|
  {
    if s == [] || s[0] as int < 0x20 || s[0] == '"' then Stuck
    else if s[0] != '\\' then Got(s[0], s[1..])
    else if |s| < 2 then Stuck
    else
      match s[1]
      case '"' => Got('"', s[2..])
      case '\\' => Got('\\', s[2..])
      case '/' => Got('/', s[2..])
      case 'n' => Got('\n', s[2..])
      case 'r' => Got('\r', s[2..])
      case 't' => Got('\t', s[2..])
      case 'b' => Got(0x8 as char, s[2..])
      case 'f' => Got(0xC as char, s[2..])
      case 'u' =>
        if |s| < 6 || !AllHex(s[2..6]) then Stuck
        else
          var v := HexNumber(s[2..6]);
          if v < 0xD800 then Got(v as char, s[6..]) else Stuck
      case _ => Stuck
  }

  /** The characters up to the closing quote. */
  function ReadChars(s: string): (r: Read<string>)
    ensures r.Got? ==> |r.rest| < |s|
  {
    if s != [] && s[0] == '"' then Got([], s[1..])
    else
      var (c, after) :- ReadChar(s);
      var (more, rest) :- ReadChars(after);
      Got([c] + more, rest)
  }

  function ReadString(s: string): (r: Read<string>)
    ensures r.Got? ==> |r.rest| < |s|
  {
    var (_, inside) :- Expect("\"", s);
    ReadChars(inside)
  }

  lemma HexAppend(s: string, c: char)
    requires AllHex(s) && c in HEX
    ensures AllHex(s + [c]) && HexNumber(s + [c]) == 16 * HexNumber(s) + HexValue(c)
  {
    assert (s + [c])[..|s|] == s;
  }

  lemma TwoHexDigits(a: char, b: char)
    requires a in HEX && b in HEX
    ensures AllHex(['0', '0', a, b]) && HexNumber(['0', '0', a, b]) == 16 * HexValue(a) + HexValue(b)
  {
    HexValues(0);
    HexAppend([], '0');
    HexAppend(['0'], '0');
    HexAppend(['0', '0'], a);
    HexAppend(['0', '0', a], b);
    assert [] + ['0'] == ['0'] && ['0'] + ['0'] == ['0', '0'];
    assert ['0', '0'] + [a] == ['0', '0', a] && ['0', '0', a] + [b] == ['0', '0', a, b];
  }

  lemma UnicodeReadsBack(v: nat, rest: string)
    requires v < 0x20
    ensures ReadChar("\\u00" + [HEX[v / 16], HEX[v % 16]] + rest) == Got(v as char, rest)
  {
    HexValues(v / 16);
    HexValues(v % 16);
    TwoHexDigits(HEX[v / 16], HEX[v % 16]);
    var s := "\\u00" + [HEX[v / 16], HEX[v % 16]] + rest;
    assert s[2..6] == ['0', '0', HEX[v / 16], HEX[v % 16]];
    assert s[6..] == rest;
  }

  lemma CharReadsBack(c: char, rest: string)
    ensures ReadChar(EscapedChar(c) + rest) == Got(c, rest)
    ensures EscapedChar(c) != [] && EscapedChar(c)[0] != '"'
  {
    var e := EscapedChar(c);
    var s := e + rest;
    if |e| == 6 {
      UnicodeReadsBack(c as int, rest);
    } else {
      assert s[|e|..] == rest;
    }
  }

  lemma Regrouped(a: string, b: string, c: string)
    ensures (a + b) + c == a + (b + c)
  {
  }

  lemma {:induction false} CharsReadBack(text: string, rest: string)
    ensures ReadChars(Escaped(text) + ("\"" + rest)) == Got(text, rest)
  {
    if text == [] {
      assert (Escaped(text) + ("\"" + rest))[1..] == rest;
    } else {
      var e, more := EscapedChar(text[0]), Escaped(text[1..]) + ("\"" + rest);
      CharsReadBack(text[1..], rest);
      CharReadsBack(text[0], more);
      Regrouped(e, Escaped(text[1..]), "\"" + rest);
      assert (e + more)[0] == e[0];
      assert [text[0]] + text[1..] == text;
    }
  }

  /** Any string, control characters, quotes and backslashes included, is read back as it was. */
  lemma StringReadsBack(text: string, rest: string)
    ensures ReadString(Quoted(text) + rest) == Got(text, rest)
  {
    CharsReadBack(text, rest);
    Regrouped("\"" + Escaped(text), "\"", rest);
    Regrouped("\"", Escaped(text), "\"" + rest);
    Expected("\"", Escaped(text) + ("\"" + rest));
  }

  // ---------- objects ----------

  function Key(key: string): string {
    "\"" + key + "\":"
  }

  /** An object behind the value of a field: the other fields and the brace. */
  function Others(fields: seq<Field>): string {
    if fields == [] then "}" else "," + (Key(fields[0].key) + fields[0].value + Others(fields[1..]))
  }

  lemma {:induction false} MembersAndOthers(fields: seq<Field>)
    requires fields != []
    ensures Members(fields) + "}" == Key(fields[0].key) + fields[0].value + Others(fields[1..])
  {
    var a, v, m := Key(fields[0].key), fields[0].value, Members(fields[1..]);
    if |fields| > 1 {
      MembersAndOthers(fields[1..]);
      assert Members(fields) == (a + v + ",") + m;
      Regrouped(a + v + ",", m, "}");
      Regrouped(a + v, ",", m + "}");
    } else {
      assert Members(fields) == a + v;
    }
  }

  /** The first key of an object. */
  function OpenObject(key: string, s: string): (r: Read<()>)
    ensures r.Got? ==> |r.rest| < |s|
  {
    Expect("{" + Key(key), s)
  }

  /** A further key. */
  function NextKey(key: string, s: string): (r: Read<()>)
    ensures r.Got? ==> |r.rest| < |s|
  {
    Expect("," + Key(key), s)
  }

  lemma Spliced(open: string, key: string, value: string, others: string, rest: string)
    ensures open + (key + value + others) + rest == (open + key) + (value + (others + rest))
  {
  }

  lemma ObjectOpens(f: Field, others: seq<Field>, rest: string)
    ensures OpenObject(f.key, Object([f] + others) + rest) == Got((), f.value + (Others(others) + rest))
  {
    MembersAndOthers([f] + others);
    assert ([f] + others)[1..] == others;
    Regrouped("{", Members([f] + others), "}");
    Spliced("{", Key(f.key), f.value, Others(others), rest);
    Expected("{" + Key(f.key), f.value + (Others(others) + rest));
  }

  lemma KeyFollows(f: Field, others: seq<Field>, rest: string)
    ensures NextKey(f.key, Others([f] + others) + rest) == Got((), f.value + (Others(others) + rest))
  {
    assert ([f] + others)[1..] == others;
    Spliced(",", Key(f.key), f.value, Others(others), rest);
    Expected("," + Key(f.key), f.value + (Others(others) + rest));
  }

  /** Behind a value stands a comma or a brace. */
  lemma OthersEndNumbers(fields: seq<Field>, rest: string)
    ensures var s := Others(fields) + rest;
            s != [] && !IsDigit(s[0])
  {
  }

  lemma ObjectCloses(rest: string)
    ensures Expect("}", Others([]) + rest) == Got((), rest)
  {
    Expected("}", rest);
  }

  // ---------- arrays ----------

  function SkipComma(s: string): (r: string)
    ensures |r| <= |s|
  {
    if s != [] && s[0] == ',' then s[1..] else s
  }

  /** The items up to the closing bracket, each read by `item`. */
  function ReadItems<T>(item: string -> Read<T>, s: string): (r: Read<seq<T>>)
    ensures r.Got? ==> |r.rest| < |s|
    decreases |s|
  {
    if s != [] && s[0] == ']' then Got([], s[1..])
    else
      var first := item(s);
      if first.Stuck? || |first.rest| >= |s| then Stuck
      else
        var others := ReadItems(item, SkipComma(first.rest));
        if others.Stuck? then Stuck else Got([first.value] + others.value, others.rest)
  }

  function ReadArray<T>(item: string -> Read<T>, s: string): (r: Read<seq<T>>)
    ensures r.Got? ==> |r.rest| < |s|
  {
    var (_, inside) :- Expect("[", s);
    ReadItems(item, inside)
  }

  /** The reader finds the value at the front of a text that starts with it. */
  ghost predicate Reads<T(!new)>(item: string -> Read<T>, text: string, value: T) {
    && text != [] && text[0] != ']' && text[0] != ','
    && forall after :: item(text + after) == Got(value, after)
  }

  lemma ElementsSplit(item: string, comma: string, more: string, end: string)
    ensures (item + comma + more) + end == item + (comma + (more + end))
  {
  }

  lemma CommaSkipped(items: seq<string>, end: string)
    requires end != [] && end[0] != ','
    requires items != [] ==> items[0] != [] && items[0][0] != ','
    ensures SkipComma((if items != [] then "," else "") + (Elements(items) + end)) == Elements(items) + end
  {
    if items == [] {
      assert "" + (Elements(items) + end) == end == Elements(items) + end;
    } else {
      assert ("," + (Elements(items) + end))[1..] == Elements(items) + end;
    }
  }

  lemma {:induction false} ItemsReadBack<T(!new)>(item: string -> Read<T>, items: seq<string>, values: seq<T>,
                                                  rest: string)
    requires |items| == |values| && forall i :: 0 <= i < |items| ==> Reads(item, items[i], values[i])
    ensures ReadItems(item, Elements(items) + ("]" + rest)) == Got(values, rest)
    decreases |items|
  {
    var end := "]" + rest;
    if items == [] {
      assert Elements(items) + end == end && end[1..] == rest;
    } else {
      var comma := if items[1..] != [] then "," else "";
      var more := Elements(items[1..]) + end;
      ItemsReadBack(item, items[1..], values[1..], rest);
      ElementsSplit(items[0], comma, Elements(items[1..]), end);
      CommaSkipped(items[1..], end);
      OneItem(item, items[0], values[0], comma + more);
      assert [values[0]] + values[1..] == values;
    }
  }

  lemma OneItem<T(!new)>(item: string -> Read<T>, text: string, value: T, after: string)
    requires Reads(item, text, value)
    ensures var s := text + after;
            s != [] && s[0] != ']' && item(s) == Got(value, after) && |after| < |s|
  {
  }

  /** An array is read back when each of its items is. */
  lemma ArrayReadsBack<T(!new)>(item: string -> Read<T>, items: seq<string>, values: seq<T>, rest: string)
    requires |items| == |values| && forall i :: 0 <= i < |items| ==> Reads(item, items[i], values[i])
    ensures ReadArray(item, Array(items) + rest) == Got(values, rest)
  {
    ItemsReadBack(item, items, values, rest);
    Regrouped("[" + Elements(items), "]", rest);
    Regrouped("[", Elements(items), "]" + rest);
    Expected("[", Elements(items) + ("]" + rest));
  }
}
