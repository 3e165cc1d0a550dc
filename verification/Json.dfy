/** JSON text as serde_json writes it (RFC 8259), with upper bounds on its length in bytes. */
module Json {
  import opened Text

  datatype Field = Field(key: string, value: string)

  const HEX := "0123456789abcdef"

  function EscapedChar(c: char): string {
    if c == '"' then "\\\""
    else if c == '\\' then "\\\\"
    else if c == '\n' then "\\n"
    else if c == '\r' then "\\r"
    else if c == '\t' then "\\t"
    else if c as int == 0x8 then "\\b"
    else if c as int == 0xC then "\\f"
    else if (c as int) < 0x20 then "\\u00" + [HEX[c as int / 16], HEX[c as int % 16]]
    else [c]
  }

  function Escaped(s: string): string {
    if s == [] then [] else EscapedChar(s[0]) + Escaped(s[1..])
  }

  function Quoted(s: string): string {
    "\"" + Escaped(s) + "\""
  }

  function Digits(n: nat): string {
    if n < 10 then [HEX[n]] else Digits(n / 10) + [HEX[n % 10]]
  }

  function HexDigits(n: nat, width: nat): string {
    if width == 0 then [] else HexDigits(n / 16, width - 1) + [HEX[n % 16]]
  }

  /** The hyphenated form of a 128-bit identifier. */
  function UuidText(u: nat): string {
    var h := HexDigits(u, 32);
    HexLength(u, 32);
    h[..8] + "-" + h[8..12] + "-" + h[12..16] + "-" + h[16..20] + "-" + h[20..]
  }

  function Members(fields: seq<Field>): string {
    if fields == [] then []
    else
      "\"" + fields[0].key + "\":" + fields[0].value
      + (if |fields| > 1 then "," else "")
      + Members(fields[1..])
  }

  function Object(fields: seq<Field>): string {
    "{" + Members(fields) + "}"
  }

  function Elements(items: seq<string>): string {
    if items == [] then []
    else items[0] + (if |items| > 1 then "," else "") + Elements(items[1..])
  }

  function Array(items: seq<string>): string {
    "[" + Elements(items) + "]"
  }

  /** Bytes of the value plus four per key character and four of punctuation. */
  function FieldCost(field: Field): nat {
    4 * |field.key| + 4 + ByteLength(field.value)
  }

  function ObjectCost(fields: seq<Field>): nat {
    if fields == [] then 2 else FieldCost(fields[0]) + ObjectCost(fields[1..])
  }

  function ArrayCost(items: seq<string>): nat {
    if items == [] then 2 else ByteLength(items[0]) + 1 + ArrayCost(items[1..])
  }

  lemma {:induction false} HexLength(n: nat, width: nat)
    ensures |HexDigits(n, width)| == width
  {
    if width > 0 {
      HexLength(n / 16, width - 1);
    }
  }

  lemma UuidBytes(u: nat)
    ensures ByteLength(Quoted(UuidText(u))) <= 290
  {
    HexLength(u, 32);
    assert |UuidText(u)| == 36;
    ByteLengthBound(UuidText(u));
    QuotedBytes(UuidText(u));
    UuidNeedsNoEscape(u);
  }

  lemma {:induction false} HexCharsArePlain(n: nat, width: nat)
    ensures forall i :: 0 <= i < |HexDigits(n, width)| ==> HexDigits(n, width)[i] in HEX
  {
    if width > 0 {
      HexCharsArePlain(n / 16, width - 1);
    }
  }

  lemma UuidNeedsNoEscape(u: nat)
    ensures ByteLength(Escaped(UuidText(u))) <= 2 * ByteLength(UuidText(u))
  {
    HexLength(u, 32);
    HexCharsArePlain(u, 32);
    var h := HexDigits(u, 32);
    forall i | 0 <= i < |UuidText(u)| ensures EscapesToAtMostTwo(UuidText(u)[i]) {
      assert UuidText(u)[i] in h || UuidText(u)[i] == '-';
    }
    EscapedAtMostDouble(UuidText(u));
  }

  /** Characters JSON writes in at most twice their own bytes: all but the unnamed control characters. */
  predicate EscapesToAtMostTwo(c: char) {
    c as int >= 0x20 || c == '\n' || c == '\r' || c == '\t'
  }

  lemma {:induction false} EscapedAtMostDouble(s: string)
    requires forall i :: 0 <= i < |s| ==> EscapesToAtMostTwo(s[i])
    ensures ByteLength(Escaped(s)) <= 2 * ByteLength(s)
  {
    if s != [] {
      EscapedAtMostDouble(s[1..]);
      ByteLengthConcat(EscapedChar(s[0]), Escaped(s[1..]));
      var e := EscapedChar(s[0]);
      assert ByteLength(e) <= 2 * CharBytes(s[0]) by {
        if |e| == 2 {
          AsciiByteLength(e);
        } else {
          assert e == [s[0]] && e[1..] == [];
        }
      }
    }
  }

  lemma QuotedBytes(s: string)
    ensures ByteLength(Quoted(s)) == 2 + ByteLength(Escaped(s))
  {
    ByteLengthConcat("\"" + Escaped(s), "\"");
    ByteLengthConcat("\"", Escaped(s));
    AsciiByteLength("\"");
  }

  lemma QuotedAtMostDouble(s: string)
    requires forall i :: 0 <= i < |s| ==> EscapesToAtMostTwo(s[i])
    ensures ByteLength(Quoted(s)) <= 2 + 2 * ByteLength(s)
  {
    QuotedBytes(s);
    EscapedAtMostDouble(s);
  }

  function PowerOfTen(k: nat): nat {
    if k == 0 then 1 else 10 * PowerOfTen(k - 1)
  }

  lemma {:induction false} DigitsLength(n: nat, k: nat)
    requires 1 <= k && n < PowerOfTen(k)
    ensures |Digits(n)| <= k
  {
    assert PowerOfTen(1) == 10;
    if n >= 10 {
      DigitsLength(n / 10, k - 1);
    }
  }

  lemma PowerOfTenAdds(j: nat, k: nat)
    ensures PowerOfTen(j + k) == PowerOfTen(j) * PowerOfTen(k)
  {
    if j > 0 {
      PowerOfTenAdds(j - 1, k);
    }
  }

  /** A 64-bit number takes at most twenty digits. */
  lemma U64Digits(n: nat)
    requires n < 0x1_0000_0000_0000_0000
    ensures ByteLength(Digits(n)) <= 80
  {
    assert PowerOfTen(5) == 100000 by {
      assert PowerOfTen(1) == 10;
      assert PowerOfTen(2) == 100;
      assert PowerOfTen(3) == 1000;
      assert PowerOfTen(4) == 10000;
    }
    PowerOfTenAdds(5, 5);
    PowerOfTenAdds(10, 10);
    DigitsLength(n, 20);
    ByteLengthBound(Digits(n));
  }

  lemma {:induction false} MembersBytes(fields: seq<Field>)
    ensures ByteLength(Members(fields)) + 2 <= ObjectCost(fields)
  {
    if fields != [] {
      MembersBytes(fields[1..]);
      var key, value := fields[0].key, fields[0].value;
      var comma := if |fields| > 1 then "," else "";
      ByteLengthConcat("\"" + key + "\":" + value + comma, Members(fields[1..]));
      ByteLengthConcat("\"" + key + "\":" + value, comma);
      ByteLengthConcat("\"" + key + "\":", value);
      ByteLengthConcat("\"" + key, "\":");
      ByteLengthConcat("\"", key);
      ByteLengthBound(key);
      AsciiByteLength("\"");
      AsciiByteLength("\":");
      AsciiByteLength(comma);
    }
  }

  lemma ObjectBytes(fields: seq<Field>)
    ensures ByteLength(Object(fields)) <= ObjectCost(fields)
  {
    MembersBytes(fields);
    ByteLengthConcat("{" + Members(fields), "}");
    ByteLengthConcat("{", Members(fields));
    AsciiByteLength("{");
    AsciiByteLength("}");
  }

  lemma CostCons(f: Field, rest: seq<Field>)
    ensures ObjectCost([f] + rest) == FieldCost(f) + ObjectCost(rest)
  {
  }

  lemma TwoFields(f0: Field, f1: Field)
    ensures ByteLength(Object([f0, f1])) <= 2 + FieldCost(f0) + FieldCost(f1)
  {
    ObjectBytes([f0, f1]);
    CostCons(f0, [f1]);
    CostCons(f1, []);
    assert [f0, f1] == [f0] + [f1];
    assert [f1] == [f1] + [];
  }

  lemma ThreeFields(f0: Field, f1: Field, f2: Field)
    ensures ByteLength(Object([f0, f1, f2])) <= 2 + FieldCost(f0) + FieldCost(f1) + FieldCost(f2)
  {
    ObjectBytes([f0, f1, f2]);
    CostCons(f0, [f1, f2]);
    CostCons(f1, [f2]);
    CostCons(f2, []);
    assert [f0, f1, f2] == [f0] + [f1, f2];
    assert [f1, f2] == [f1] + [f2];
    assert [f2] == [f2] + [];
  }

  lemma FourFields(f0: Field, f1: Field, f2: Field, f3: Field)
    ensures ByteLength(Object([f0, f1, f2, f3])) <= 2 + FieldCost(f0) + FieldCost(f1) + FieldCost(f2) + FieldCost(f3)
  {
    ObjectBytes([f0, f1, f2, f3]);
    CostOfFour(f0, f1, f2, f3);
  }

  lemma CostOfFour(f0: Field, f1: Field, f2: Field, f3: Field)
    ensures ObjectCost([f0, f1, f2, f3]) == 2 + FieldCost(f0) + FieldCost(f1) + FieldCost(f2) + FieldCost(f3)
  {
    CostCons(f0, [f1, f2, f3]);
    CostCons(f1, [f2, f3]);
    CostCons(f2, [f3]);
    CostCons(f3, []);
    assert [f0, f1, f2, f3] == [f0] + [f1, f2, f3];
    assert [f1, f2, f3] == [f1] + [f2, f3];
    assert [f2, f3] == [f2] + [f3];
    assert [f3] == [f3] + [];
  }

  lemma SixFields(f0: Field, f1: Field, f2: Field, f3: Field, f4: Field, f5: Field)
    ensures ByteLength(Object([f0, f1, f2, f3, f4, f5])) <=
            2 + FieldCost(f0) + FieldCost(f1) + FieldCost(f2) + FieldCost(f3) + FieldCost(f4) + FieldCost(f5)
  {
    var fields := [f0, f1, f2, f3, f4, f5];
    ObjectBytes(fields);
    CostCons(f0, [f1, f2, f3, f4, f5]);
    CostCons(f1, [f2, f3, f4, f5]);
    CostOfFour(f2, f3, f4, f5);
    assert fields == [f0] + [f1, f2, f3, f4, f5];
    assert [f1, f2, f3, f4, f5] == [f1] + [f2, f3, f4, f5];
  }

  lemma {:induction false} ElementsBytes(items: seq<string>)
    ensures ByteLength(Elements(items)) + 2 <= ArrayCost(items)
  {
    if items != [] {
      ElementsBytes(items[1..]);
      var comma := if |items| > 1 then "," else "";
      ByteLengthConcat(items[0] + comma, Elements(items[1..]));
      ByteLengthConcat(items[0], comma);
      AsciiByteLength(comma);
    }
  }

  lemma ArrayBytes(items: seq<string>)
    ensures ByteLength(Array(items)) <= ArrayCost(items)
  {
    ElementsBytes(items);
    ByteLengthConcat("[" + Elements(items), "]");
    ByteLengthConcat("[", Elements(items));
    AsciiByteLength("[");
    AsciiByteLength("]");
  }
}
