/**
 Strings as Rust sees them: a `char` is a Unicode scalar value and a `str` has a length in UTF-8 bytes.
 Trimming, filtering and line counting are stated here once, with the algebra the sanitizer needs.
 */
module Text {

  /** Bytes of one character in UTF-8 (section 3 of RFC 3629). */
  function CharBytes(c: char): (n: nat)
    ensures 1 <= n <= 4
  {
    var v := c as int;
    if v < 0x80 then 1 else if v < 0x800 then 2 else if v < 0x10000 then 3 else 4
  }

  /** `str::len`: the length in UTF-8 bytes. */
  function ByteLength(s: string): nat {
    if s == [] then 0 else CharBytes(s[0]) + ByteLength(s[1..])
  }

  /** `char::is_whitespace`: the Unicode White_Space property. */
  predicate IsWhitespace(c: char) {
    var v := c as int;
    || 0x9 <= v <= 0xD
    || v in {0x20, 0x85, 0xA0, 0x1680, 0x2028, 0x2029, 0x202F, 0x205F, 0x3000}
    || 0x2000 <= v <= 0x200A
  }

  /** `char::is_control`: the general category Cc. */
  predicate IsControl(c: char) {
    var v := c as int;
    v < 0x20 || 0x7F <= v <= 0x9F
  }

  function TrimStart(s: string): string {
    if s != [] && IsWhitespace(s[0]) then TrimStart(s[1..]) else s
  }

  function TrimEnd(s: string): string {
    if s != [] && IsWhitespace(s[|s| - 1]) then TrimEnd(s[..|s| - 1]) else s
  }

  /** `str::trim`. */
  function Trim(s: string): string {
    TrimEnd(TrimStart(s))
  }

  /** Neither end of the string is whitespace. */
  predicate Trimmed(s: string) {
    s == [] || (!IsWhitespace(s[0]) && !IsWhitespace(s[|s| - 1]))
  }

  /** How many characters of `s` are `c`. */
  function Occurrences(s: string, c: char): nat {
    if s == [] then 0 else (if s[0] == c then 1 else 0) + Occurrences(s[1..], c)
  }

  lemma {:induction false} ByteLengthConcat(a: string, b: string)
    ensures ByteLength(a + b) == ByteLength(a) + ByteLength(b)
  {
    if a == [] {
      assert a + b == b;
    } else {
      assert (a + b)[1..] == a[1..] + b;
      ByteLengthConcat(a[1..], b);
    }
  }

  lemma {:induction false} OccurrencesConcat(a: string, b: string, c: char)
    ensures Occurrences(a + b, c) == Occurrences(a, c) + Occurrences(b, c)
  {
    if a == [] {
      assert a + b == b;
    } else {
      assert (a + b)[1..] == a[1..] + b;
      OccurrencesConcat(a[1..], b, c);
    }
  }

  /** A string of at most `n` characters has at most `4 * n` bytes. */
  lemma {:induction false} ByteLengthBound(s: string)
    ensures |s| <= ByteLength(s) <= 4 * |s|
  {
    if s != [] {
      ByteLengthBound(s[1..]);
    }
  }

  lemma {:induction false} AsciiByteLength(s: string)
    requires forall i :: 0 <= i < |s| ==> s[i] as int < 0x80
    ensures ByteLength(s) == |s|
  {
    if s != [] {
      AsciiByteLength(s[1..]);
    }
  }

  lemma {:induction false} TrimStartSplit(s: string) returns (n: nat)
    ensures n <= |s| && TrimStart(s) == s[n..]
    ensures n < |s| ==> !IsWhitespace(s[n])
    ensures forall i :: 0 <= i < n ==> IsWhitespace(s[i])
  {
    if s != [] && IsWhitespace(s[0]) {
      var k := TrimStartSplit(s[1..]);
      n := k + 1;
      assert s[n..] == s[1..][k..];
      forall i | 0 <= i < n ensures IsWhitespace(s[i]) {
        if i > 0 { assert s[i] == s[1..][i - 1]; }
      }
    } else {
      n := 0;
    }
  }

  lemma {:induction false} TrimEndSplit(s: string) returns (n: nat)
    ensures n <= |s| && TrimEnd(s) == s[..n]
    ensures n > 0 ==> !IsWhitespace(s[n - 1])
    ensures forall i :: n <= i < |s| ==> IsWhitespace(s[i])
  {
    if s != [] && IsWhitespace(s[|s| - 1]) {
      n := TrimEndSplit(s[..|s| - 1]);
      assert s[..n] == s[..|s| - 1][..n];
    } else {
      n := |s|;
      assert s[..n] == s;
    }
  }

  /** Trimming cuts a whitespace prefix and a whitespace suffix and leaves no whitespace at either end. */
  lemma TrimSplit(s: string) returns (a: string, b: string)
    ensures s == a + Trim(s) + b
    ensures Trimmed(Trim(s))
    ensures forall i :: 0 <= i < |a| ==> IsWhitespace(a[i])
    ensures forall i :: 0 <= i < |b| ==> IsWhitespace(b[i])
  {
    var n := TrimStartSplit(s);
    var t := s[n..];
    var k := TrimEndSplit(t);
    a, b := s[..n], t[k..];
    assert t == t[..k] + t[k..];
    assert s == s[..n] + s[n..];
  }

  lemma TrimFixesTrimmed(s: string)
    requires Trimmed(s)
    ensures Trim(s) == s
  {
  }
}
