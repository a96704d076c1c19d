/** `uuid.UUID(text)` and `str(uuid)`: a UUID is 128 bits, kept here as its 32
    hexadecimal digits in lower case; its text is the 8-4-4-4-12 form of section 3
    of RFC 4122. */
module Uuids {
  import opened Wrappers
  import opened Strings

  predicate IsHexDigit(c: char) {
    IsDigit(c) || 'a' <= c <= 'f' || 'A' <= c <= 'F'
  }

  predicate IsCanonical(s: string) {
    |s| == 32 && forall i :: 0 <= i < |s| ==> IsHexDigit(s[i]) && !IsUpper(s[i])
  }

  type Uuid = s: string | IsCanonical(s) witness "00000000000000000000000000000000"

  /** `s.replace(pattern, '')`: every non-overlapping occurrence, left to right. */
  function RemoveAll(s: string, pattern: string): (r: string)
    requires pattern != []
    ensures |r| <= |s|
    decreases |s|
  {
    if s == [] then []
    else if StartsWith(s, pattern) then RemoveAll(s[|pattern|..], pattern)
    else [s[0]] + RemoveAll(s[1..], pattern)
  }

  /** `s.replace(c, '')` for a single character. */
  function RemoveChar(s: string, c: char): (r: string)
    ensures forall i :: 0 <= i < |r| ==> r[i] != c
  {
    if s == [] then [] else (if s[0] == c then [] else [s[0]]) + RemoveChar(s[1..], c)
  }

  predicate IsBrace(c: char) {
    c == '{' || c == '}'
  }

  /** `s.strip('{}')`. */
  function StripBraces(s: string): (r: string)
    decreases |s|
  {
    if s != [] && IsBrace(s[0]) then StripBraces(s[1..])
    else if s != [] && IsBrace(s[|s| - 1]) then StripBraces(s[..|s| - 1])
    else s
  }

  /** `uuid.UUID(text)`: `None` where Python raises "badly formed hexadecimal UUID string". */
  function Parse(text: string): (r: Option<Uuid>)
  {
    var hex := RemoveChar(StripBraces(RemoveAll(RemoveAll(text, "urn:"), "uuid:")), '-');
    if |hex| == 32 && forall i :: 0 <= i < 32 ==> IsHexDigit(hex[i]) then
      var u := Lower(hex);
      assert forall i :: 0 <= i < 32 ==> IsHexDigit(u[i]);
      Some(u)
    else None
  }

  /** `str(uuid)`. */
  function Format(u: Uuid): (r: string)
    ensures |r| == 36
  {
    u[..8] + "-" + u[8..12] + "-" + u[12..16] + "-" + u[16..20] + "-" + u[20..]
  }

  lemma {:induction false} RemoveAllAbsent(s: string, pattern: string)
    requires pattern != [] && pattern[|pattern| - 1] == ':'
    requires forall i :: 0 <= i < |s| ==> s[i] != ':'
    ensures RemoveAll(s, pattern) == s
    decreases |s|
  {
    if s != [] {
      assert |pattern| <= |s| ==> s[..|pattern|][|pattern| - 1] != ':';
      RemoveAllAbsent(s[1..], pattern);
      assert [s[0]] + s[1..] == s;
    }
  }

  lemma {:induction false} RemoveCharAbsent(s: string, c: char)
    requires forall i :: 0 <= i < |s| ==> s[i] != c
    ensures RemoveChar(s, c) == s
  {
    if s != [] {
      RemoveCharAbsent(s[1..], c);
      assert [s[0]] + s[1..] == s;
    }
  }

  lemma {:induction false} RemoveCharAppend(a: string, b: string, c: char)
    ensures RemoveChar(a + b, c) == RemoveChar(a, c) + RemoveChar(b, c)
  {
    if a != [] {
      assert (a + b)[0] == a[0] && (a + b)[1..] == a[1..] + b;
      RemoveCharAppend(a[1..], b, c);
    } else {
      assert a + b == b;
    }
  }

  /** Removing the hyphens of `a + "-" + b` where `b` has none. */
  lemma HyphenJoin(a: string, b: string)
    requires forall i :: 0 <= i < |b| ==> b[i] != '-'
    ensures RemoveChar(a + "-" + b, '-') == RemoveChar(a, '-') + b
  {
    RemoveCharAppend(a + "-", b, '-');
    RemoveCharAppend(a, "-", '-');
    assert RemoveChar("-", '-') == [];
    assert RemoveChar(a + "-", '-') == RemoveChar(a, '-');
    RemoveCharAbsent(b, '-');
  }

  lemma LowerOfCanonical(u: Uuid)
    ensures Lower(u) == u
  {
  }

  lemma FormatWithoutHyphens(u: Uuid)
    ensures RemoveChar(Format(u), '-') == u
  {
    var a1, a2, a3, a4, a5 := u[..8], u[8..12], u[12..16], u[16..20], u[20..];
    var x2 := a1 + "-" + a2;
    var x3 := x2 + "-" + a3;
    var x4 := x3 + "-" + a4;
    assert Format(u) == x4 + "-" + a5;
    RemoveCharAbsent(a1, '-');
    HyphenJoin(a1, a2);
    HyphenJoin(x2, a3);
    HyphenJoin(x3, a4);
    HyphenJoin(x4, a5);
    assert a1 + a2 + a3 + a4 + a5 == u;
  }

  /** The text of a UUID parses back to the same UUID, so a `UUIDField` given
      `str(u)` stores `u`. */
  lemma {:induction false} ParseFormat(u: Uuid)
    ensures Parse(Format(u)) == Some(u)
  {
    var t := Format(u);
    assert forall i :: 0 <= i < |t| ==> t[i] == '-' || IsHexDigit(t[i]);
    RemoveAllAbsent(t, "urn:");
    RemoveAllAbsent(t, "uuid:");
    assert !IsBrace(t[0]) && !IsBrace(t[|t| - 1]);
    assert StripBraces(t) == t;
    FormatWithoutHyphens(u);
    LowerOfCanonical(u);
  }

  /** The braced form names the same UUID as the plain text. */
  lemma {:induction false} ParseBraces(u: Uuid)
    ensures Parse("{" + Format(u) + "}") == Some(u)
  {
    var t := Format(u);
    assert forall i :: 0 <= i < |t| ==> t[i] == '-' || IsHexDigit(t[i]);
    assert !IsBrace(t[0]) && !IsBrace(t[|t| - 1]);
    assert StripBraces(t) == t;
    var closed := t + "}";
    assert closed[0] == t[0] && closed[|closed| - 1] == '}' && closed[..|t|] == t;
    assert StripBraces(closed) == t;
    var b := "{" + closed;
    assert b == "{" + t + "}" && b[1..] == closed;
    assert StripBraces(b) == t;
    assert forall i :: 0 <= i < |b| ==> b[i] != ':';
    RemoveAllAbsent(b, "urn:");
    RemoveAllAbsent(b, "uuid:");
    FormatWithoutHyphens(u);
    LowerOfCanonical(u);
  }
}
