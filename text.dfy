/**
 * The string operations the storefront calls: case mapping, `trim` and `includes`.
 * Case mapping is abstracted to ASCII letters; the whitespace set of `trim` is the
 * full ECMAScript WhiteSpace and LineTerminator set.
 */
module Text {

  /** `toLowerCase` of one character, on ASCII letters only. */
  function LowerChar(c: char): char {
    if 'A' <= c <= 'Z' then (c as int + 32) as char else c
  }

  /** `toUpperCase` of one character, on ASCII letters only. */
  function UpperChar(c: char): char {
    if 'a' <= c <= 'z' then (c as int - 32) as char else c
  }

  /** `s.toLowerCase()`: same length, each character lowered. */
  function ToLower(s: string): (r: string)
    ensures |r| == |s|
    ensures forall i :: 0 <= i < |s| ==> r[i] == LowerChar(s[i])
  {
    if s == [] then [] else [LowerChar(s[0])] + ToLower(s[1..])
  }

  /** `s.toUpperCase()`: same length, each character raised. */
  function ToUpper(s: string): (r: string)
    ensures |r| == |s|
    ensures forall i :: 0 <= i < |s| ==> r[i] == UpperChar(s[i])
  {
    if s == [] then [] else [UpperChar(s[0])] + ToUpper(s[1..])
  }

  /** The characters `String.prototype.trim` strips: ECMAScript WhiteSpace and LineTerminator. */
  predicate IsWhitespace(c: char) {
    || c == '\t' || c == '\n' || c == '\U{000B}' || c == '\U{000C}' || c == '\r'
    || c == ' ' || c == '\U{00A0}' || c == '\U{1680}' || ('\U{2000}' <= c <= '\U{200A}')
    || c == '\U{2028}' || c == '\U{2029}' || c == '\U{202F}' || c == '\U{205F}'
    || c == '\U{3000}' || c == '\U{FEFF}'
  }

  ghost predicate AllWhitespace(s: string) {
    forall i :: 0 <= i < |s| ==> IsWhitespace(s[i])
  }

  /** Leading whitespace removed: a suffix of `s` that is empty or starts with a non-blank. */
  function TrimStart(s: string): (r: string)
    ensures |r| <= |s| && r == s[|s| - |r|..]
    ensures AllWhitespace(s[..|s| - |r|])
    ensures r == [] || !IsWhitespace(r[0])
  {
    if s != [] && IsWhitespace(s[0]) then TrimStart(s[1..]) else s
  }

  /** Trailing whitespace removed: a prefix of `s` that is empty or ends with a non-blank. */
  function TrimEnd(s: string): (r: string)
    ensures |r| <= |s| && r == s[..|r|]
    ensures AllWhitespace(s[|r|..])
    ensures r == [] || !IsWhitespace(r[|r| - 1])
  {
    if s != [] && IsWhitespace(s[|s| - 1]) then TrimEnd(s[..|s| - 1]) else s
  }

  /**
   * `s.trim()`: leading and then trailing whitespace removed, leaving a result no longer than
   * `s` that neither starts nor ends with whitespace.
   */
  function Trim(s: string): (r: string)
    ensures |r| <= |s|
    ensures r == [] || (!IsWhitespace(r[0]) && !IsWhitespace(r[|r| - 1]))
  {
    var t := TrimStart(s);
    var r := TrimEnd(t);
    assert r != [] ==> r[0] == t[0];
    r
  }

  /** What `trim()` keeps is a stretch of `s` with only whitespace before and after it. */
  lemma TrimIsStretch(s: string)
    ensures exists i :: OccursAt(Trim(s), s, i) && AllWhitespace(s[..i]) && AllWhitespace(s[i + |Trim(s)|..])
  {
    var t := TrimStart(s);
    var r := TrimEnd(t);
    assert Trim(s) == r;
    var i := |s| - |t|;
    assert AllWhitespace(s[..i]);
    assert t == s[i..];
    assert s[i + |r|..] == t[|r|..];
    assert AllWhitespace(s[i + |r|..]);
    assert s[i..i + |r|] == r;
    assert OccursAt(r, s, i);
  }

  /** `s.trim()` is the empty string exactly when every character of `s` is whitespace. */
  lemma TrimEmptyIffBlank(s: string)
    ensures Trim(s) == [] <==> AllWhitespace(s)
  {
    var t := TrimStart(s);
    if Trim(s) == [] {
      assert AllWhitespace(t[0..]);
      assert s == s[..|s| - |t|] + t;
    }
  }

  /** `q` occurs in `text` at position `i`. */
  ghost predicate OccursAt(q: string, text: string, i: int) {
    0 <= i <= |text| - |q| && text[i..i + |q|] == q
  }

  /** `text.includes(q)`: scan the start positions from left to right. */
  function Contains(text: string, q: string): (r: bool)
    ensures r ==> |q| <= |text|
    ensures q == [] ==> r
  {
    if |q| > |text| then false
    else if text[..|q|] == q then true
    else Contains(text[1..], q)
  }

  /** `Contains` answers whether `q` occurs somewhere in `text` (the empty string occurs everywhere). */
  lemma {:induction false} ContainsIffOccurs(text: string, q: string)
    ensures Contains(text, q) <==> exists i :: OccursAt(q, text, i)
    decreases |text|
  {
    if |q| > |text| {
    } else if text[..|q|] == q {
      assert OccursAt(q, text, 0);
    } else {
      ContainsIffOccurs(text[1..], q);
      if Contains(text, q) {
        var i :| OccursAt(q, text[1..], i);
        assert text[1..][i..i + |q|] == text[i + 1..i + 1 + |q|];
        assert OccursAt(q, text, i + 1);
      } else {
        forall i | OccursAt(q, text, i) ensures false {
          assert i != 0 && text[1..][i - 1..i - 1 + |q|] == text[i..i + |q|];
          assert OccursAt(q, text[1..], i - 1);
        }
      }
    }
  }
}
