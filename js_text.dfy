/**
 * The JavaScript string operations the portal relies on: `trim`, `toLowerCase`,
 * `includes`, `startsWith` and the `\s` class of regular expressions.
 */
module JsText {

  /**
   * ECMAScript WhiteSpace and LineTerminator code points: the set `String.prototype.trim`
   * strips and the regular-expression class `\s` matches.
   */
  predicate IsWhitespace(c: char) {
    c == '\t' || c == '\n' || c == '\U{B}' || c == '\U{C}' || c == '\r' || c == ' '
    || c == '\U{A0}' || c == '\U{1680}' || ('\U{2000}' <= c <= '\U{200A}')
    || c == '\U{2028}' || c == '\U{2029}' || c == '\U{202F}' || c == '\U{205F}'
    || c == '\U{3000}' || c == '\U{FEFF}'
  }

  predicate AllWhitespace(s: string) {
    forall i :: 0 <= i < |s| ==> IsWhitespace(s[i])
  }

  predicate NoWhitespace(s: string) {
    forall i :: 0 <= i < |s| ==> !IsWhitespace(s[i])
  }

  /** The number of whitespace characters at the front of `s`. */
  function LeadingWhitespace(s: string): (n: nat)
    ensures n <= |s|
    ensures AllWhitespace(s[..n])
    ensures n == |s| || !IsWhitespace(s[n])
  {
    if |s| > 0 && IsWhitespace(s[0]) then
      var rest := LeadingWhitespace(s[1..]);
      assert s[1..][..rest] == s[1..rest + 1];
      1 + rest
    else 0
  }

  /** The number of whitespace characters at the end of `s`. */
  function TrailingWhitespace(s: string): (n: nat)
    ensures n <= |s|
    ensures AllWhitespace(s[|s| - n..])
    ensures n == |s| || !IsWhitespace(s[|s| - 1 - n])
  {
    if |s| > 0 && IsWhitespace(s[|s| - 1]) then
      var rest := TrailingWhitespace(s[..|s| - 1]);
      assert s[..|s| - 1][|s| - 1 - rest..] == s[|s| - 1 - rest..|s| - 1];
      1 + rest
    else 0
  }

  /** `s.trim()`: `s` without its leading and trailing whitespace. */
  function Trim(s: string): (r: string)
    ensures LeadingWhitespace(s) + |r| <= |s|
    ensures r == s[LeadingWhitespace(s)..LeadingWhitespace(s) + |r|]
    ensures r == "" <==> AllWhitespace(s)
    ensures r != "" ==> !IsWhitespace(r[0]) && !IsWhitespace(r[|r| - 1])
    ensures AllWhitespace(s[LeadingWhitespace(s) + |r|..])
  {
    var n := LeadingWhitespace(s);
    var front := s[n..];
    var m := TrailingWhitespace(front);
    TrimEnds(front, m);
    TrimEmpty(s, n, m);
    assert s[n + (|front| - m)..] == front[|front| - m..];
    front[..|front| - m]
  }

  /** What is left once `m` trailing blanks are cut from `front` keeps non-blank ends. */
  lemma TrimEnds(front: string, m: nat)
    requires m == TrailingWhitespace(front)
    requires front == [] || !IsWhitespace(front[0]) || m == |front|
    ensures var r := front[..|front| - m];
      r != "" ==> !IsWhitespace(r[0]) && !IsWhitespace(r[|r| - 1])
  {
    var r := front[..|front| - m];
    if r != "" {
      assert r[|r| - 1] == front[|front| - 1 - m];
      assert r[0] == front[0];
    }
  }

  /** Trimming leaves nothing exactly when every character is whitespace. */
  lemma TrimEmpty(s: string, n: nat, m: nat)
    requires n == LeadingWhitespace(s)
    requires m == TrailingWhitespace(s[n..])
    ensures m == |s| - n <==> AllWhitespace(s)
  {
    if m == |s| - n {
      // `front` is empty or starts with a non-blank, so it has no blank tail to cut entirely
      assert n == |s|;
      assert s[..n] == s;
    }
    if AllWhitespace(s) && n < |s| {
      assert false;
    }
  }

  /** The UTF-16 code units of `c`: a surrogate pair above U+FFFF, one unit otherwise. */
  function Utf16Units(c: char): nat {
    if c as int > 0xFFFF then 2 else 1
  }

  /** `s.length`, which counts UTF-16 code units rather than characters. */
  function Utf16Length(s: string): (n: nat)
    ensures |s| <= n <= 2 * |s|
    ensures n == 0 <==> s == ""
  {
    if s == "" then 0 else Utf16Units(s[0]) + Utf16Length(s[1..])
  }

  /** A string without characters above U+FFFF has as many code units as characters. */
  lemma {:induction false} Utf16LengthBasic(s: string)
    requires forall i :: 0 <= i < |s| ==> s[i] as int <= 0xFFFF
    ensures Utf16Length(s) == |s|
  {
    if s != "" {
      assert forall i :: 0 <= i < |s[1..]| ==> s[1..][i] == s[i + 1];
      Utf16LengthBasic(s[1..]);
    }
  }

  /** A character above U+FFFF, such as an emoji, counts twice. */
  lemma AstralCountsTwice()
    ensures Utf16Length("\U{1F600}") == 2 && Utf16Length("\U{1F600}a") == 3
  {
  }

  /** `c.toLowerCase()` for the ASCII letters; every other character is kept. */
  function LowerChar(c: char): char {
    if 'A' <= c <= 'Z' then (c as int + 32) as char else c
  }

  /** `s.toLowerCase()`, restricted to ASCII letters. */
  function ToLower(s: string): (r: string)
    ensures |r| == |s|
    ensures forall i :: 0 <= i < |s| ==> r[i] == LowerChar(s[i])
  {
    seq(|s|, i requires 0 <= i < |s| => LowerChar(s[i]))
  }

  /** `s.startsWith(prefix)`. */
  predicate StartsWith(s: string, prefix: string) {
    prefix <= s
  }

  /** `sub` occurs in `s` starting at index `i`. */
  predicate OccursAt(s: string, sub: string, i: int) {
    0 <= i <= |s| - |sub| && s[i..i + |sub|] == sub
  }

  /** `s.includes(sub)`: `sub` occurs somewhere in `s`. */
  ghost predicate Occurs(s: string, sub: string) {
    exists i :: OccursAt(s, sub, i)
  }

  /** `s.includes(sub)`, computed by scanning `s` from the front. */
  function Includes(s: string, sub: string): (r: bool)
    ensures r <==> Occurs(s, sub)
  {
    if sub <= s then
      assert OccursAt(s, sub, 0);
      true
    else if |s| <= |sub| then
      assert !Occurs(s, sub) by {
        forall i | OccursAt(s, sub, i) ensures false {}
      }
      false
    else
      var r := Includes(s[1..], sub);
      assert r ==> Occurs(s, sub) by {
        if r {
          var i :| OccursAt(s[1..], sub, i);
          assert s[1..][i..i + |sub|] == s[i + 1..i + 1 + |sub|];
          assert OccursAt(s, sub, i + 1);
        }
      }
      assert Occurs(s, sub) ==> r by {
        if Occurs(s, sub) {
          var i :| OccursAt(s, sub, i);
          if i > 0 {
            assert s[1..][i - 1..i - 1 + |sub|] == s[i..i + |sub|];
            assert OccursAt(s[1..], sub, i - 1);
          }
        }
      }
      r
  }
}
