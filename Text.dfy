/** String predicates the forms use: JavaScript's whitespace class (`\s`, which
    is also what `trim()` strips), blankness after `trim()`, `.length` in UTF-16
    code units, and the e-mail pattern `^[^\s@]+@[^\s@]+\.[^\s@]+$`. */
module Text {

  /** A character of ECMAScript's WhiteSpace or LineTerminator productions. */
  predicate IsWhitespace(c: char)
  {
    var n := c as int;
    (0x09 <= n <= 0x0D) || n == 0x20 || n == 0xA0 || n == 0x1680
    || (0x2000 <= n <= 0x200A) || n == 0x2028 || n == 0x2029 || n == 0x202F
    || n == 0x205F || n == 0x3000 || n == 0xFEFF
  }

  /** `s.trim()`: leading and trailing whitespace removed. The result is the slice
      `s[i..j]` whose cut-off ends are all whitespace and whose own ends are not. */
  function Trim(s: string): (r: string)
    ensures |r| <= |s|
    ensures r != [] ==> !IsWhitespace(r[0]) && !IsWhitespace(r[|r| - 1])
    ensures exists i, j :: TrimmedAt(s, r, i, j)
  {
    if s == [] then
      assert TrimmedAt(s, [], 0, 0);
      []
    else if IsWhitespace(s[0]) then
      TrimmedFront(s, Trim(s[1..]));
      Trim(s[1..])
    else if IsWhitespace(s[|s| - 1]) then
      TrimmedBack(s, s[..|s| - 1], Trim(s[..|s| - 1]));
      Trim(s[..|s| - 1])
    else
      assert TrimmedAt(s, s, 0, |s|);
      s
  }

  /** `r` is `s[i..j]`, and everything cut off on either side is whitespace. */
  ghost predicate TrimmedAt(s: string, r: string, i: int, j: int)
  {
    0 <= i <= j <= |s| && r == s[i..j] && IsBlank(s[..i]) && IsBlank(s[j..])
  }

  lemma TrimmedFront(s: string, r: string)
    requires s != [] && IsWhitespace(s[0])
    requires exists i, j :: TrimmedAt(s[1..], r, i, j)
    ensures exists i, j :: TrimmedAt(s, r, i, j)
  {
    var i, j :| TrimmedAt(s[1..], r, i, j);
    assert s[1..][i..j] == s[i + 1..j + 1];
    assert s[1..][j..] == s[j + 1..];
    assert forall k :: 0 <= k < i ==> s[1..][..i][k] == s[k + 1];
    assert TrimmedAt(s, r, i + 1, j + 1);
  }

  lemma TrimmedBack(s: string, t: string, r: string)
    requires s != [] && IsWhitespace(s[|s| - 1]) && t == s[..|s| - 1]
    requires exists i, j :: TrimmedAt(t, r, i, j)
    ensures exists i, j :: TrimmedAt(s, r, i, j)
  {
    var i, j :| TrimmedAt(t, r, i, j);
    assert t[i..j] == s[i..j];
    assert t[..i] == s[..i];
    assert forall k :: 0 <= k < |s[j..]| - 1 ==> s[j..][k] == t[j..][k];
    assert TrimmedAt(s, r, i, j);
  }

  /** Every character is whitespace. */
  predicate IsBlank(s: string)
  {
    forall k :: 0 <= k < |s| ==> IsWhitespace(s[k])
  }

  /** `!s.trim()` holds exactly for the strings made only of whitespace. */
  lemma {:induction false} TrimEmptyIffBlank(s: string)
    ensures Trim(s) == [] <==> IsBlank(s)
  {
    if s != [] {
      if IsWhitespace(s[0]) {
        TrimEmptyIffBlank(s[1..]);
        assert IsBlank(s) <==> IsBlank(s[1..]) by {
          assert forall k :: 1 <= k < |s| ==> s[k] == s[1..][k - 1];
        }
      } else {
        assert !IsBlank(s);
        if IsWhitespace(s[|s| - 1]) {
          TrimEmptyIffBlank(s[..|s| - 1]);
          assert !IsBlank(s[..|s| - 1]) by { assert s[..|s| - 1][0] == s[0]; }
        }
      }
    }
  }

  /** `s.length`: UTF-16 code units, two for a character outside the Basic Multilingual Plane. */
  function Utf16Length(s: string): (n: nat)
    ensures n >= |s|
    ensures n <= 2 * |s|
  {
    if s == [] then 0 else (if s[0] as int > 0xFFFF then 2 else 1) + Utf16Length(s[1..])
  }

  /** A run matched by `[^\s@]+`. */
  predicate EmailPart(t: string)
  {
    |t| > 0 && forall k :: 0 <= k < |t| ==> !IsWhitespace(t[k]) && t[k] != '@'
  }

  /** The pattern, read directly: `s` splits as part '@' part '.' part. */
  ghost predicate EmailRegex(s: string)
  {
    exists p, q :: 0 < p && p + 1 < q < |s| - 1
      && EmailPart(s[..p]) && s[p] == '@'
      && EmailPart(s[p + 1..q]) && s[q] == '.'
      && EmailPart(s[q + 1..])
  }

  predicate NoWhitespace(s: string)
  {
    forall k :: 0 <= k < |s| ==> !IsWhitespace(s[k])
  }

  /** Position p holds the only '@' of `s`, and it is not the first character. */
  predicate SoleAt(s: string, p: int)
  {
    0 < p < |s| && s[p] == '@' && forall k :: 0 <= k < |s| && k != p ==> s[k] != '@'
  }

  /** Some '.' lies at least two places after p and before the last character. */
  predicate DotAfter(s: string, p: int)
  {
    exists q :: 0 <= p + 1 < q < |s| - 1 && s[q] == '.'
  }

  /** `validateEmail(email)`: no whitespace anywhere, exactly one '@' and not at the
      start, and a '.' with at least one character between it and the '@' and at
      least one after it. */
  function ValidateEmail(s: string): (r: bool)
    ensures r <==> EmailRegex(s)
  {
    EmailCheckIffRegex(s);
    NoWhitespace(s) && exists p :: 0 < p < |s| && SoleAt(s, p) && DotAfter(s, p)
  }

  lemma EmailCheckIffRegex(s: string)
    ensures (NoWhitespace(s) && exists p :: 0 < p < |s| && SoleAt(s, p) && DotAfter(s, p)) <==> EmailRegex(s)
  {
    if NoWhitespace(s) && exists p :: 0 < p < |s| && SoleAt(s, p) && DotAfter(s, p) {
      var p :| SoleAt(s, p) && DotAfter(s, p);
      CheckGivesRegex(s, p);
    }
    if EmailRegex(s) {
      RegexGivesCheck(s);
    }
  }

  lemma RegexGivesCheck(s: string)
    requires EmailRegex(s)
    ensures NoWhitespace(s) && exists p :: 0 < p < |s| && SoleAt(s, p) && DotAfter(s, p)
  {
    var p, q :| 0 < p && p + 1 < q < |s| - 1
      && EmailPart(s[..p]) && s[p] == '@'
      && EmailPart(s[p + 1..q]) && s[q] == '.'
      && EmailPart(s[q + 1..]);
    var a, b, c := s[..p], s[p + 1..q], s[q + 1..];
    forall k | 0 <= k < |s| ensures !IsWhitespace(s[k]) && (k != p ==> s[k] != '@') {
      if k < p { assert s[k] == a[k]; }
      else if p < k < q { assert s[k] == b[k - p - 1]; }
      else if k > q { assert s[k] == c[k - q - 1]; }
    }
    assert SoleAt(s, p) && DotAfter(s, p);
  }

  lemma CheckGivesRegex(s: string, p: int)
    requires NoWhitespace(s) && SoleAt(s, p) && DotAfter(s, p)
    ensures EmailRegex(s)
  {
    var q :| 0 <= p + 1 < q < |s| - 1 && s[q] == '.';
    var a, b, c := s[..p], s[p + 1..q], s[q + 1..];
    assert forall k :: 0 <= k < |a| ==> a[k] == s[k];
    assert forall k :: 0 <= k < |b| ==> b[k] == s[p + 1 + k];
    assert forall k :: 0 <= k < |c| ==> c[k] == s[q + 1 + k];
    assert EmailPart(a) && EmailPart(b) && EmailPart(c);
  }
}
