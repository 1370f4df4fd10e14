/** The JavaScript string built-ins the app relies on: `includes`,
    `startsWith`, `toLowerCase`, `trim` and `Number.prototype.toFixed(4)`,
    together with the facts about them that the rest of the model uses. */
module JsStrings {

  // ---------------------------------------------------------------------
  // includes / startsWith

  /** `t` occurs in `s` starting at index `i`. */
  predicate OccursAt(s: string, t: string, i: nat)
  {
    i + |t| <= |s| && s[i..i + |t|] == t
  }

  /** `s.includes(t)`: case-sensitive search for a contiguous occurrence. */
  predicate Includes(s: string, t: string)
  {
    exists i: nat | i <= |s| :: OccursAt(s, t, i)
  }

  /** `s.startsWith(p)`. */
  predicate StartsWith(s: string, p: string)
  {
    |p| <= |s| && s[..|p|] == p
  }

  lemma IncludesAt(s: string, t: string, i: nat)
    requires OccursAt(s, t, i)
    ensures Includes(s, t)
  {
  }

  /** No character of `s` is `c`. */
  predicate Lacks(s: string, c: char)
  {
    forall k :: 0 <= k < |s| ==> s[k] != c
  }

  lemma LacksConcat(a: string, b: string, c: char)
    requires Lacks(a, c) && Lacks(b, c)
    ensures Lacks(a + b, c)
  {
  }

  /** A string cannot include a pattern that has a character it lacks. */
  lemma {:induction false} MissingCharExcludes(s: string, t: string, c: char)
    requires c in t && Lacks(s, c)
    ensures !Includes(s, t)
  {
  }

  /** An occurrence in a concatenation lies in one of the two parts when a
      character at the seam cannot be part of the pattern. */
  lemma {:induction false} IncludesConcat(p: string, q: string, t: string)
    requires (|p| > 0 && p[|p| - 1] !in t) || (|q| > 0 && q[0] !in t)
    ensures Includes(p + q, t) <==> Includes(p, t) || Includes(q, t)
  {
    var s := p + q;
    if Includes(p, t) {
      var i: nat :| i <= |p| && OccursAt(p, t, i);
      assert s[i..i + |t|] == p[i..i + |t|];
      IncludesAt(s, t, i);
    }
    if Includes(q, t) {
      var j: nat :| j <= |q| && OccursAt(q, t, j);
      assert s[|p| + j..|p| + j + |t|] == q[j..j + |t|];
      IncludesAt(s, t, |p| + j);
    }
    if Includes(s, t) && !Includes(p, t) && !Includes(q, t) {
      var i: nat :| i <= |s| && OccursAt(s, t, i);
      if i + |t| <= |p| {
        assert p[i..i + |t|] == s[i..i + |t|];
        IncludesAt(p, t, i);
      } else if i >= |p| {
        assert q[i - |p|..i - |p| + |t|] == s[i..i + |t|];
        IncludesAt(q, t, i - |p|);
      } else {
        // the occurrence covers both characters at the seam
        CoveredCharInPattern(s, t, i, |p| - 1);
        CoveredCharInPattern(s, t, i, |p|);
      }
    }
  }

  /** A text includes whatever stands in its middle. */
  lemma IncludesMiddle(a: string, t: string, b: string)
    ensures Includes(a + t + b, t)
  {
    assert (a + t + b)[|a|..|a| + |t|] == t;
    IncludesAt(a + t + b, t, |a|);
  }

  /** Two texts joined by a space include no pattern without a space that
      neither of them includes. */
  lemma SpaceJoinedExcludes(a: string, b: string, t: string)
    requires |a| > 0 && a[|a| - 1] == ' ' && ' ' !in t
    requires !Includes(a, t) && !Includes(b, t)
    ensures !Includes(a + b, t)
  {
    IncludesConcat(a, b, t);
  }

  /** Every character an occurrence covers is a character of the pattern. */
  lemma CoveredCharInPattern(s: string, t: string, i: nat, j: nat)
    requires OccursAt(s, t, i) && i <= j < i + |t|
    ensures s[j] in t
  {
    assert s[j] == s[i..i + |t|][j - i];
  }

  // ---------------------------------------------------------------------
  // trim

  /** The characters `String.prototype.trim` removes: WhiteSpace (TAB, VT,
      FF, ZWNBSP and every space separator) and LineTerminator (LF, CR,
      LS, PS), as the ECMAScript grammar lists them. */
  predicate IsWhitespace(c: char)
  {
    || c == '\U{9}' || c == '\U{B}' || c == '\U{C}' || c == '\U{FEFF}'
    || c == ' ' || c == '\U{A0}' || c == '\U{1680}'
    || ('\U{2000}' <= c <= '\U{200A}')
    || c == '\U{202F}' || c == '\U{205F}' || c == '\U{3000}'
    || c == '\U{A}' || c == '\U{D}' || c == '\U{2028}' || c == '\U{2029}'
  }

  /** Removes leading whitespace: the result is a suffix of `s`, everything
      cut off is whitespace, and the result does not start with whitespace. */
  function TrimStart(s: string): (r: string)
    ensures |r| <= |s| && r == s[|s| - |r|..]
    ensures forall k :: 0 <= k < |s| - |r| ==> IsWhitespace(s[k])
    ensures |r| > 0 ==> !IsWhitespace(r[0])
  {
    if |s| > 0 && IsWhitespace(s[0]) then TrimStart(s[1..]) else s
  }

  /** Removes trailing whitespace: the result is a prefix of `s`, everything
      cut off is whitespace, and the result does not end with whitespace. */
  function TrimEnd(s: string): (r: string)
    ensures |r| <= |s| && r == s[..|r|]
    ensures forall k :: |r| <= k < |s| ==> IsWhitespace(s[k])
    ensures |r| > 0 ==> !IsWhitespace(r[|r| - 1])
  {
    if |s| > 0 && IsWhitespace(s[|s| - 1]) then TrimEnd(s[..|s| - 1]) else s
  }

  /** `s.trim()`. */
  function Trim(s: string): string
  {
    TrimEnd(TrimStart(s))
  }

  /** Trimming a lower-case string leaves it lower case. */
  lemma TrimKeepsLowered(s: string)
    requires forall k :: 0 <= k < |s| ==> LowerChar(s[k]) == s[k]
    ensures var r := Trim(s); forall k :: 0 <= k < |r| ==> LowerChar(r[k]) == r[k]
  {
    var u := TrimStart(s);
    assert forall k :: 0 <= k < |u| ==> u[k] == s[|s| - |u| + k];
  }

  /** `s.trim()` is empty exactly when `s` consists of whitespace only. */
  lemma {:induction false} TrimEmptyIffBlank(s: string)
    ensures Trim(s) == [] <==> forall k :: 0 <= k < |s| ==> IsWhitespace(s[k])
  {
    var u := TrimStart(s);
  }

  /** Trimming a string that neither starts nor ends with whitespace gives
      it back unchanged. */
  lemma TrimOfTrimmed(s: string)
    requires |s| > 0 ==> !IsWhitespace(s[0]) && !IsWhitespace(s[|s| - 1])
    ensures Trim(s) == s
  {
  }

  // ---------------------------------------------------------------------
  // toLowerCase (ASCII)

  /** Lower-cases one character; only the ASCII letters A-Z are mapped. */
  function LowerChar(c: char): char
  {
    if 'A' <= c <= 'Z' then (c as int + 32) as char else c
  }

  /** `s.toLowerCase()`, restricted to ASCII letters. */
  function ToLower(s: string): (r: string)
    ensures |r| == |s|
  {
    seq(|s|, k requires 0 <= k < |s| => LowerChar(s[k]))
  }

  // ---------------------------------------------------------------------
  // Number.prototype.toFixed(4)

  predicate IsNumeral(c: char)
  {
    '0' <= c <= '9' || c == '.'
  }

  function DigitChar(d: nat): (c: char)
    requires d < 10
    ensures IsNumeral(c)
  {
    ('0' as int + d) as char
  }

  /** The decimal digits of `n`, without leading zeros. */
  function Decimal(n: nat): (s: string)
    ensures |s| > 0
    ensures forall k :: 0 <= k < |s| ==> IsNumeral(s[k])
  {
    if n < 10 then [DigitChar(n)] else Decimal(n / 10) + [DigitChar(n % 10)]
  }

  /** The last `width` decimal digits of `n`, padded with zeros. */
  function FixedDigits(n: nat, width: nat): (s: string)
    ensures |s| == width
    ensures forall k :: 0 <= k < |s| ==> IsNumeral(s[k])
  {
    if width == 0 then [] else FixedDigits(n / 10, width - 1) + [DigitChar(n % 10)]
  }

  /** `x.toFixed(4)` for a non-negative `x`: the multiple of 1/10000 nearest
      to `x`, the larger one on a tie, written with four decimals. */
  function ToFixed4(x: real): (s: string)
    requires x >= 0.0
    ensures |s| > 0
    ensures forall k :: 0 <= k < |s| ==> IsNumeral(s[k])
  {
    var n := (x * 10000.0 + 0.5).Floor;
    Decimal(n / 10000) + "." + FixedDigits(n % 10000, 4)
  }
}
