/**
 * The checkout field validators, each a regular-expression test in the original, written out
 * here as total predicates over strings with the character classes made explicit.
 */
module Validations {
  import opened Sequences

  /** `\d` in a JavaScript regular expression: the ASCII digits only. */
  predicate IsDigit(c: char)
  {
    '0' <= c <= '9'
  }

  /**
   * `\s` in a JavaScript regular expression, which is also what `String.prototype.trim`
   * removes: the Unicode space separators, tab, vertical tab, form feed, the byte order mark
   * and the four line terminators.
   */
  predicate IsWhitespace(c: char)
  {
    c == '\t' || c == '\n' || c == '\U{0B}' || c == '\U{0C}' || c == '\r' || c == ' ' ||
    c == '\U{A0}' || c == '\U{1680}' || ('\U{2000}' <= c <= '\U{200A}') ||
    c == '\U{2028}' || c == '\U{2029}' || c == '\U{202F}' || c == '\U{205F}' ||
    c == '\U{3000}' || c == '\U{FEFF}'
  }

  predicate IsNotWhitespace(c: char)
  {
    !IsWhitespace(c)
  }

  predicate AllDigits(s: string)
  {
    forall i | 0 <= i < |s| :: IsDigit(s[i])
  }

  predicate AllWhitespace(s: string)
  {
    forall i | 0 <= i < |s| :: IsWhitespace(s[i])
  }

  /** `\S+`: one or more characters, none of them whitespace. */
  predicate IsNonSpaceRun(s: string)
  {
    |s| > 0 && forall i | 0 <= i < |s| :: !IsWhitespace(s[i])
  }

  /** `s.trimStart()`: `s` without its leading whitespace. */
  function TrimStart(s: string): (r: string)
    ensures r == [] || !IsWhitespace(r[0])
    ensures exists a | 0 <= a <= |s| :: r == s[a..] && AllWhitespace(s[..a])
    decreases |s|
  {
    if s != [] && IsWhitespace(s[0]) then
      var r := TrimStart(s[1..]);
      ghost var a :| 0 <= a <= |s| - 1 && r == s[1..][a..] && AllWhitespace(s[1..][..a]);
      assert s[..a + 1] == [s[0]] + s[1..][..a];
      assert r == s[a + 1..] && AllWhitespace(s[..a + 1]);
      r
    else
      assert s == s[0..] && AllWhitespace(s[..0]);
      s
  }

  /** `s.trimEnd()`: `s` without its trailing whitespace. */
  function TrimEnd(s: string): (r: string)
    ensures r == [] || !IsWhitespace(r[|r| - 1])
    ensures exists b | 0 <= b <= |s| :: r == s[..b] && AllWhitespace(s[b..])
    decreases |s|
  {
    if s != [] && IsWhitespace(s[|s| - 1]) then
      var r := TrimEnd(s[..|s| - 1]);
      ghost var b :| 0 <= b <= |s| - 1 && r == s[..|s| - 1][..b] && AllWhitespace(s[..|s| - 1][b..]);
      assert s[b..] == s[..|s| - 1][b..] + [s[|s| - 1]];
      assert r == s[..b] && AllWhitespace(s[b..]);
      r
    else
      assert s == s[..|s|] && AllWhitespace(s[|s|..]);
      s
  }

  /** `s.trim()`. */
  function Trim(s: string): string
  {
    TrimEnd(TrimStart(s))
  }

  /** `!s.trim()`: the field is empty once surrounding whitespace is removed. */
  predicate IsBlank(s: string)
  {
    Trim(s) == ""
  }

  lemma {:induction false} TrimStartEmpty(s: string)
    ensures TrimStart(s) == [] <==> AllWhitespace(s)
    decreases |s|
  {
    if s != [] && IsWhitespace(s[0]) {
      TrimStartEmpty(s[1..]);
      assert s == [s[0]] + s[1..];
    }
  }

  lemma {:induction false} TrimEndEmpty(s: string)
    ensures TrimEnd(s) == [] <==> AllWhitespace(s)
    decreases |s|
  {
    if s != [] && IsWhitespace(s[|s| - 1]) {
      TrimEndEmpty(s[..|s| - 1]);
      assert s == s[..|s| - 1] + [s[|s| - 1]];
    }
  }

  /** A field is blank exactly when every one of its characters is whitespace. */
  lemma BlankIffAllWhitespace(s: string)
    ensures IsBlank(s) <==> AllWhitespace(s)
  {
    TrimStartEmpty(s);
    TrimEndEmpty(TrimStart(s));
  }

  /** `/\S+@\S+\.\S+/.test(s)`: some substring of `s` matches; the pattern is not anchored. */
  predicate EmailIsValid(s: string)
  {
    exists a, p, q, e | 0 <= a < p < q < e <= |s| :: EmailMatch(s, a, p, q, e)
  }

  /** `s[a..e]` is `\S+@\S+\.\S+`, with the `@` at `p` and the `.` at `q`. */
  predicate EmailMatch(s: string, a: int, p: int, q: int, e: int)
    requires 0 <= a < p < q < e <= |s|
  {
    IsNonSpaceRun(s[a..p]) && s[p] == '@' && IsNonSpaceRun(s[p + 1..q]) &&
    s[q] == '.' && IsNonSpaceRun(s[q + 1..e])
  }

  /**
   * The same test judged one character at a time: a non-space character right before an `@`,
   * a non-empty run of non-space characters up to a `.`, and a non-space character after it.
   */
  predicate EmailShapeAt(s: string, p: int, q: int)
  {
    1 <= p && p + 1 < q && q + 1 < |s| &&
    !IsWhitespace(s[p - 1]) && s[p] == '@' && IsNonSpaceRun(s[p + 1..q]) &&
    s[q] == '.' && !IsWhitespace(s[q + 1])
  }

  lemma EmailIffShape(s: string)
    ensures EmailIsValid(s) <==> exists p, q | 0 <= p < q < |s| :: EmailShapeAt(s, p, q)
  {
    if EmailIsValid(s) {
      var a, p, q, e :| 0 <= a < p < q < e <= |s| && EmailMatch(s, a, p, q, e);
      MatchGivesShape(s, a, p, q, e);
    }
    if exists p, q | 0 <= p < q < |s| :: EmailShapeAt(s, p, q) {
      var p, q :| 0 <= p < q < |s| && EmailShapeAt(s, p, q);
      ShapeGivesMatch(s, p, q);
    }
  }

  /** Helper for `EmailIffShape`: a match has the shape around its `@` and `.`. */
  lemma MatchGivesShape(s: string, a: int, p: int, q: int, e: int)
    requires 0 <= a < p < q < e <= |s| && EmailMatch(s, a, p, q, e)
    ensures EmailShapeAt(s, p, q)
  {
    assert s[p - 1] == s[a..p][p - 1 - a];
    assert s[q + 1] == s[q + 1..e][0];
  }

  /** Helper for `EmailIffShape`: the shape gives the shortest match around it. */
  lemma ShapeGivesMatch(s: string, p: int, q: int)
    requires 0 <= p < q < |s| && EmailShapeAt(s, p, q)
    ensures EmailMatch(s, p - 1, p, q, q + 2)
  {
    assert s[p - 1..p] == [s[p - 1]];
    assert s[q + 1..q + 2] == [s[q + 1]];
  }

  /** Text around a valid address does not make it invalid: the match is unanchored. */
  lemma EmailUnanchored(x: string, s: string, y: string)
    requires EmailIsValid(s)
    ensures EmailIsValid(x + s + y)
  {
    var a, p, q, e :| 0 <= a < p < q < e <= |s| && EmailMatch(s, a, p, q, e);
    EmailMatchInside(x, s, y, a, p, q, e);
  }

  /** Helper for `EmailUnanchored`: the match found in `s`, shifted, is a match inside `x + s + y`. */
  lemma EmailMatchInside(x: string, s: string, y: string, a: int, p: int, q: int, e: int)
    requires 0 <= a < p < q < e <= |s| && EmailMatch(s, a, p, q, e)
    ensures EmailIsValid(x + s + y)
  {
    var t, n := x + s + y, |x|;
    SliceInside(x, s, y, a, p);
    SliceInside(x, s, y, p + 1, q);
    SliceInside(x, s, y, q + 1, e);
    assert t[n + p] == s[p] && t[n + q] == s[q];
    assert EmailMatch(t, n + a, n + p, n + q, n + e);
  }

  /** A slice of `s` is the same slice of `s` inside a longer string, shifted by what precedes it. */
  lemma SliceInside(x: string, s: string, y: string, i: int, j: int)
    requires 0 <= i <= j <= |s|
    ensures (x + s + y)[|x| + i..|x| + j] == s[i..j]
  {
  }

  /** An address needs both an `@` and a later `.`. */
  lemma EmailNeedsAtThenDot(s: string)
    requires EmailIsValid(s)
    ensures exists p, q | 0 <= p < q < |s| :: s[p] == '@' && s[q] == '.'
  {
  }

  lemma EmailExample()
    ensures EmailIsValid("you@example.com")
    ensures !EmailIsValid("you@example")
  {
    var s := "you@example.com";
    assert s[0..3] == "you" && s[4..11] == "example" && s[12..15] == "com";
    assert IsNonSpaceRun(s[0..3]) && IsNonSpaceRun(s[4..11]) && IsNonSpaceRun(s[12..15]);
    assert s[3] == '@' && s[11] == '.';
    assert EmailMatch(s, 0, 3, 11, 15);
    assert forall i | 0 <= i < |"you@example"| :: "you@example"[i] != '.';
  }

  /** The digits after an optional leading `+`. */
  function PhoneBody(s: string): string
  {
    if |s| > 0 && s[0] == '+' then s[1..] else s
  }

  /** `/^\+?\d{7,15}$/.test(s)`. */
  predicate PhoneIsValid(s: string)
  {
    var d := PhoneBody(s);
    7 <= |d| <= 15 && AllDigits(d)
  }

  /** A phone number is 7 to 15 digits, with or without one leading `+`, and nothing else. */
  lemma PhoneIff(s: string)
    ensures PhoneIsValid(s) <==>
              (7 <= |s| <= 15 && AllDigits(s)) ||
              (|s| > 0 && s[0] == '+' && 7 <= |s| - 1 <= 15 && AllDigits(s[1..]))
  {
    if |s| > 0 && s[0] == '+' {
      assert !IsDigit(s[0]);
    }
  }

  lemma PhoneExample()
    ensures PhoneIsValid("+923001234567")
    ensures PhoneIsValid("3001234")
    ensures !PhoneIsValid("300123")
    ensures !PhoneIsValid("++3001234")
  {
    assert PhoneBody("++3001234") == "+3001234";
    assert !IsDigit("+3001234"[0]);
  }

  /** `s.replace(/\s+/g, "")`: every whitespace character deleted. */
  function StripWhitespace(s: string): string
  {
    Filter(s, IsNotWhitespace)
  }

  /** `/^\d{12,19}$/.test(s.replace(/\s+/g, ""))`. */
  predicate CardNumberIsValid(s: string)
  {
    var d := StripWhitespace(s);
    12 <= |d| <= 19 && AllDigits(d)
  }

  /** A card number is valid exactly when every non-space character is a digit and there are 12 to 19 of them. */
  lemma CardNumberIff(s: string)
    ensures CardNumberIsValid(s) <==>
              (forall i | 0 <= i < |s| && !IsWhitespace(s[i]) :: IsDigit(s[i])) &&
              12 <= |StripWhitespace(s)| <= 19
  {
    var d := StripWhitespace(s);
    FilterKeepsKept(s, IsNotWhitespace);
    if AllDigits(d) {
      forall i | 0 <= i < |s| && !IsWhitespace(s[i]) ensures IsDigit(s[i]) {
        assert IsNotWhitespace(s[i]);
        assert s[i] in d;
      }
    }
    if forall i | 0 <= i < |s| && !IsWhitespace(s[i]) :: IsDigit(s[i]) {
      forall j | 0 <= j < |d| ensures IsDigit(d[j]) {
        assert d[j] in s && IsNotWhitespace(d[j]);
      }
    }
  }

  /** Inserting or deleting whitespace anywhere in a card number does not change the verdict. */
  lemma CardNumberIgnoresWhitespace(a: string, w: string, b: string)
    requires AllWhitespace(w)
    ensures StripWhitespace(a + w + b) == StripWhitespace(a + b)
    ensures CardNumberIsValid(a + w + b) == CardNumberIsValid(a + b)
  {
    StripSkipsWhitespace(a, w, b);
  }

  /** Helper for `CardNumberIgnoresWhitespace`: the stripped strings agree. */
  lemma StripSkipsWhitespace(a: string, w: string, b: string)
    requires AllWhitespace(w)
    ensures StripWhitespace(a + w + b) == StripWhitespace(a + b)
  {
    var sa, sb := StripWhitespace(a), StripWhitespace(b);
    FilterAppend(a + w, b, IsNotWhitespace);
    FilterAppend(a, w, IsNotWhitespace);
    FilterDropsAll(w, IsNotWhitespace);
    assert StripWhitespace(a + w) == sa;
    FilterAppend(a, b, IsNotWhitespace);
  }

  /** A digit string of acceptable length needs no whitespace removed to pass. */
  lemma CardDigitsAccepted(d: string)
    requires AllDigits(d) && 12 <= |d| <= 19
    ensures CardNumberIsValid(d)
  {
    forall i | 0 <= i < |d| ensures IsNotWhitespace(d[i]) {
      assert IsDigit(d[i]);
    }
    FilterKeepsAll(d, IsNotWhitespace);
  }

  /** The usual printed form, four groups of four digits separated by spaces, is accepted. */
  lemma CardFourGroups(g1: string, g2: string, g3: string, g4: string)
    requires AllDigits(g1) && AllDigits(g2) && AllDigits(g3) && AllDigits(g4)
    requires |g1| == |g2| == |g3| == |g4| == 4
    ensures CardNumberIsValid(g1 + " " + g2 + " " + g3 + " " + g4)
  {
    var d := g1 + g2 + g3 + g4;
    forall i | 0 <= i < |d| ensures IsDigit(d[i]) {
      if i < 4 { assert d[i] == g1[i]; }
      else if i < 8 { assert d[i] == g2[i - 4]; }
      else if i < 12 { assert d[i] == g3[i - 8]; }
      else { assert d[i] == g4[i - 12]; }
    }
    CardDigitsAccepted(d);
    CardSpacesOut(g1, g2, g3, g4);
  }

  /** Helper for `CardFourGroups`: the three spaces come out one by one. */
  lemma CardSpacesOut(g1: string, g2: string, g3: string, g4: string)
    ensures StripWhitespace(g1 + " " + g2 + " " + g3 + " " + g4) == StripWhitespace(g1 + g2 + g3 + g4)
  {
    var sp := " ";
    assert AllWhitespace(sp);
    CardNumberIgnoresWhitespace(g1 + sp + g2 + sp + g3, sp, g4);
    assert g1 + sp + g2 + sp + g3 + sp + g4 == (g1 + sp + g2 + sp + g3) + sp + g4;
    CardNumberIgnoresWhitespace(g1 + sp + g2, sp, g3 + g4);
    assert (g1 + sp + g2 + sp + g3) + g4 == (g1 + sp + g2) + sp + (g3 + g4);
    CardNumberIgnoresWhitespace(g1, sp, g2 + (g3 + g4));
    assert (g1 + sp + g2) + (g3 + g4) == g1 + sp + (g2 + (g3 + g4));
    assert g1 + (g2 + (g3 + g4)) == g1 + g2 + g3 + g4;
  }

  lemma CardNumberExample()
    ensures CardNumberIsValid("4111 1111 1111 1111")
  {
    CardFourGroups("4111", "1111", "1111", "1111");
    assert "4111" + " " + "1111" + " " + "1111" + " " + "1111" == "4111 1111 1111 1111";
  }

  lemma CardNumberTooShort()
    ensures !CardNumberIsValid("123")
  {
    FilterKeepsAll("123", IsNotWhitespace);
  }

  /** `0[1-9]|1[0-2]`: a two-character month from 01 to 12. */
  predicate IsMonth(c0: char, c1: char)
  {
    (c0 == '0' && '1' <= c1 <= '9') || (c0 == '1' && '0' <= c1 <= '2')
  }

  /** `/^(0[1-9]|1[0-2])\/\d{2}$/.test(s)`. */
  predicate ExpiryIsValid(s: string)
  {
    |s| == 5 && IsMonth(s[0], s[1]) && s[2] == '/' && IsDigit(s[3]) && IsDigit(s[4])
  }

  function DigitValue(c: char): int
    requires IsDigit(c)
  {
    c as int - '0' as int
  }

  /** An expiry is `MM/YY` where `MM`, read as a number, is a month from 1 to 12. */
  lemma ExpiryIff(s: string)
    ensures ExpiryIsValid(s) <==>
              |s| == 5 && IsDigit(s[0]) && IsDigit(s[1]) &&
              1 <= 10 * DigitValue(s[0]) + DigitValue(s[1]) <= 12 &&
              s[2] == '/' && IsDigit(s[3]) && IsDigit(s[4])
  {
  }

  lemma ExpiryExample()
    ensures ExpiryIsValid("12/25")
    ensures !ExpiryIsValid("13/25")
    ensures !ExpiryIsValid("00/25")
    ensures !ExpiryIsValid("1/25")
  {
  }

  /** `/^\d{3,4}$/.test(s)`. */
  predicate CvvIsValid(s: string)
  {
    3 <= |s| <= 4 && AllDigits(s)
  }

  /** A CVV is three digits, or four. */
  lemma CvvIff(s: string)
    ensures CvvIsValid(s) <==>
              (|s| == 3 || |s| == 4) && IsDigit(s[0]) && IsDigit(s[1]) && IsDigit(s[2]) &&
              (|s| == 4 ==> IsDigit(s[3]))
  {
  }

  lemma CvvExample()
    ensures CvvIsValid("123") && CvvIsValid("1234")
    ensures !CvvIsValid("12") && !CvvIsValid("12345") && !CvvIsValid("12a")
  {
    assert !IsDigit("12a"[2]);
  }

  /** The empty string passes none of the format rules. */
  lemma EmptyFailsFormats()
    ensures !EmailIsValid("") && !PhoneIsValid("") && !CardNumberIsValid("")
    ensures !ExpiryIsValid("") && !CvvIsValid("")
  {
  }
}
