/**
 * The few Python `str` operations the worker and the generator rely on:
 * whitespace stripping, ASCII case mapping, substring search, `", ".join`,
 * `str(int)`, `int(str)` and `repr(str)`.
 */
module Text {
  import opened Wrappers

  /** Python's `str.isspace()` for one character (the set `str.strip()` removes). */
  predicate IsSpace(c: char) {
    var n := c as int;
    (0x09 <= n <= 0x0D) || (0x1C <= n <= 0x20) || n == 0x85 || n == 0xA0 ||
    n == 0x1680 || (0x2000 <= n <= 0x200A) || n == 0x2028 || n == 0x2029 ||
    n == 0x202F || n == 0x205F || n == 0x3000
  }

  function StripStart(s: string): (r: string)
    ensures |r| <= |s| && r == s[|s| - |r|..]
    ensures r == [] || !IsSpace(r[0])
    ensures forall i :: 0 <= i < |s| - |r| ==> IsSpace(s[i])
  {
    if s != [] && IsSpace(s[0]) then StripStart(s[1..]) else s
  }

  function StripEnd(s: string): (r: string)
    ensures |r| <= |s| && r == s[..|r|]
    ensures r == [] || !IsSpace(r[|r| - 1])
    ensures forall i :: |r| <= i < |s| ==> IsSpace(s[i])
  {
    if s != [] && IsSpace(s[|s| - 1]) then StripEnd(s[..|s| - 1]) else s
  }

  /** Every character of `s` outside `s[a..b]` is whitespace. */
  predicate SpaceAround(s: string, a: int, b: int) {
    0 <= a <= b <= |s| && forall i :: 0 <= i < |s| && !(a <= i < b) ==> IsSpace(s[i])
  }

  /** Python's `s.strip()`: `s` without its leading and trailing whitespace. */
  function Strip(s: string): (r: string)
    ensures |r| <= |s|
    ensures r == [] || (!IsSpace(r[0]) && !IsSpace(r[|r| - 1]))
    ensures exists a, b :: SpaceAround(s, a, b) && r == s[a..b]
  {
    var t := StripStart(s);
    var a := |s| - |t|;
    var r := StripEnd(t);
    assert r == s[a..a + |r|];
    r
  }

  /** A slice with whitespace only around it and none at its ends is what `strip()` leaves. */
  lemma StripOfSpaceAround(s: string, a: int, b: int)
    requires SpaceAround(s, a, b) && a < b && !IsSpace(s[a]) && !IsSpace(s[b - 1])
    ensures Strip(s) == s[a..b]
  {
    var r := Strip(s);
    var a', b' :| SpaceAround(s, a', b') && r == s[a'..b'];
    InsideSpaceAround(s, a', b', a);
    assert r[0] == s[a'] && r[|r| - 1] == s[b' - 1];
    SpaceAroundUnique(s, a, b, a', b');
  }

  /** Two slices with only whitespace around them and none at their ends are the same slice. */
  lemma SpaceAroundUnique(s: string, a: int, b: int, a': int, b': int)
    requires SpaceAround(s, a, b) && a < b && !IsSpace(s[a]) && !IsSpace(s[b - 1])
    requires SpaceAround(s, a', b') && a' < b' && !IsSpace(s[a']) && !IsSpace(s[b' - 1])
    ensures a == a' && b == b'
  {
    InsideSpaceAround(s, a', b', a);
    InsideSpaceAround(s, a', b', b - 1);
    InsideSpaceAround(s, a, b, a');
    InsideSpaceAround(s, a, b, b' - 1);
  }

  /** A character that is not whitespace lies inside the slice it surrounds. */
  lemma InsideSpaceAround(s: string, a: int, b: int, i: int)
    requires SpaceAround(s, a, b) && 0 <= i < |s| && !IsSpace(s[i])
    ensures a <= i < b
  {
  }

  /** `s.strip() == ""` holds exactly when every character of `s` is whitespace. */
  lemma StripEmptyIffAllSpace(s: string)
    ensures Strip(s) == "" <==> forall i :: 0 <= i < |s| ==> IsSpace(s[i])
  {
    if forall i :: 0 <= i < |s| ==> IsSpace(s[i]) {
      AllSpaceStripsToEmpty(s);
    } else {
      var k :| 0 <= k < |s| && !IsSpace(s[k]);
      NonSpaceSurvivesStrip(s, k);
    }
  }

  lemma {:induction false} AllSpaceStripsToEmpty(s: string)
    requires forall i :: 0 <= i < |s| ==> IsSpace(s[i])
    ensures StripStart(s) == "" && Strip(s) == ""
  {
    if s != [] {
      AllSpaceStripsToEmpty(s[1..]);
    }
  }

  lemma NonSpaceSurvivesStrip(s: string, k: int)
    requires 0 <= k < |s| && !IsSpace(s[k])
    ensures Strip(s) != ""
  {
    var t := StripStart(s);
    var j := k - (|s| - |t|);
    assert 0 <= j < |t| && t[j] == s[k];
    var r := StripEnd(t);
    assert j < |r|;
  }

  function LowerChar(c: char): char {
    if 'A' <= c <= 'Z' then (c as int + 32) as char else c
  }

  function UpperChar(c: char): char {
    if 'a' <= c <= 'z' then (c as int - 32) as char else c
  }

  /** Python's `s.lower()`, restricted to the ASCII letters. */
  function Lower(s: string): (r: string)
    ensures |r| == |s| && forall i :: 0 <= i < |s| ==> r[i] == LowerChar(s[i])
  {
    seq(|s|, i requires 0 <= i < |s| => LowerChar(s[i]))
  }

  /** No ASCII lower-case letter occurs in `s`. */
  predicate UpperCase(s: string) {
    forall i :: 0 <= i < |s| ==> !('a' <= s[i] <= 'z')
  }

  /** Python's `s.upper()`, restricted to the ASCII letters. */
  function Upper(s: string): (r: string)
    ensures |r| == |s| && forall i :: 0 <= i < |s| ==> r[i] == UpperChar(s[i])
    ensures UpperCase(r)
  {
    seq(|s|, i requires 0 <= i < |s| => UpperChar(s[i]))
  }

  /** Upper-casing first loses nothing that lower-casing keeps. */
  lemma LowerOfUpper(s: string)
    ensures Lower(Upper(s)) == Lower(s)
  {
    forall i | 0 <= i < |s| ensures Lower(Upper(s))[i] == Lower(s)[i] {
      assert Upper(s)[i] == UpperChar(s[i]);
    }
  }

  /** A text with no lower-case ASCII letter is its own upper-case form. */
  lemma UpperOfUpperCase(s: string)
    requires UpperCase(s)
    ensures Upper(s) == s
  {
  }

  /** Lower-casing twice changes nothing more. */
  lemma LowerOfLower(s: string)
    ensures Lower(Lower(s)) == Lower(s)
  {
    forall i | 0 <= i < |s| ensures Lower(Lower(s))[i] == Lower(s)[i] {
      assert Lower(s)[i] == LowerChar(s[i]);
    }
  }

  /** `sub` stands in `s` at index `i`. */
  ghost predicate OccursAt(sub: string, s: string, i: int) {
    0 <= i <= |s| - |sub| && s[i..i + |sub|] == sub
  }

  /** `sub` occurs in `s` at some position: the meaning of Python's `sub in s`. */
  ghost predicate Occurs(sub: string, s: string) {
    exists i :: OccursAt(sub, s, i)
  }

  /** Python's `sub in s`, by scanning `s` from the left. */
  function Contains(s: string, sub: string): bool
    decreases |s|
  {
    (|sub| <= |s| && s[..|sub|] == sub) || (s != [] && Contains(s[1..], sub))
  }

  lemma {:induction false} ContainsIffOccurs(s: string, sub: string)
    ensures Contains(s, sub) <==> Occurs(sub, s)
    decreases |s|
  {
    if |sub| <= |s| && s[..|sub|] == sub {
      assert OccursAt(sub, s, 0);
    }
    if s != [] {
      ContainsIffOccurs(s[1..], sub);
      if Occurs(sub, s[1..]) {
        var i :| OccursAt(sub, s[1..], i);
        assert s[1..][i..i + |sub|] == s[i + 1..i + 1 + |sub|];
        assert OccursAt(sub, s, i + 1);
      }
      if Occurs(sub, s) && !(|sub| <= |s| && s[..|sub|] == sub) {
        var i :| OccursAt(sub, s, i);
        assert i > 0 by {
          assert i != 0;
        }
        assert s[1..][i - 1..i - 1 + |sub|] == s[i..i + |sub|];
        assert OccursAt(sub, s[1..], i - 1);
      }
    } else {
      if Occurs(sub, s) {
        var i :| OccursAt(sub, s, i);
        assert sub == [];
      }
    }
  }

  /** Python's `sep.join(parts)`. */
  function Join(sep: string, parts: seq<string>): (r: string)
    ensures parts == [] ==> r == ""
    ensures |parts| == 1 ==> r == parts[0]
  {
    if parts == [] then ""
    else if |parts| == 1 then parts[0]
    else parts[0] + sep + Join(sep, parts[1..])
  }

  /** A joined text ends with its last part. */
  lemma {:induction false} JoinEndsWithLast(sep: string, parts: seq<string>)
    requires |parts| > 0
    ensures var r := Join(sep, parts); var last := parts[|parts| - 1];
      |last| <= |r| && r[|r| - |last|..] == last
  {
    if |parts| > 1 {
      JoinEndsWithLast(sep, parts[1..]);
      var r := Join(sep, parts[1..]);
      var last := parts[|parts| - 1];
      assert (parts[0] + sep + r)[|parts[0] + sep + r| - |last|..] == r[|r| - |last|..];
    }
  }

  /** Python's `min(a, b)` on two integers. */
  function Min(a: int, b: int): int {
    if a <= b then a else b
  }

  predicate IsDigit(c: char) {
    '0' <= c <= '9'
  }

  function DigitChar(d: int): char
    requires 0 <= d < 10
  {
    ('0' as int + d) as char
  }

  function DigitsOf(n: nat): (r: string)
    ensures |r| > 0 && forall i :: 0 <= i < |r| ==> IsDigit(r[i])
  {
    if n < 10 then [DigitChar(n)] else DigitsOf(n / 10) + [DigitChar(n % 10)]
  }

  /** Python's `str(n)` for an `int`. */
  function IntToString(n: int): string {
    if n < 0 then "-" + DigitsOf(-n) else DigitsOf(n)
  }

  /** The value of a run of decimal digits in which `_` separators are ignored. */
  function DigitValue(s: string): nat {
    if s == [] then 0
    else if IsDigit(s[|s| - 1]) then DigitValue(s[..|s| - 1]) * 10 + (s[|s| - 1] as int - '0' as int)
    else DigitValue(s[..|s| - 1])
  }

  /**
   * The body `int()` accepts after the sign: digits, with single `_`
   * separators allowed between two digits.
   */
  predicate DecimalLiteral(s: string) {
    |s| > 0 && IsDigit(s[0]) && IsDigit(s[|s| - 1]) &&
    (forall i :: 0 <= i < |s| ==> IsDigit(s[i]) || s[i] == '_') &&
    (forall i :: 0 <= i < |s| - 1 ==> !(s[i] == '_' && s[i + 1] == '_'))
  }

  /**
   * The text `int()` reads once the whitespace around it is stripped: an
   * optional `+` or `-` sign, then a decimal literal.
   */
  predicate SignedLiteral(t: string) {
    DecimalLiteral(t) || (|t| > 0 && (t[0] == '+' || t[0] == '-') && DecimalLiteral(t[1..]))
  }

  /** The value of a signed literal: its digits' value, negated after a minus sign. */
  function SignedValue(t: string): int
    requires SignedLiteral(t)
  {
    if t[0] == '-' then -(DigitValue(t[1..]) as int)
    else if t[0] == '+' then DigitValue(t[1..])
    else DigitValue(t)
  }

  /**
   * The `%.200R` of `int()`'s error message: the `repr` of the text, cut
   * to its first 200 characters.
   */
  function ErrorRepr(s: string): (r: string)
    ensures r <= StrRepr(s)
    ensures |r| == Min(200, |StrRepr(s)|)
  {
    var q := StrRepr(s);
    if |q| <= 200 then q else q[..200]
  }

  /**
   * Python's `int(s)` with base 10: surrounding whitespace is ignored, an
   * optional sign is accepted, and anything else raises
   * `ValueError("invalid literal for int() with base 10: %.200R")`.
   */
  function ParseInt(s: string): (r: Result<int, string>)
    ensures r.Failure? ==> r.error == "invalid literal for int() with base 10: " + ErrorRepr(s)
  {
    ParseStripped(Strip(s), s)
  }

  /** `int(s)` once the surrounding whitespace of `s` is gone, leaving `t`. */
  function ParseStripped(t: string, s: string): Result<int, string> {
    var negative := |t| > 0 && t[0] == '-';
    var body := if |t| > 0 && (t[0] == '-' || t[0] == '+') then t[1..] else t;
    var magnitude: int := DigitValue(body);
    if DecimalLiteral(body) then
      Success(if negative then -magnitude else magnitude)
    else
      Failure("invalid literal for int() with base 10: " + ErrorRepr(s))
  }

  /** What is left after stripping is read exactly when it is a signed literal, as that literal's value. */
  lemma ParseStrippedSigned(t: string, s: string)
    ensures ParseStripped(t, s).Success? <==> SignedLiteral(t)
    ensures SignedLiteral(t) ==> ParseStripped(t, s) == Success(SignedValue(t))
  {
    if |t| > 0 && (t[0] == '-' || t[0] == '+') {
      assert !DecimalLiteral(t);
    }
  }

  /** A signed literal neither starts nor ends with whitespace. */
  lemma SignedLiteralEnds(t: string)
    requires SignedLiteral(t)
    ensures |t| > 0 && !IsSpace(t[0]) && !IsSpace(t[|t| - 1])
  {
    if !DecimalLiteral(t) {
      assert t[|t| - 1] == t[1..][|t| - 2];
    }
  }

  /**
   * `int()` accepts exactly the texts made of a signed literal with only
   * whitespace around it, and reads such a text as the literal's value.
   */
  lemma ParseIntAcceptance(s: string)
    ensures ParseInt(s).Success? <==> exists a, b :: SpaceAround(s, a, b) && SignedLiteral(s[a..b])
    ensures forall a, b :: SpaceAround(s, a, b) && SignedLiteral(s[a..b]) ==>
      ParseInt(s) == Success(SignedValue(s[a..b]))
  {
    forall a, b | SpaceAround(s, a, b) && SignedLiteral(s[a..b])
      ensures ParseInt(s) == Success(SignedValue(s[a..b]))
    {
      ParseIntOfSignedLiteral(s, a, b);
    }
    if ParseInt(s).Success? {
      var a, b := ParsedSliceOf(s);
    }
  }

  /** A signed literal with only whitespace around it is read as its value. */
  lemma ParseIntOfSignedLiteral(s: string, a: int, b: int)
    requires SpaceAround(s, a, b) && SignedLiteral(s[a..b])
    ensures ParseInt(s) == Success(SignedValue(s[a..b]))
  {
    var u := s[a..b];
    SignedLiteralEnds(u);
    assert u[0] == s[a] && u[|u| - 1] == s[b - 1];
    StripOfSpaceAround(s, a, b);
    ParseStrippedSigned(u, s);
  }

  /** What `int()` accepts is a signed literal with only whitespace around it. */
  lemma ParsedSliceOf(s: string) returns (a: int, b: int)
    requires ParseInt(s).Success?
    ensures SpaceAround(s, a, b) && SignedLiteral(s[a..b])
  {
    var t := Strip(s);
    a, b :| SpaceAround(s, a, b) && t == s[a..b];
    ParseStrippedSigned(t, s);
  }

  lemma {:induction false} DigitsOfValue(n: nat)
    ensures DecimalLiteral(DigitsOf(n)) && DigitValue(DigitsOf(n)) == n
  {
    if n >= 10 {
      DigitsOfValue(n / 10);
      var d := DigitsOf(n / 10) + [DigitChar(n % 10)];
      assert d[..|d| - 1] == DigitsOf(n / 10);
    }
  }

  /** `int(str(n)) == n`: the text `str` writes is read back by `int`. */
  lemma ParseIntOfIntToString(n: int)
    ensures ParseInt(IntToString(n)) == Success(n)
  {
    var s := IntToString(n);
    var digits := DigitsOf(if n < 0 then -n else n);
    DigitsOfValue(if n < 0 then -n else n);
    StripKeepsTrimmed(s);
    if n < 0 {
      assert s[1..] == digits;
    }
    ParseIntOfTrimmed(s, digits, n < 0);
  }

  /** `int()` of a text with nothing to strip, an optional minus sign and then a decimal literal. */
  lemma ParseIntOfTrimmed(s: string, body: string, negative: bool)
    requires negative ==> |s| > 0 && s[0] == '-' && body == s[1..]
    requires !negative ==> body == s
    requires |s| > 0 && !IsSpace(s[0]) && !IsSpace(s[|s| - 1]) && DecimalLiteral(body)
    ensures var v: int := DigitValue(body); ParseInt(s) == Success(if negative then -v else v)
  {
    StripKeepsTrimmed(s);
    assert ParseInt(s) == ParseStripped(s, s);
    if !negative {
      assert IsDigit(s[0]);
    }
  }

  /** A text that neither starts nor ends with whitespace is left as it is by `strip()`. */
  lemma StripKeepsTrimmed(s: string)
    requires |s| > 0 && !IsSpace(s[0]) && !IsSpace(s[|s| - 1])
    ensures Strip(s) == s
  {
    assert StripStart(s) == s;
  }

  lemma ParseDecimal30()
    ensures ParseInt("30") == Success(30)
  {
    assert DigitsOf(3) == "3";
    assert DigitsOf(30) == "30";
    assert IntToString(30) == "30";
    ParseIntOfIntToString(30);
  }

  lemma ParseDecimal300()
    ensures ParseInt("300") == Success(300)
  {
    assert DigitsOf(300) == "300" by {
      assert DigitsOf(3) == "3";
      assert DigitsOf(30) == "30";
    }
    assert IntToString(300) == "300";
    ParseIntOfIntToString(300);
  }

  lemma ParseDecimal8000()
    ensures ParseInt("8000") == Success(8000)
  {
    assert DigitsOf(8000) == "8000" by {
      assert DigitsOf(8) == "8";
      assert DigitsOf(80) == "80";
      assert DigitsOf(800) == "800";
    }
    ParseIntOfIntToString(8000);
  }

  function HexDigit(d: int): char
    requires 0 <= d < 16
  {
    if d < 10 then DigitChar(d) else ('a' as int + d - 10) as char
  }

  /** `\xhh`, the escape Python's `repr` writes for a control character. */
  function HexEscape(c: char): string
    requires c as int < 256
  {
    ['\\', 'x', HexDigit(c as int / 16), HexDigit(c as int % 16)]
  }

  /** One character as it appears inside `repr(s)`, quoted with `quote`. */
  function ReprChar(c: char, quote: char): string {
    if c == quote || c == '\\' then ['\\', c]
    else if c == '\t' then "\\t"
    else if c == '\n' then "\\n"
    else if c == '\r' then "\\r"
    else if c as int < 0x20 || (0x7F <= c as int <= 0xA0) || c as int == 0xAD then HexEscape(c)
    else [c]
  }

  function ReprBody(s: string, quote: char): string {
    if s == [] then "" else ReprChar(s[0], quote) + ReprBody(s[1..], quote)
  }

  /** A character `repr` writes as it is between `quote`s: not the quote, not a backslash, not a control character. */
  predicate PrintsAsItself(c: char, quote: char) {
    c != quote && c != '\\' && !(c as int < 0x20 || (0x7F <= c as int <= 0xA0) || c as int == 0xAD)
  }

  /** A text made only of characters that print as themselves is copied unchanged. */
  lemma {:induction false} ReprBodyPlain(s: string, quote: char)
    ensures (forall i :: 0 <= i < |s| ==> PrintsAsItself(s[i], quote)) ==> ReprBody(s, quote) == s
  {
    if s != [] && forall i :: 0 <= i < |s| ==> PrintsAsItself(s[i], quote) {
      assert PrintsAsItself(s[0], quote);
      ReprBodyPlain(s[1..], quote);
      assert forall i :: 0 <= i < |s[1..]| ==> PrintsAsItself(s[1..][i], quote) by {
        forall i | 0 <= i < |s[1..]| ensures PrintsAsItself(s[1..][i], quote) {
          assert s[1..][i] == s[i + 1];
        }
      }
      assert s == [s[0]] + s[1..];
    }
  }

  /**
   * Python's `repr(s)`: single quotes unless `s` holds a `'` and no `"`,
   * with backslash escapes for the quote, the backslash and control
   * characters.
   */
  function StrRepr(s: string): (r: string)
    ensures |r| >= 2 && r[0] == r[|r| - 1] && (r[0] == '\'' || r[0] == '"')
    ensures r[0] == '"' <==> '\'' in s && '"' !in s
    ensures (forall i :: 0 <= i < |s| ==> PrintsAsItself(s[i], r[0])) ==> r == [r[0]] + s + [r[0]]
  {
    var quote := if '\'' in s && '"' !in s then '"' else '\'';
    ReprBodyPlain(s, quote);
    [quote] + ReprBody(s, quote) + [quote]
  }
}
