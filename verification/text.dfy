/** String helpers standing in for Python's `str(int)`, `format(x, ".3f")`, `str.strip`,
    `str.lower` and substring tests. Strings are sequences of Unicode scalar values, as
    Python's `str` is a sequence of code points. */
module Text {
  import opened Wrappers
  import opened Numbers

  // ---------------------------------------------------------------------------
  // Decimal integers

  predicate IsDigit(c: char) { '0' <= c <= '9' }

  predicate AllDigits(s: string) { forall i :: 0 <= i < |s| ==> IsDigit(s[i]) }

  function DigitChar(d: nat): (c: char)
    requires d < 10
    ensures IsDigit(c)
  {
    ['0', '1', '2', '3', '4', '5', '6', '7', '8', '9'][d]
  }

  function DigitValue(c: char): (d: nat)
    requires IsDigit(c)
    ensures d < 10 && DigitChar(d) == c
  {
    (c as int - '0' as int) as nat
  }

  /** `str(n)` for a natural number: decimal digits without leading zeros. */
  function NatToDecimal(n: nat): (s: string)
    ensures |s| >= 1 && AllDigits(s)
    ensures s[0] == '0' ==> n == 0
  {
    if n < 10 then [DigitChar(n)]
    else NatToDecimal(n / 10) + [DigitChar(n % 10)]
  }

  /** `str(i)` for any Python int: a minus sign in front of negative values. */
  function IntToDecimal(i: int): string
  {
    if i < 0 then "-" + NatToDecimal(-i) else NatToDecimal(i)
  }

  /** The number a string of decimal digits denotes. */
  function DecimalValue(s: string): nat
    requires AllDigits(s)
  {
    if |s| == 0 then 0
    else 10 * DecimalValue(s[..|s| - 1]) + DigitValue(s[|s| - 1])
  }

  /** Reading the printed digits back gives the number. */
  lemma {:induction false} DecimalRoundTrip(n: nat)
    ensures DecimalValue(NatToDecimal(n)) == n
  {
    if n >= 10 {
      var s := NatToDecimal(n);
      assert s[..|s| - 1] == NatToDecimal(n / 10);
      DecimalRoundTrip(n / 10);
    }
  }

  /** Printing is injective: different numbers never print alike. */
  lemma NatToDecimalInjective(m: nat, n: nat)
    requires NatToDecimal(m) == NatToDecimal(n)
    ensures m == n
  {
    DecimalRoundTrip(m);
    DecimalRoundTrip(n);
  }

  // ---------------------------------------------------------------------------
  // Fixed-point formatting with three decimals

  /** The number of digits `str(n)` has, for numbers below a thousand. */
  lemma DecimalLength(n: nat)
    ensures n < 10 ==> |NatToDecimal(n)| == 1
    ensures 10 <= n < 100 ==> |NatToDecimal(n)| == 2
    ensures 100 <= n < 1000 ==> |NatToDecimal(n)| == 3
  {
    if n >= 10 {
      DecimalLength(n / 10);
    }
  }

  /** A leading zero does not change the value of a digit string. */
  lemma {:induction false} LeadingZero(d: string)
    requires AllDigits(d)
    ensures AllDigits("0" + d) && DecimalValue("0" + d) == DecimalValue(d)
  {
    var z := "0" + d;
    if |d| > 0 {
      assert z[..|z| - 1] == "0" + d[..|d| - 1];
      LeadingZero(d[..|d| - 1]);
    } else {
      assert z[..0] == "";
    }
  }

  /** `format(k, "03d")`: three digits, zero-padded on the left. */
  function Pad3(k: nat): (s: string)
    requires k < 1000
    ensures |s| == 3 && AllDigits(s)
  {
    DecimalLength(k);
    if k < 10 then "00" + NatToDecimal(k)
    else if k < 100 then "0" + NatToDecimal(k)
    else NatToDecimal(k)
  }

  lemma Pad3Value(k: nat)
    requires k < 1000
    ensures DecimalValue(Pad3(k)) == k
  {
    var d := NatToDecimal(k);
    DecimalRoundTrip(k);
    if k < 10 {
      LeadingZero(d);
      LeadingZero("0" + d);
      assert "00" + d == "0" + ("0" + d);
    } else if k < 100 {
      LeadingZero(d);
    }
  }

  /** The value `format(x, ".3f")` prints, in thousandths. */
  function Thousandths(x: real): int
  {
    RoundHalfEven(x * 1000.0)
  }

  /** `format(x, ".3f")`: round to thousandths (half to even), then print the integral
      part, a point and three digits; a negative number keeps its sign even when it
      rounds to zero, as Python prints `-0.000`. */
  function Fmt3(x: real): (s: string)
    ensures |s| >= 5
  {
    FormatThousandths(Thousandths(x), x < 0.0)
  }

  /** Prints `n` thousandths with three decimals, with a minus sign when `negative`. */
  function FormatThousandths(n: int, negative: bool): string
  {
    var a: nat := if n < 0 then -n else n;
    (if negative then "-" else "") + UnsignedFixed3(a)
  }

  /** Prints `a` thousandths as `digits.ddd`. */
  function UnsignedFixed3(a: nat): string
  {
    NatToDecimal(a / 1000) + "." + Pad3(a % 1000)
  }

  lemma FormatThousandthsRoundTrip(n: int, negative: bool)
    requires negative ==> n <= 0
    requires !negative ==> n >= 0
    ensures ParseFixed3(FormatThousandths(n, negative)) == Some(n)
  {
    var a: nat := if n < 0 then -n else n;
    ParseUnsignedFormatted(a);
    SignedParse(UnsignedFixed3(a), a, negative);
  }

  lemma SignedParse(body: string, a: nat, negative: bool)
    requires ParseUnsignedFixed3(body) == Some(a)
    ensures ParseFixed3((if negative then "-" else "") + body) == Some(if negative then -(a as int) else a as int)
  {
    if negative {
      assert ("-" + body)[1..] == body;
    } else {
      assert "" + body == body;
      assert AllDigits(body[..|body| - 4]);
      assert body[0] == body[..|body| - 4][0];
    }
  }

  /** Reads `[-]digits.ddd` as a number of thousandths. */
  function ParseFixed3(s: string): Option<int>
  {
    if |s| > 0 && s[0] == '-' then
      match ParseUnsignedFixed3(s[1..])
      case Some(v) => Some(-(v as int))
      case None => None
    else
      match ParseUnsignedFixed3(s)
      case Some(v) => Some(v as int)
      case None => None
  }

  /** Reads `digits.ddd` as a number of thousandths. */
  function ParseUnsignedFixed3(body: string): Option<nat>
  {
    if |body| < 5 || body[|body| - 4] != '.' then None
    else
      var whole := body[..|body| - 4];
      var frac := body[|body| - 3..];
      if !AllDigits(whole) || !AllDigits(frac) then None
      else Some(DecimalValue(whole) * 1000 + DecimalValue(frac))
  }

  lemma ParseUnsignedOfParts(whole: string, frac: string)
    requires |whole| >= 1 && AllDigits(whole) && |frac| == 3 && AllDigits(frac)
    ensures ParseUnsignedFixed3(whole + "." + frac) == Some(DecimalValue(whole) * 1000 + DecimalValue(frac))
  {
    var body := whole + "." + frac;
    assert body[..|body| - 4] == whole;
    assert body[|body| - 3..] == frac;
    assert body[|body| - 4] == '.';
    ParseUnsignedOfShape(body, whole, frac);
  }

  /** A body of the form `digits.ddd` reads as its two digit runs. */
  lemma ParseUnsignedOfShape(body: string, whole: string, frac: string)
    requires |body| >= 5 && body[|body| - 4] == '.'
    requires body[..|body| - 4] == whole && body[|body| - 3..] == frac
    requires AllDigits(whole) && AllDigits(frac)
    ensures ParseUnsignedFixed3(body) == Some(DecimalValue(whole) * 1000 + DecimalValue(frac))
  {
  }

  lemma ParseUnsignedFormatted(a: nat)
    ensures ParseUnsignedFixed3(UnsignedFixed3(a)) == Some(a)
  {
    ParseUnsignedOfParts(NatToDecimal(a / 1000), Pad3(a % 1000));
    DecimalRoundTrip(a / 1000);
    Pad3Value(a % 1000);
  }

  /** The sign printed agrees with the sign of the rounded value. */
  lemma ThousandthsSign(x: real)
    ensures x < 0.0 ==> Thousandths(x) <= 0
    ensures x >= 0.0 ==> Thousandths(x) >= 0
  {
    RoundOfInteger(0);
    if x < 0.0 {
      RoundMonotone(x * 1000.0, 0.0);
    } else {
      RoundMonotone(0.0, x * 1000.0);
    }
  }

  /** Reading a formatted number back yields exactly the thousandths it was rounded to. */
  lemma Fmt3RoundTrip(x: real)
    ensures ParseFixed3(Fmt3(x)) == Some(Thousandths(x))
  {
    ThousandthsSign(x);
    FormatThousandthsRoundTrip(Thousandths(x), x < 0.0);
  }

  /** The printed value is within half a thousandth of the number. */
  lemma Fmt3Accuracy(x: real)
    ensures ParseFixed3(Fmt3(x)).Some?
    ensures -0.0005 <= ParseFixed3(Fmt3(x)).value as real / 1000.0 - x <= 0.0005
  {
    Fmt3RoundTrip(x);
  }

  /** Numbers with at most three decimals print exactly. */
  lemma Fmt3Exact(k: int)
    ensures ParseFixed3(Fmt3(k as real / 1000.0)) == Some(k)
  {
    Fmt3RoundTrip(k as real / 1000.0);
    assert (k as real / 1000.0) * 1000.0 == k as real;
    RoundOfInteger(k);
  }

  /** `format(0.0, ".3f")` is `0.000`. */
  lemma Fmt3Zero()
    ensures Fmt3(0.0) == "0.000"
  {
    RoundOfInteger(0);
    assert Thousandths(0.0) == 0;
    assert NatToDecimal(0) == "0";
    assert Pad3(0) == "000";
  }

  /** `format(5.0, ".3f")` is `5.000`. */
  lemma Fmt3Five()
    ensures Fmt3(5.0) == "5.000"
  {
    RoundOfInteger(5000);
    assert Thousandths(5.0) == 5000;
    assert NatToDecimal(5) == "5";
    assert Pad3(0) == "000";
  }

  /** `format(90.0, ".3f")` is `90.000`. */
  lemma Fmt3Ninety()
    ensures Fmt3(90.0) == "90.000"
  {
    RoundOfInteger(90000);
    assert Thousandths(90.0) == 90000;
    assert NatToDecimal(9) == "9";
    assert NatToDecimal(90) == "90";
    assert Pad3(0) == "000";
  }

  // ---------------------------------------------------------------------------
  // Lines and substrings

  /** Every line followed by a newline: the shape of a triple-quoted template that ends
      with a line break. */
  function Unlines(lines: seq<string>): string
  {
    if |lines| == 0 then "" else lines[0] + "\n" + Unlines(lines[1..])
  }

  /** `t in s` for Python strings: `t` occurs in `s` as a contiguous substring. */
  predicate IsInfix(t: string, s: string)
  {
    exists k :: 0 <= k <= |s| && OccursAt(t, s, k)
  }

  /** `t` occurs in `s` starting at index `k`. */
  predicate OccursAt(t: string, s: string, k: int)
  {
    0 <= k <= |s| - |t| && s[k..k + |t|] == t
  }

  lemma InfixOfConcat(a: string, t: string, b: string)
    ensures IsInfix(t, a + t + b)
  {
    var s := a + t + b;
    assert OccursAt(t, s, |a|);
  }

  lemma InfixTransitive(t: string, u: string, s: string)
    requires IsInfix(t, u) && IsInfix(u, s)
    ensures IsInfix(t, s)
  {
    var k :| 0 <= k <= |u| && OccursAt(t, u, k);
    var j :| 0 <= j <= |s| && OccursAt(u, s, j);
    var w := s[j..j + |u|];
    forall i | 0 <= i < |t|
      ensures s[j + k + i] == t[i]
    {
      assert w[k + i] == s[j + k + i];
      assert u[k..k + |t|][i] == u[k + i];
    }
    assert OccursAt(t, s, j + k);
  }

  /** Every line of a joined text, with its newline, occurs in the text. */
  lemma {:induction false} LineInUnlines(lines: seq<string>, i: nat)
    requires i < |lines|
    ensures IsInfix(lines[i] + "\n", Unlines(lines))
  {
    var rest := Unlines(lines[1..]);
    if i == 0 {
      InfixOfConcat("", lines[0] + "\n", rest);
      assert "" + (lines[0] + "\n") + rest == Unlines(lines);
    } else {
      LineInUnlines(lines[1..], i - 1);
      InfixOfConcat(lines[0] + "\n", rest, "");
      assert lines[0] + "\n" + rest + "" == Unlines(lines);
      InfixTransitive(lines[i] + "\n", rest, Unlines(lines));
    }
  }

  /** Every line after the first occurs in the joined text between two newlines: as a
      whole line, not just as the end of one. */
  lemma {:induction false} LineBetweenNewlines(lines: seq<string>, i: nat)
    requires 1 <= i < |lines|
    ensures IsInfix("\n" + lines[i] + "\n", Unlines(lines))
  {
    var rest := Unlines(lines[1..]);
    assert Unlines(lines) == lines[0] + "\n" + rest;
    if i == 1 {
      var after := Unlines(lines[2..]);
      assert lines[1..][1..] == lines[2..];
      assert rest == lines[1] + "\n" + after;
      InfixOfConcat(lines[0], "\n" + lines[1] + "\n", after);
      assert lines[0] + ("\n" + lines[1] + "\n") + after == Unlines(lines);
    } else {
      LineBetweenNewlines(lines[1..], i - 1);
      InfixOfConcat(lines[0] + "\n", rest, "");
      assert lines[0] + "\n" + rest + "" == Unlines(lines);
      InfixTransitive("\n" + lines[i] + "\n", rest, Unlines(lines));
    }
  }

  /** A line among the joined lines after the first is a whole line of the text. */
  lemma MemberBetweenNewlines(x: string, lines: seq<string>)
    requires |lines| >= 1 && x in lines[1..]
    ensures IsInfix("\n" + x + "\n", Unlines(lines))
  {
    var i :| 0 <= i < |lines| - 1 && lines[1..][i] == x;
    LineBetweenNewlines(lines, i + 1);
  }

  /** A line that is among the joined lines occurs, with its newline, in the text. */
  lemma MemberInUnlines(x: string, lines: seq<string>)
    requires x in lines
    ensures IsInfix(x + "\n", Unlines(lines))
  {
    var i :| 0 <= i < |lines| && lines[i] == x;
    LineInUnlines(lines, i);
  }

  /** A piece of a line that occurs in a text occurs in the text. */
  lemma InfixOfLine(t: string, line: string, s: string)
    requires IsInfix(t, line) && IsInfix(line + "\n", s)
    ensures IsInfix(t, s)
  {
    InfixOfConcat("", line, "\n");
    assert "" + line + "\n" == line + "\n";
    InfixTransitive(t, line, line + "\n");
    InfixTransitive(t, line + "\n", s);
  }

  /** A line occurring with its newline occurs without it. */
  lemma WithoutNewline(t: string, s: string)
    requires IsInfix(t + "\n", s)
    ensures IsInfix(t, s)
  {
    InfixOfConcat("", t, "\n");
    assert "" + t + "\n" == t + "\n";
    InfixTransitive(t, t + "\n", s);
  }

  /** Joining distributes over concatenation of line lists. */
  lemma {:induction false} UnlinesAppend(a: seq<string>, b: seq<string>)
    ensures Unlines(a + b) == Unlines(a) + Unlines(b)
  {
    if |a| > 0 {
      assert (a + b)[1..] == a[1..] + b;
      UnlinesAppend(a[1..], b);
    } else {
      assert a + b == b;
    }
  }

  // ---------------------------------------------------------------------------
  // Case and whitespace

  /** ASCII lower-casing of one character. */
  function LowerChar(c: char): (d: char)
    ensures !('A' <= d <= 'Z')
  {
    if 'A' <= c <= 'Z' then (c as int - 'A' as int + 'a' as int) as char else c
  }

  /** `str.lower` restricted to ASCII letters; every other character is kept. */
  function Lower(s: string): (r: string)
    ensures |r| == |s|
    ensures forall i :: 0 <= i < |s| ==> r[i] == LowerChar(s[i])
  {
    if |s| == 0 then "" else [LowerChar(s[0])] + Lower(s[1..])
  }

  /** The characters Python's `str.isspace` accepts. */
  predicate IsSpace(c: char)
  {
    c == ' ' || '\t' <= c <= '\r' || '\U{1C}' <= c <= '\U{1F}' || c == '\U{85}'
    || c == '\U{A0}' || c == '\U{1680}' || '\U{2000}' <= c <= '\U{200A}'
    || c == '\U{2028}' || c == '\U{2029}' || c == '\U{202F}' || c == '\U{205F}'
    || c == '\U{3000}'
  }

  /** First index at or after `i` that is not whitespace. */
  function SkipSpace(s: string, i: nat): (k: nat)
    requires i <= |s|
    ensures i <= k <= |s|
    ensures forall m :: i <= m < k ==> IsSpace(s[m])
    ensures k == |s| || !IsSpace(s[k])
    decreases |s| - i
  {
    if i == |s| || !IsSpace(s[i]) then i else SkipSpace(s, i + 1)
  }

  /** Last end position at or before `j` (and not below `lo`) not preceded by whitespace. */
  function SkipSpaceBack(s: string, lo: nat, j: nat): (k: nat)
    requires lo <= j <= |s|
    ensures lo <= k <= j
    ensures forall m :: k <= m < j ==> IsSpace(s[m])
    ensures k == lo || !IsSpace(s[k - 1])
    decreases j - lo
  {
    if j == lo || !IsSpace(s[j - 1]) then j else SkipSpaceBack(s, lo, j - 1)
  }

  /** `r` is `s` with all of the whitespace before index `i` and after `r` removed. */
  predicate StrippedAt(s: string, r: string, i: int)
  {
    && OccursAt(r, s, i)
    && (forall m :: 0 <= m < i ==> IsSpace(s[m]))
    && (forall m :: i + |r| <= m < |s| ==> IsSpace(s[m]))
  }

  /** `str.strip()`: the text without leading or trailing whitespace. */
  function Strip(s: string): (r: string)
    ensures |r| == 0 || (!IsSpace(r[0]) && !IsSpace(r[|r| - 1]))
    ensures exists i :: StrippedAt(s, r, i)
  {
    var i := SkipSpace(s, 0);
    var j := SkipSpaceBack(s, i, |s|);
    assert StrippedAt(s, s[i..j], i);
    s[i..j]
  }
}
