/**
 * The JavaScript string and number primitives the application relies on:
 * white space as `String.prototype.trim` and the regular-expression class `\s`
 * see it, `trim`, ASCII digits (`\d`), `String(n)` for integers,
 * `padStart(2, "0")` and `Number(text)` restricted to integer literals.
 */
module JsText {

  /**
   * ECMAScript WhiteSpace and LineTerminator code points: the set both `trim`
   * and `\s` use (TAB, VT, FF, ZWNBSP, the Unicode Zs category, LF, CR, LS, PS).
   */
  predicate IsSpace(c: char) {
    || c == ' ' || c == '\t' || c == '\n' || c == '\r'
    || c == '\U{000B}' || c == '\U{000C}' || c == '\U{00A0}' || c == '\U{1680}'
    || ('\U{2000}' <= c <= '\U{200A}')
    || c == '\U{2028}' || c == '\U{2029}' || c == '\U{202F}' || c == '\U{205F}'
    || c == '\U{3000}' || c == '\U{FEFF}'
  }

  predicate AllSpace(s: string) {
    forall i :: 0 <= i < |s| ==> IsSpace(s[i])
  }

  /** Drops the leading white space: what is left is a suffix of `s`. */
  function TrimStart(s: string): (r: string)
    ensures |r| <= |s| && r == s[|s| - |r|..]
    ensures AllSpace(s[..|s| - |r|])
    ensures r != [] ==> !IsSpace(r[0])
  {
    if |s| > 0 && IsSpace(s[0]) then
      var r := TrimStart(s[1..]);
      assert s[..|s| - |r|] == [s[0]] + s[1..][..|s| - 1 - |r|];
      r
    else
      s
  }

  /** Drops the trailing white space: what is left is a prefix of `s`. */
  function TrimEnd(s: string): (r: string)
    ensures |r| <= |s| && r == s[..|r|]
    ensures AllSpace(s[|r|..])
    ensures r != [] ==> !IsSpace(r[|r| - 1])
  {
    if |s| > 0 && IsSpace(s[|s| - 1]) then
      var r := TrimEnd(s[..|s| - 1]);
      assert s[|r|..] == s[..|s| - 1][|r|..] + [s[|s| - 1]];
      r
    else
      s
  }

  /** `String.prototype.trim`. */
  function Trim(s: string): (r: string)
    ensures |r| <= |s|
    ensures r != [] ==> !IsSpace(r[0]) && !IsSpace(r[|r| - 1])
    ensures r == [] <==> AllSpace(s)
  {
    var t := TrimStart(s);
    if t == [] then
      assert s[..|s|] == s;
      t
    else
      TrimEnd(t)
  }

  /** The trim is the part of `s` between a white-space prefix and a white-space suffix. */
  lemma TrimIsSlice(s: string)
    ensures exists i, j | 0 <= i <= j <= |s| :: Trim(s) == s[i..j] && AllSpace(s[..i]) && AllSpace(s[j..])
  {
    var t := TrimStart(s);
    var i := |s| - |t|;
    if t == [] {
      assert Trim(s) == s[i..i] && AllSpace(s[i..]);
    } else {
      var r := TrimEnd(t);
      assert Trim(s) == r == s[i..i + |r|] && s[i + |r|..] == t[|r|..];
    }
  }

  /**
   * The source's blank test `!s || s.trim() === ""`: the empty string is falsy
   * and any other string is blank exactly when trimming empties it.
   */
  predicate IsBlank(s: string) {
    s == "" || Trim(s) == ""
  }

  lemma BlankIffAllSpace(s: string)
    ensures IsBlank(s) <==> AllSpace(s)
  {
  }

  /** A string without white space at either end is its own trim. */
  lemma TrimOfTrimmed(s: string)
    requires s != [] ==> !IsSpace(s[0]) && !IsSpace(s[|s| - 1])
    ensures Trim(s) == s
  {
  }

  lemma TrimIdempotent(s: string)
    ensures Trim(Trim(s)) == Trim(s)
  {
    TrimOfTrimmed(Trim(s));
  }

  lemma {:induction false} TrimStartSkipsSpaces(a: string, x: string)
    requires AllSpace(a)
    ensures TrimStart(a + x) == TrimStart(x)
  {
    if a != [] {
      assert (a + x)[1..] == a[1..] + x;
      TrimStartSkipsSpaces(a[1..], x);
    } else {
      assert a + x == x;
    }
  }

  lemma {:induction false} TrimEndSkipsSpaces(x: string, b: string)
    requires AllSpace(b)
    ensures TrimEnd(x + b) == TrimEnd(x)
  {
    if b != [] {
      assert (x + b)[..|x + b| - 1] == x + b[..|b| - 1];
      TrimEndSkipsSpaces(x, b[..|b| - 1]);
    } else {
      assert x + b == x;
    }
  }

  lemma {:induction false} TrimStartAppend(x: string, b: string)
    requires !AllSpace(x)
    ensures TrimStart(x + b) == TrimStart(x) + b
  {
    if IsSpace(x[0]) {
      assert (x + b)[1..] == x[1..] + b;
      assert !AllSpace(x[1..]) by {
        var i :| 0 <= i < |x| && !IsSpace(x[i]);
        assert x[1..][i - 1] == x[i];
      }
      TrimStartAppend(x[1..], b);
    }
  }

  /** White space around a string never changes its trim. */
  lemma TrimIgnoresPadding(a: string, s: string, b: string)
    requires AllSpace(a) && AllSpace(b)
    ensures Trim(a + s + b) == Trim(s)
  {
    assert a + s + b == a + (s + b);
    TrimStartSkipsSpaces(a, s + b);
    if AllSpace(s) {
      assert AllSpace(s + b);
    } else {
      TrimStartAppend(s, b);
      TrimEndSkipsSpaces(TrimStart(s), b);
    }
  }

  /** `\d`: the ASCII digits only. */
  predicate IsDigit(c: char) {
    '0' <= c <= '9'
  }

  predicate AllDigits(s: string) {
    forall i :: 0 <= i < |s| ==> IsDigit(s[i])
  }

  /** The value of a string of decimal digits, most significant first. */
  function DecimalValue(s: string): nat
    requires AllDigits(s)
  {
    if s == [] then 0 else 10 * DecimalValue(s[..|s| - 1]) + (s[|s| - 1] as int - '0' as int)
  }

  /** Leading zeros do not change a decimal value. */
  lemma {:induction false} LeadingZero(s: string)
    requires AllDigits(s)
    ensures AllDigits("0" + s) && DecimalValue("0" + s) == DecimalValue(s)
  {
    if s != [] {
      assert ("0" + s)[..|"0" + s| - 1] == "0" + s[..|s| - 1];
      LeadingZero(s[..|s| - 1]);
    }
  }

  function DigitChar(d: nat): (c: char)
    requires d < 10
    ensures IsDigit(c) && c as int - '0' as int == d
  {
    ('0' as int + d) as char
  }

  /** `String(n)` for a non-negative integer: its shortest decimal form. */
  function NatToDecimal(n: nat): (r: string)
    ensures |r| >= 1 && AllDigits(r)
    ensures DecimalValue(r) == n
    ensures r[0] == '0' ==> n == 0
    ensures n < 10 <==> |r| == 1
  {
    if n < 10 then
      [DigitChar(n)]
    else
      var p := NatToDecimal(n / 10);
      var r := p + [DigitChar(n % 10)];
      assert r[..|r| - 1] == p;
      r
  }

  lemma DecimalLengths(n: nat)
    ensures 10 <= n < 100 ==> |NatToDecimal(n)| == 2
    ensures 1000 <= n < 10000 ==> |NatToDecimal(n)| == 4
  {
    if 1000 <= n < 10000 {
      assert |NatToDecimal(n / 100)| == 2 by { DecimalLengths(n / 100); }
      assert |NatToDecimal(n / 10)| == 3;
    }
  }

  /** `String(i)` for any integer. */
  function IntToDecimal(i: int): (r: string)
    ensures r != [] && !IsSpace(r[0]) && !IsSpace(r[|r| - 1])
  {
    if i < 0 then "-" + NatToDecimal(-i) else NatToDecimal(i)
  }

  /** A JavaScript number restricted to the integers; NaN is the failed conversion. */
  datatype Num = Int(value: int) | NaN

  /** Reads `s` as unsigned decimal digits: its value, or NaN when some character is not a digit. */
  function ReadDigits(s: string): Num {
    if s == [] then Int(0)
    else
      match ReadDigits(s[..|s| - 1])
      case NaN => NaN
      case Int(v) =>
        var c := s[|s| - 1];
        if IsDigit(c) then Int(10 * v + (c as int - '0' as int)) else NaN
  }

  /** The digit reader succeeds exactly on digit strings, with their decimal value. */
  lemma {:induction false} ReadDigitsMeaning(s: string)
    ensures ReadDigits(s).Int? <==> AllDigits(s)
    ensures AllDigits(s) ==> ReadDigits(s) == Int(DecimalValue(s))
  {
    if s != [] {
      var p := s[..|s| - 1];
      ReadDigitsMeaning(p);
      if AllDigits(s) {
        assert AllDigits(p) by {
          forall i | 0 <= i < |p| ensures IsDigit(p[i]) {
            assert p[i] == s[i];
          }
        }
      } else if AllDigits(p) {
        assert !IsDigit(s[|s| - 1]) by {
          forall i | 0 <= i < |s| - 1 ensures IsDigit(s[i]) {
            assert s[i] == p[i];
          }
        }
      }
    }
  }

  /** A leading sign followed by at least one more character. */
  predicate Signed(t: string) {
    |t| > 1 && (t[0] == '-' || t[0] == '+')
  }

  /** `Number` of text without white space at either end. */
  function ReadNumber(t: string): Num {
    if t == [] then Int(0)
    else if Signed(t) then
      match ReadDigits(t[1..])
      case NaN => NaN
      case Int(m) => Int(if t[0] == '-' then -m else m)
    else ReadDigits(t)
  }

  /**
   * `Number(text)`: surrounding white space is ignored, the empty string is 0,
   * an optionally signed run of decimal digits is its value, anything else NaN.
   * The white space is dropped one character at a time from either end.
   */
  function JsNumber(s: string): Num
    decreases |s|
  {
    if s != [] && IsSpace(s[0]) then JsNumber(s[1..])
    else if s != [] && IsSpace(s[|s| - 1]) then JsNumber(s[..|s| - 1])
    else ReadNumber(s)
  }

  /** Dropping the white space one character at a time reads the same text as `trim`. */
  lemma {:induction false} JsNumberTrims(s: string)
    ensures JsNumber(s) == ReadNumber(Trim(s))
    decreases |s|
  {
    if s != [] && IsSpace(s[0]) {
      JsNumberTrims(s[1..]);
      assert TrimStart(s) == TrimStart(s[1..]);
    } else if s != [] && IsSpace(s[|s| - 1]) {
      var p := s[..|s| - 1];
      JsNumberTrims(p);
      assert |s| > 1 && p[0] == s[0];
      assert TrimStart(s) == s && TrimStart(p) == p;
      assert Trim(s) == TrimEnd(s) == TrimEnd(p) == Trim(p);
    } else {
      TrimOfTrimmed(s);
    }
  }

  /** The conversion, stated over the trimmed text: which texts are numbers, and their values. */
  lemma JsNumberMeaning(s: string)
    ensures Trim(s) == "" ==> JsNumber(s) == Int(0)
    ensures Signed(Trim(s)) ==> (JsNumber(s).Int? <==> AllDigits(Trim(s)[1..]))
    ensures Signed(Trim(s)) && AllDigits(Trim(s)[1..]) ==>
      var m: int := DecimalValue(Trim(s)[1..]);
      JsNumber(s).value == if Trim(s)[0] == '-' then -m else m
    ensures Trim(s) != "" && !Signed(Trim(s)) ==> (JsNumber(s).Int? <==> AllDigits(Trim(s)))
    ensures Trim(s) != "" && !Signed(Trim(s)) && AllDigits(Trim(s)) ==> JsNumber(s).value == DecimalValue(Trim(s))
  {
    JsNumberTrims(s);
    var t := Trim(s);
    if Signed(t) {
      ReadDigitsMeaning(t[1..]);
    } else if t != "" {
      ReadDigitsMeaning(t);
    }
  }

  /** Blank text converts to 0. */
  lemma JsNumberOfBlank(s: string)
    requires IsBlank(s)
    ensures JsNumber(s) == Int(0)
  {
    JsNumberTrims(s);
  }

  /** `Number(String(i)) === i`: the integer's text converts back to it. */
  lemma JsNumberOfDecimal(i: int)
    ensures JsNumber(IntToDecimal(i)) == Int(i)
  {
    var r := IntToDecimal(i);
    if i < 0 {
      assert r[1..] == NatToDecimal(-i);
      ReadDigitsMeaning(r[1..]);
    } else {
      ReadDigitsMeaning(r);
    }
  }

  /** `s.padStart(2, "0")`. */
  function PadStart2(s: string): (r: string)
    ensures |s| >= 2 ==> r == s
    ensures |s| <= 2 ==> |r| == 2
    ensures |s| <= 2 ==> r[2 - |s|..] == s && forall i :: 0 <= i < 2 - |s| ==> r[i] == '0'
  {
    if |s| >= 2 then s else if |s| == 1 then "0" + s else "00"
  }

  /** Padding a number's text with zeros to two places keeps its value. */
  lemma PadStart2Value(n: nat)
    requires n < 100
    ensures |PadStart2(NatToDecimal(n))| == 2 && AllDigits(PadStart2(NatToDecimal(n)))
    ensures DecimalValue(PadStart2(NatToDecimal(n))) == n
  {
    DecimalLengths(n);
    if n < 10 {
      LeadingZero(NatToDecimal(n));
    }
  }
}
