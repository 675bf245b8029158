/** The phone check `validatePhone`: keep the digits, then require exactly ten. */
module PhoneRule {
  import opened JsText

  /** `phone.replace(/\D/g, "")`: the digits of `s`, in their order. */
  function Digits(s: string): (r: string)
    ensures AllDigits(r) && |r| <= |s|
  {
    if s == [] then []
    else
      var last := s[|s| - 1];
      Digits(s[..|s| - 1]) + (if IsDigit(last) then [last] else [])
  }

  /** The positions of `s` that hold an ASCII digit. */
  ghost function DigitPositions(s: string): set<nat> {
    set i: nat | i < |s| && IsDigit(s[i])
  }

  /** Text without a single ASCII digit. */
  predicate NoDigits(s: string) {
    forall i :: 0 <= i < |s| ==> !IsDigit(s[i])
  }

  /** `/^\d{10}$/`: exactly ten digits and nothing else. */
  predicate TenDigits(c: string) {
    |c| == 10 && AllDigits(c)
  }

  /** `validatePhone(phone)`. */
  function ValidatePhone(phone: string): bool {
    if IsBlank(phone) then false else TenDigits(Digits(phone))
  }

  /** The filter keeps one character per digit position of the input. */
  lemma {:induction false} DigitsCount(s: string)
    ensures |Digits(s)| == |DigitPositions(s)|
  {
    if s != [] {
      var init := s[..|s| - 1];
      DigitsCount(init);
      if IsDigit(s[|s| - 1]) {
        assert DigitPositions(s) == DigitPositions(init) + {|s| - 1};
      } else {
        assert DigitPositions(s) == DigitPositions(init);
      }
    }
  }

  /** The filter works character by character: it distributes over concatenation. */
  lemma {:induction false} DigitsAppend(a: string, b: string)
    ensures Digits(a + b) == Digits(a) + Digits(b)
  {
    if b == [] {
      assert a + b == a;
    } else {
      assert (a + b)[..|a + b| - 1] == a + b[..|b| - 1];
      DigitsAppend(a, b[..|b| - 1]);
    }
  }

  /** A digit is never white space, so blank text has no digits. */
  lemma {:induction false} BlankHasNoDigits(s: string)
    requires AllSpace(s)
    ensures Digits(s) == []
  {
    if s != [] {
      BlankHasNoDigits(s[..|s| - 1]);
    }
  }

  /** The verdict is "exactly ten ASCII digits occur in the text"; the blank guard changes nothing. */
  lemma ValidatePhoneCountsDigits(phone: string)
    ensures ValidatePhone(phone) <==> |DigitPositions(phone)| == 10
    ensures ValidatePhone(phone) <==> |Digits(phone)| == 10
  {
    DigitsCount(phone);
    if IsBlank(phone) {
      BlankIffAllSpace(phone);
      BlankHasNoDigits(phone);
    }
  }

  /** Separators are ignored: two texts with the same digits get the same verdict. */
  lemma ValidatePhoneOnlyDigitsMatter(a: string, b: string)
    requires Digits(a) == Digits(b)
    ensures ValidatePhone(a) == ValidatePhone(b)
  {
    ValidatePhoneCountsDigits(a);
    ValidatePhoneCountsDigits(b);
  }

  lemma {:induction false} DigitsOfDigits(s: string)
    requires AllDigits(s)
    ensures Digits(s) == s
  {
    if s != [] {
      DigitsOfDigits(s[..|s| - 1]);
      assert s[..|s| - 1] + [s[|s| - 1]] == s;
    }
  }

  lemma {:induction false} DigitsOfSeparators(s: string)
    requires NoDigits(s)
    ensures Digits(s) == []
  {
    if s != [] {
      DigitsOfSeparators(s[..|s| - 1]);
    }
  }

  /** A leading group of digits is kept as it is. */
  lemma KeepsLeadingDigits(g: string, rest: string)
    requires AllDigits(g)
    ensures Digits(g + rest) == g + Digits(rest)
  {
    DigitsOfDigits(g);
    DigitsAppend(g, rest);
  }

  /** A leading separator is dropped. */
  lemma DropsLeadingSeparators(sep: string, rest: string)
    requires NoDigits(sep)
    ensures Digits(sep + rest) == Digits(rest)
  {
    DigitsOfSeparators(sep);
    DigitsAppend(sep, rest);
  }

  /** Ten digits in three groups, with separators before and between the groups, are accepted. */
  lemma AcceptsSeparatedGroups(s0: string, g1: string, s1: string, g2: string, s2: string, g3: string)
    requires AllDigits(g1) && AllDigits(g2) && AllDigits(g3) && |g1| + |g2| + |g3| == 10
    requires NoDigits(s0) && NoDigits(s1) && NoDigits(s2)
    ensures ValidatePhone(s0 + (g1 + (s1 + (g2 + (s2 + g3)))))
  {
    var t3 := s2 + g3;
    DropsLeadingSeparators(s2, g3);
    DigitsOfDigits(g3);
    var t2 := g2 + t3;
    KeepsLeadingDigits(g2, t3);
    var t1 := s1 + t2;
    DropsLeadingSeparators(s1, t2);
    var t0 := g1 + t1;
    KeepsLeadingDigits(g1, t1);
    var t := s0 + t0;
    DropsLeadingSeparators(s0, t0);
    assert |Digits(t)| == 10;
    ValidatePhoneCountsDigits(t);
  }

  /** `098-712-3456` taken apart into its digit groups and separators. */
  lemma DashedNumberParts()
    ensures "" + ("098" + ("-" + ("712" + ("-" + "3456")))) == "098-712-3456"
  {
    assert "-" + "3456" == "-3456";
    assert "712" + "-3456" == "712-3456";
    assert "-" + "712-3456" == "-712-3456";
    assert "098" + "-712-3456" == "098-712-3456";
  }

  /** `098-712-3456` is accepted. */
  lemma AcceptsDashedNumber()
    ensures ValidatePhone("098-712-3456")
  {
    AcceptsSeparatedGroups("", "098", "-", "712", "-", "3456");
    DashedNumberParts();
  }

  /** `(098) 712 3456` taken apart into its digit groups and separators. */
  lemma BracketedNumberParts()
    ensures "(" + ("098" + (") " + ("712" + (" " + "3456")))) == "(098) 712 3456"
  {
    assert " " + "3456" == " 3456";
    assert "712" + " 3456" == "712 3456";
    assert ") " + "712 3456" == ") 712 3456";
    assert "098" + ") 712 3456" == "098) 712 3456";
  }

  /** `(098) 712 3456` is accepted. */
  lemma AcceptsBracketedNumber()
    ensures ValidatePhone("(098) 712 3456")
  {
    AcceptsSeparatedGroups("(", "098", ") ", "712", " ", "3456");
    BracketedNumberParts();
  }

  /** Five digits are too few: `12345` is rejected. */
  lemma RejectsFiveDigits()
    ensures !ValidatePhone("12345")
  {
    DigitsOfDigits("12345");
    ValidatePhoneCountsDigits("12345");
  }

  /** The empty string is rejected. */
  lemma RejectsEmpty()
    ensures !ValidatePhone("")
  {
  }

  /** Letters alone are rejected: `abc`. */
  lemma RejectsLetters()
    ensures !ValidatePhone("abc")
  {
    DigitsOfSeparators("abc");
    ValidatePhoneCountsDigits("abc");
  }

  /** Eleven or more digits are rejected whatever surrounds them. */
  lemma RejectsMoreThanTenDigits(phone: string)
    requires |DigitPositions(phone)| > 10
    ensures !ValidatePhone(phone)
  {
    ValidatePhoneCountsDigits(phone);
  }

  /** A non-blank text without digits is rejected. */
  lemma RejectsNoDigits(phone: string)
    requires NoDigits(phone)
    ensures !ValidatePhone(phone)
  {
    ValidatePhoneCountsDigits(phone);
    assert DigitPositions(phone) == {};
  }
}
