/** The e-mail shape check `validateEmail`: a trim and one regular expression. */
module EmailRule {
  import opened JsText

  /** A run of characters the class `[^\s@]` accepts: no white space, no `@`. */
  predicate Plain(s: string) {
    forall i :: 0 <= i < |s| ==> !IsSpace(s[i]) && s[i] != '@'
  }

  /**
   * The pattern `^[^\s@]+@[^\s@]+\.[^\s@]+$` read literally: three non-empty
   * plain runs, the first two joined by `@`, the last two by `.`.
   */
  ghost predicate MatchesEmailPattern(s: string) {
    exists at, dot | 0 < at && at + 1 < dot && dot + 1 < |s| ::
      && s[at] == '@' && s[dot] == '.'
      && Plain(s[..at]) && Plain(s[at + 1..dot]) && Plain(s[dot + 1..])
  }

  /** The index of the first `@` in `s`, or `|s|` when there is none. */
  function FirstAt(s: string): (k: nat)
    ensures k <= |s|
    ensures k < |s| ==> s[k] == '@'
    ensures forall i :: 0 <= i < k ==> s[i] != '@'
  {
    if s == [] || s[0] == '@' then 0 else 1 + FirstAt(s[1..])
  }

  /**
   * What the pattern tests, as a scan: a plain non-empty part before the first
   * `@`, a plain part after it, and a `.` after the `@` that is neither the
   * first nor the last character of that part.
   */
  predicate EmailShape(t: string) {
    var at := FirstAt(t);
    && 0 < at < |t|
    && Plain(t[..at]) && Plain(t[at + 1..])
    && exists dot | at + 1 < dot < |t| - 1 :: t[dot] == '.'
  }

  /** `validateEmail(email)`. */
  function ValidateEmail(email: string): bool {
    if IsBlank(email) then false else EmailShape(Trim(email))
  }

  lemma PlainSlice(s: string, i: nat, j: nat)
    requires Plain(s) && i <= j <= |s|
    ensures Plain(s[i..j])
  {
    forall k | 0 <= k < j - i
      ensures !IsSpace(s[i..j][k]) && s[i..j][k] != '@'
    {
      assert s[i..j][k] == s[i + k];
    }
  }

  lemma {:induction false} ShapeToPattern(t: string)
    requires EmailShape(t)
    ensures MatchesEmailPattern(t)
  {
    var at := FirstAt(t);
    var dot :| at + 1 < dot < |t| - 1 && t[dot] == '.';
    var domain := t[at + 1..];
    PlainSlice(domain, 0, dot - at - 1);
    PlainSlice(domain, dot - at, |domain|);
    assert domain[0..dot - at - 1] == t[at + 1..dot];
    assert domain[dot - at..|domain|] == t[dot + 1..];
  }

  /** A plain prefix followed by `@` places the first `@`. */
  lemma FirstAtAfterPlain(t: string, at: nat)
    requires at < |t| && t[at] == '@' && Plain(t[..at])
    ensures FirstAt(t) == at
  {
  }

  /** A domain made of two plain runs joined by `.` is plain. */
  lemma PlainDomain(t: string, at: nat, dot: nat)
    requires at + 1 < dot < |t| && t[dot] == '.'
    requires Plain(t[at + 1..dot]) && Plain(t[dot + 1..])
    ensures Plain(t[at + 1..])
  {
    var domain := t[at + 1..];
    forall i | 0 <= i < |domain|
      ensures !IsSpace(domain[i]) && domain[i] != '@'
    {
      var j := at + 1 + i;
      assert domain[i] == t[j];
      if j < dot {
        assert t[at + 1..dot][j - at - 1] == t[j];
      } else if j > dot {
        assert t[dot + 1..][j - dot - 1] == t[j];
      }
    }
  }

  lemma PatternToShape(t: string)
    requires MatchesEmailPattern(t)
    ensures EmailShape(t)
  {
    var at, dot :|
      && 0 < at && at + 1 < dot && dot + 1 < |t|
      && t[at] == '@' && t[dot] == '.'
      && Plain(t[..at]) && Plain(t[at + 1..dot]) && Plain(t[dot + 1..]);
    FirstAtAfterPlain(t, at);
    PlainDomain(t, at, dot);
    assert at + 1 < dot < |t| - 1 && t[dot] == '.';
  }

  /** The scan and the literal reading of the pattern accept the same strings. */
  lemma EmailShapeIsPattern(t: string)
    ensures EmailShape(t) <==> MatchesEmailPattern(t)
  {
    if EmailShape(t) {
      ShapeToPattern(t);
    }
    if MatchesEmailPattern(t) {
      PatternToShape(t);
    }
  }

  /** `validateEmail` rejects blank input and otherwise tests the pattern on the trimmed text. */
  lemma ValidateEmailMeaning(email: string)
    ensures ValidateEmail(email) <==> !IsBlank(email) && MatchesEmailPattern(Trim(email))
  {
    EmailShapeIsPattern(Trim(email));
  }

  /** Around an `@` with plain text on both sides, no character is white space and only that one is an `@`. */
  lemma PlainAroundAt(t: string, at: nat, i: nat)
    requires at < |t| && t[at] == '@' && i < |t|
    requires Plain(t[..at]) && Plain(t[at + 1..])
    ensures !IsSpace(t[i]) && (t[i] == '@' <==> i == at)
  {
    if i < at {
      assert t[..at][i] == t[i];
    } else if i > at {
      assert t[at + 1..][i - at - 1] == t[i];
    }
  }

  /** An accepted address, trimmed, has no white space and exactly one `@`, which is not its first character. */
  lemma AcceptedEmailHasOneAt(email: string)
    requires ValidateEmail(email)
    ensures var t := Trim(email);
      && (forall i :: 0 <= i < |t| ==> !IsSpace(t[i]))
      && (set i | 0 <= i < |t| && t[i] == '@') == {FirstAt(t)}
      && 0 < FirstAt(t)
  {
    ShapeHasOneAt(Trim(email));
  }

  /** The same facts for any text of the accepted shape. */
  lemma ShapeHasOneAt(t: string)
    requires EmailShape(t)
    ensures forall i :: 0 <= i < |t| ==> !IsSpace(t[i])
    ensures (set i | 0 <= i < |t| && t[i] == '@') == {FirstAt(t)}
    ensures 0 < FirstAt(t)
  {
    var at := FirstAt(t);
    assert 0 < at < |t| && Plain(t[..at]) && Plain(t[at + 1..]);
    forall i | 0 <= i < |t|
      ensures !IsSpace(t[i]) && (t[i] == '@' <==> i == at)
    {
      PlainAroundAt(t, at, i);
    }
  }

  /** The verdict depends only on the trimmed text. */
  lemma ValidateEmailIgnoresPadding(a: string, email: string, b: string)
    requires AllSpace(a) && AllSpace(b)
    ensures ValidateEmail(a + email + b) == ValidateEmail(email)
    ensures ValidateEmail(Trim(email)) == ValidateEmail(email)
  {
    TrimIgnoresPadding(a, email, b);
    TrimIdempotent(email);
  }

  /** A plain local part, `@`, a plain host label, `.` and a plain remainder make an accepted address. */
  lemma AcceptsPlainParts(user: string, host: string, tail: string)
    requires user != [] && host != [] && tail != []
    requires Plain(user) && Plain(host) && Plain(tail)
    ensures ValidateEmail(user + ("@" + (host + ("." + tail))))
  {
    var t := user + ("@" + (host + ("." + tail)));
    var at, dot := |user|, |user| + 1 + |host|;
    assert t[..at] == user;
    assert t[at + 1..dot] == host;
    assert t[dot + 1..] == tail;
    assert t[at] == '@' && t[dot] == '.';
    assert MatchesEmailPattern(t);
    assert t[0] == user[0] && t[|t| - 1] == tail[|tail| - 1];
    TrimOfTrimmed(t);
    ValidateEmailMeaning(t);
  }

  lemma SimpleAddressParts()
    ensures "a" + ("@" + ("b" + ("." + "c"))) == "a@b.c"
  {
    assert "." + "c" == ".c";
    assert "b" + ".c" == "b.c";
    assert "@" + "b.c" == "@b.c";
    assert "a" + "@b.c" == "a@b.c";
  }

  lemma SeveralDotsParts()
    ensures "a" + ("@" + ("b" + ("." + "c.d"))) == "a@b.c.d"
  {
    assert "." + "c.d" == ".c.d";
    assert "b" + ".c.d" == "b.c.d";
    assert "@" + "b.c.d" == "@b.c.d";
    assert "a" + "@b.c.d" == "a@b.c.d";
  }

  lemma SimpleAddressPlain()
    ensures Plain("a") && Plain("b") && Plain("c")
  {
  }

  lemma SeveralDotsPlain()
    ensures Plain("a") && Plain("b") && Plain("c.d")
  {
  }

  /** `a@b.c` is accepted. */
  lemma AcceptsSimpleAddress()
    ensures ValidateEmail("a@b.c")
  {
    SimpleAddressPlain();
    AcceptsPlainParts("a", "b", "c");
    SimpleAddressParts();
  }

  /** Several dots after the `@` are allowed: `a@b.c.d` is accepted. */
  lemma AcceptsSeveralDots()
    ensures ValidateEmail("a@b.c.d")
  {
    SeveralDotsPlain();
    AcceptsPlainParts("a", "b", "c.d");
    SeveralDotsParts();
  }

  /** Without a dot strictly inside the part after `@`, the address is rejected. */
  lemma RejectsMisplacedDot()
    ensures !ValidateEmail("a@b")
    ensures !ValidateEmail("a@.b")
    ensures !ValidateEmail("a@b.")
  {
    var t1, t2, t3 := "a@b", "a@.b", "a@b.";
    TrimOfTrimmed(t1);
    TrimOfTrimmed(t2);
    TrimOfTrimmed(t3);
    assert FirstAt(t1) == 1 by { assert t1[0] != '@' && t1[1] == '@'; }
    assert FirstAt(t2) == 1 by { assert t2[0] != '@' && t2[1] == '@'; }
    assert FirstAt(t3) == 1 by { assert t3[0] != '@' && t3[1] == '@'; }
  }

  /** A second `@` is rejected: `a@b@c.d`. */
  lemma RejectsTwoAts()
    ensures !ValidateEmail("a@b@c.d")
  {
    var t := "a@b@c.d";
    TrimOfTrimmed(t);
    assert FirstAt(t) == 1 by { assert t[0] != '@' && t[1] == '@'; }
    assert t[2..][1] == '@';
  }

  /** Inner white space is rejected: `a b@c.d`. */
  lemma RejectsInnerSpace()
    ensures !ValidateEmail("a b@c.d")
  {
    var t := "a b@c.d";
    TrimOfTrimmed(t);
    assert FirstAt(t) == 3 by { assert t[0] != '@' && t[1] != '@' && t[2] != '@' && t[3] == '@'; }
    assert t[..3][1] == ' ';
  }

  /** Blank input is rejected before the pattern is tried. */
  lemma RejectsBlank(email: string)
    requires AllSpace(email)
    ensures !ValidateEmail(email)
  {
  }
}
