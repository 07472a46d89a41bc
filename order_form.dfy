/** The `ccexp` rule of the order form: a credit-card expiry `M/Y` is
    accepted when the field is not empty and matches
    `^(0?[1-9]|1[0-2])\/(0?[1-9]|[1-9][0-9])$`. */
module OrderForm {
  import opened Errors
  import opened PadPipe

  predicate NonZeroDigit(c: char) {
    '1' <= c <= '9'
  }

  /** `0?[1-9]|1[0-2]`, matched against the whole of `m`. */
  predicate MonthPattern(m: string) {
    || (|m| == 1 && NonZeroDigit(m[0]))
    || (|m| == 2 && m[0] == '0' && NonZeroDigit(m[1]))
    || (|m| == 2 && m[0] == '1' && '0' <= m[1] <= '2')
  }

  /** `0?[1-9]|[1-9][0-9]`, matched against the whole of `y`. */
  predicate YearPattern(y: string) {
    || (|y| == 1 && NonZeroDigit(y[0]))
    || (|y| == 2 && y[0] == '0' && NonZeroDigit(y[1]))
    || (|y| == 2 && NonZeroDigit(y[0]) && IsDigit(y[1]))
  }

  /** The anchored expression: the whole string is a month part, one `/`
      and a year part. */
  ghost predicate MatchesExpiry(s: string) {
    exists i :: 0 <= i < |s| && s[i] == '/' && MonthPattern(s[..i]) && YearPattern(s[i + 1..])
  }

  /** Position of the first `/`, or `|s|` when there is none. */
  function SlashIndex(s: string): (i: nat)
    ensures i <= |s|
    ensures forall j :: 0 <= j < i ==> s[j] != '/'
    ensures i < |s| ==> s[i] == '/'
  {
    if s == [] then 0
    else if s[0] == '/' then 0
    else 1 + SlashIndex(s[1..])
  }

  /** The `ccexp` validation function: `false` for a missing or empty value,
      otherwise whether the value matches the expiry pattern. */
  function Ccexp(value: Option<string>): (ok: bool)
    ensures ok <==> value.Some? && value.value != [] && MatchesExpiry(value.value)
  {
    if value.None? || value.value == [] then false
    else
      var s := value.value;
      var i := SlashIndex(s);
      var matched := i < |s| && MonthPattern(s[..i]) && YearPattern(s[i + 1..]);
      assert MatchesExpiry(s) ==> matched by {
        if MatchesExpiry(s) {
          var k :| 0 <= k < |s| && s[k] == '/' && MonthPattern(s[..k]) && YearPattern(s[k + 1..]);
          assert i == k;
        }
      }
      matched
  }

  /** A one- or two-digit decimal string. */
  predicate ShortNumber(s: string) {
    1 <= |s| <= 2 && AllDigits(s)
  }

  /** The value of a one- or two-digit string, digit by digit. */
  lemma ParseShort(s: string)
    requires ShortNumber(s)
    ensures |s| == 1 ==> ParseDecimal(s) == DigitValue(s[0])
    ensures |s| == 2 ==> ParseDecimal(s) == DigitValue(s[0]) * 10 + DigitValue(s[1])
  {
  }

  /** The month alternatives accept exactly the one- or two-digit numbers 1
      to 12, a leading zero allowed. */
  lemma MonthPatternMeansOneToTwelve(m: string)
    ensures MonthPattern(m) <==> ShortNumber(m) && 1 <= ParseDecimal(m) <= 12
  {
    if ShortNumber(m) {
      ParseShort(m);
    }
  }

  /** The year alternatives accept exactly the one- or two-digit numbers 1
      to 99, a leading zero allowed. */
  lemma YearPatternMeansOneToNinetyNine(y: string)
    ensures YearPattern(y) <==> ShortNumber(y) && 1 <= ParseDecimal(y) <= 99
  {
    if ShortNumber(y) {
      ParseShort(y);
    }
  }

  /** `M/Y` with a month 1..12 and a year 1..99, each written with one or
      two digits, and nothing before or after. */
  ghost predicate NumericExpiry(s: string) {
    exists i :: && 0 <= i < |s| && s[i] == '/'
                && ShortNumber(s[..i]) && 1 <= ParseDecimal(s[..i]) <= 12
                && ShortNumber(s[i + 1..]) && 1 <= ParseDecimal(s[i + 1..]) <= 99
  }

  /** A present value is accepted exactly when it is such an `M/Y`. */
  lemma {:induction false} CcexpMeansNumericExpiry(s: string)
    ensures Ccexp(Some(s)) <==> NumericExpiry(s)
  {
    if Ccexp(Some(s)) {
      AcceptedIsNumeric(s);
    }
    if NumericExpiry(s) {
      NumericIsAccepted(s);
    }
  }

  lemma {:induction false} AcceptedIsNumeric(s: string)
    requires MatchesExpiry(s)
    ensures NumericExpiry(s)
  {
    var i :| 0 <= i < |s| && s[i] == '/' && MonthPattern(s[..i]) && YearPattern(s[i + 1..]);
    MonthPatternMeansOneToTwelve(s[..i]);
    YearPatternMeansOneToNinetyNine(s[i + 1..]);
  }

  lemma {:induction false} NumericIsAccepted(s: string)
    requires NumericExpiry(s)
    ensures MatchesExpiry(s)
  {
    var i :| && 0 <= i < |s| && s[i] == '/'
             && ShortNumber(s[..i]) && 1 <= ParseDecimal(s[..i]) <= 12
             && ShortNumber(s[i + 1..]) && 1 <= ParseDecimal(s[i + 1..]) <= 99;
    MonthPatternMeansOneToTwelve(s[..i]);
    YearPatternMeansOneToNinetyNine(s[i + 1..]);
  }

  /** An empty or missing field is rejected before the pattern is tried. */
  lemma EmptyRejected()
    ensures !Ccexp(None) && !Ccexp(Some(""))
  {
  }

  /** `1`, `01` and `12` are months; `0`, `00` and `13` are not. */
  lemma MonthExamples()
    ensures Ccexp(Some("1/5")) && Ccexp(Some("01/5")) && Ccexp(Some("12/5"))
  {
    assert SlashIndex("1/5") == 1;
    assert SlashIndex("01/5") == 2 && SlashIndex("12/5") == 2;
  }

  lemma MonthCounterexamples()
    ensures !Ccexp(Some("0/5")) && !Ccexp(Some("00/5")) && !Ccexp(Some("13/5"))
  {
    assert SlashIndex("0/5") == 1;
    assert SlashIndex("00/5") == 2 && SlashIndex("13/5") == 2;
  }

  /** `05` and `99` are years; `0`, `00` and `100` are not. */
  lemma YearExamples()
    ensures Ccexp(Some("1/05")) && Ccexp(Some("1/99"))
  {
    assert SlashIndex("1/05") == 1 && SlashIndex("1/99") == 1;
  }

  lemma YearCounterexamples()
    ensures !Ccexp(Some("1/0")) && !Ccexp(Some("1/00")) && !Ccexp(Some("1/100"))
  {
    assert SlashIndex("1/0") == 1 && SlashIndex("1/00") == 1 && SlashIndex("1/100") == 1;
  }

  /** The anchors leave no room for anything around `M/Y`. */
  lemma AnchorExamples()
    ensures !Ccexp(Some("1/5 ")) && !Ccexp(Some(" 1/5")) && !Ccexp(Some("1-5")) && !Ccexp(Some("1//5"))
  {
    assert SlashIndex("1/5 ") == 1 && SlashIndex(" 1/5") == 2;
    assert SlashIndex("1-5") == 3 by { assert SlashIndex("-5") == 2; }
    assert SlashIndex("1//5") == 1;
  }
}
