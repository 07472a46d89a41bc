/** The `pad` pipe: left-pads the decimal form of a number to a width with
    a padding symbol. */
module PadPipe {

  /** A decimal digit character, `[0-9]`. */
  predicate IsDigit(c: char) {
    '0' <= c <= '9'
  }

  function DigitChar(d: nat): (c: char)
    requires d < 10
    ensures IsDigit(c)
  {
    ('0' as int + d) as char
  }

  function DigitValue(c: char): (d: nat)
    requires IsDigit(c)
    ensures d < 10 && DigitChar(d) == c
  {
    c as int - '0' as int
  }

  predicate AllDigits(s: string) {
    forall i :: 0 <= i < |s| ==> IsDigit(s[i])
  }

  /** `value + ''` for a natural number: its decimal digits, most
      significant first, with no leading zero. */
  function Decimal(n: nat): (s: string)
    ensures |s| >= 1 && AllDigits(s)
    ensures |s| > 1 ==> s[0] != '0'
  {
    if n < 10 then [DigitChar(n)] else Decimal(n / 10) + [DigitChar(n % 10)]
  }

  /** Reads a digit string back as a number. */
  function ParseDecimal(s: string): nat
    requires AllDigits(s)
  {
    if s == [] then 0 else ParseDecimal(s[..|s| - 1]) * 10 + DigitValue(s[|s| - 1])
  }

  /** The digits `Decimal` writes denote the number they were written from. */
  lemma {:induction false} DecimalRoundTrip(n: nat)
    ensures ParseDecimal(Decimal(n)) == n
  {
    var s := Decimal(n);
    if n >= 10 {
      DecimalRoundTrip(n / 10);
      assert s[..|s| - 1] == Decimal(n / 10);
      assert DigitValue(s[|s| - 1]) == n % 10;
    } else {
      assert DigitValue(s[0]) == n;
    }
  }

  /** `new Array(n + 1).join(symbol)`: `n` copies of `symbol`. */
  function Repeat(symbol: string, n: nat): (r: string)
    ensures |r| == n * |symbol|
    ensures |symbol| > 0 ==> forall i :: 0 <= i < |r| ==> r[i] == symbol[i % |symbol|]
  {
    if n == 0 then []
    else
      var rest := Repeat(symbol, n - 1);
      MulStep(n, |symbol|);
      if |symbol| > 0 then PrependPeriod(symbol, rest); symbol + rest
      else symbol + rest
  }

  /** Putting one more copy of `symbol` in front keeps character `i` equal
      to `symbol[i % |symbol|]`. */
  lemma {:induction false} PrependPeriod(symbol: string, rest: string)
    requires |symbol| > 0
    requires forall i :: 0 <= i < |rest| ==> rest[i] == symbol[i % |symbol|]
    ensures forall i :: 0 <= i < |symbol + rest| ==> (symbol + rest)[i] == symbol[i % |symbol|]
  {
    var r := symbol + rest;
    forall i | 0 <= i < |r| ensures r[i] == symbol[i % |symbol|] {
      if i >= |symbol| {
        ModStep(i, |symbol|);
        assert r[i] == rest[i - |symbol|];
      } else {
        ModUnique(i, |symbol|, 0, i);
      }
    }
  }

  lemma MulStep(n: nat, k: nat)
    requires n > 0
    ensures n * k == k + (n - 1) * k
  {
  }

  lemma MulGe(a: int, k: int)
    requires a >= 1 && k > 0
    ensures a * k >= k
  {
    var b := a - 1;
    assert a * k == b * k + k;
    assert b * k >= 0;
  }

  lemma ModUnique(x: int, k: int, q: int, r: int)
    requires k > 0 && 0 <= r < k && x == q * k + r
    ensures x % k == r
  {
    var q', r' := x / k, x % k;
    assert x == q' * k + r';
    assert q * k - q' * k == r' - r;
    assert (q - q') * k == q * k - q' * k;
    if q > q' {
      MulGe(q - q', k);
    } else if q < q' {
      assert (q' - q) * k == q' * k - q * k;
      MulGe(q' - q, k);
    }
  }

  lemma ModStep(i: int, k: int)
    requires 0 < k <= i
    ensures i % k == (i - k) % k
  {
    var j := i - k;
    assert j == (j / k) * k + j % k;
    assert (j / k + 1) * k == (j / k) * k + k;
    ModUnique(i, k, j / k + 1, j % k);
  }

  function Max(a: int, b: int): int {
    if a < b then b else a
  }

  /** `r` is `valueStr` left-padded to `width` with `symbol`. */
  predicate PaddedTo(r: string, valueStr: string, width: int, symbol: string) {
    // the digits always end the result
    && |r| >= |valueStr| && r[|r| - |valueStr|..] == valueStr
    // a value at least `width` long is returned as it is
    && (|valueStr| >= width ==> r == valueStr)
    // otherwise the padding is `width - len` copies of the symbol
    && (|valueStr| < width ==> |r| - |valueStr| == (width - |valueStr|) * |symbol|)
    && (|symbol| > 0 ==> forall i :: 0 <= i < |r| - |valueStr| ==> r[i] == symbol[i % |symbol|])
    // with a one-character symbol the result is exactly `max(width, len)` long
    && (|symbol| == 1 ==> |r| == Max(width, |valueStr|))
  }

  /** The padding step of `transform` once the value is written as
      `valueStr`. */
  function PadLeft(valueStr: string, width: int, symbol: string): (r: string)
    ensures PaddedTo(r, valueStr, width, symbol)
  {
    if |valueStr| >= width then valueStr
    else
      var padding := Repeat(symbol, width - |valueStr|);
      PaddingComesFirst(padding, valueStr, symbol);
      padding + valueStr
  }

  /** `transform(value, width = 5, symbol = '0')`: the decimal form of
      `value`, preceded by `width - len` copies of `symbol` when it is
      shorter than `width`. */
  function Transform(value: nat, width: int := 5, symbol: string := "0"): (r: string)
    ensures PaddedTo(r, Decimal(value), width, symbol)
  {
    PadLeft(Decimal(value), width, symbol)
  }

  /** Characters before the digits are the padding's own. */
  lemma {:induction false} PaddingComesFirst(padding: string, valueStr: string, symbol: string)
    requires |symbol| > 0 ==> forall i :: 0 <= i < |padding| ==> padding[i] == symbol[i % |symbol|]
    ensures (padding + valueStr)[|padding|..] == valueStr
    ensures |symbol| > 0 ==>
              forall i :: 0 <= i < |padding| ==> (padding + valueStr)[i] == symbol[i % |symbol|]
  {
    var r := padding + valueStr;
    assert r[|padding|..] == valueStr;
    forall i | 0 <= i < |padding| ensures r[i] == padding[i] {
    }
  }

  /** With the default width and symbol a short number gets leading zeros
      up to five digits. */
  lemma DefaultPadsWithZeros()
    ensures Transform(42) == "00042"
  {
    var digits := Decimal(42);
    assert digits == "42" by {
      assert Decimal(4) == "4";
      assert DigitChar(2) == '2';
    }
    assert Repeat("0", 3) == "000" by {
      assert Repeat("0", 1) == "0";
      assert Repeat("0", 2) == "00";
    }
  }

  /** A number already five digits or longer is left as it is. */
  lemma DefaultKeepsLongNumbers()
    ensures Transform(123456) == "123456"
  {
    assert Decimal(123456) == "123456" by {
      assert Decimal(1) == "1";
      assert Decimal(12) == "12";
      assert Decimal(123) == "123";
      assert Decimal(1234) == "1234";
      assert Decimal(12345) == "12345";
    }
  }

  lemma CustomSymbol()
    ensures Transform(7, 3, "*") == "**7"
  {
    assert Decimal(7) == "7";
    assert Repeat("*", 2) == "**" by { assert Repeat("*", 1) == "*"; }
  }
}
