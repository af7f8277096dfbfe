/** Decimal rendering of test-id counters: Python's `{n:03d}` and the
    `{suite}_{n:03d}` test id built from it. */
module IdFormat {

  predicate IsDigit(ch: char) { '0' <= ch <= '9' }

  predicate AllDigits(s: string) { forall i :: 0 <= i < |s| ==> IsDigit(s[i]) }

  function DigitValue(ch: char): (d: nat)
    requires IsDigit(ch)
    ensures d < 10
  {
    ch as int - '0' as int
  }

  function DigitChar(d: nat): (ch: char)
    requires d < 10
    ensures IsDigit(ch) && DigitValue(ch) == d
  {
    ('0' as int + d) as char
  }

  /** The value of a string of decimal digits, most significant first. */
  function ParseDecimal(s: string): nat
    requires AllDigits(s)
  {
    if s == [] then 0 else ParseDecimal(s[..|s| - 1]) * 10 + DigitValue(s[|s| - 1])
  }

  /** str(n) for a non-negative n: its decimal digits without leading zeros. */
  function Decimal(n: nat): (s: string)
    ensures |s| >= 1 && AllDigits(s)
    ensures n != 0 ==> s[0] != '0'
    decreases n
  {
    if n < 10 then [DigitChar(n)] else Decimal(n / 10) + [DigitChar(n % 10)]
  }

  /** k copies of '0'. */
  function Zeros(k: nat): (z: string)
    ensures |z| == k && forall i :: 0 <= i < k ==> z[i] == '0'
  {
    if k == 0 then [] else ['0'] + Zeros(k - 1)
  }

  /** Left-pads s with '0' up to width characters; a longer s is kept whole. */
  function ZeroPad(s: string, width: nat): (r: string)
    ensures |r| == if |s| < width then width else |s|
    ensures r[|r| - |s|..] == s
    ensures forall i :: 0 <= i < |r| - |s| ==> r[i] == '0'
  {
    if |s| >= width then s else Zeros(width - |s|) + s
  }

  /** Python's `{n:03d}`. */
  function Pad3(n: nat): string
  {
    ZeroPad(Decimal(n), 3)
  }

  /** The id of the n-th test of a suite run: `{suite}_{n:03d}`. */
  function TestId(suite: string, n: nat): string
  {
    suite + "_" + Pad3(n)
  }

  lemma {:induction false} DecimalRoundTrip(n: nat)
    ensures ParseDecimal(Decimal(n)) == n
    decreases n
  {
    if n >= 10 {
      var s := Decimal(n / 10);
      assert (s + [DigitChar(n % 10)])[..|s|] == s;
      DecimalRoundTrip(n / 10);
    }
  }

  lemma {:induction false} LeadingZeroIgnored(s: string)
    requires AllDigits(s)
    ensures AllDigits(['0'] + s) && ParseDecimal(['0'] + s) == ParseDecimal(s)
    decreases |s|
  {
    if s != [] {
      var init := s[..|s| - 1];
      assert (['0'] + s)[..|s|] == ['0'] + init;
      LeadingZeroIgnored(init);
    }
  }

  lemma {:induction false} ZerosKeepValue(k: nat, s: string)
    requires AllDigits(s)
    ensures AllDigits(Zeros(k) + s) && ParseDecimal(Zeros(k) + s) == ParseDecimal(s)
  {
    if k > 0 {
      ZerosKeepValue(k - 1, s);
      assert Zeros(k) + s == ['0'] + (Zeros(k - 1) + s);
      LeadingZeroIgnored(Zeros(k - 1) + s);
    } else {
      assert Zeros(k) + s == s;
    }
  }

  lemma ZeroPadKeepsValue(s: string, width: nat)
    requires AllDigits(s)
    ensures AllDigits(ZeroPad(s, width)) && ParseDecimal(ZeroPad(s, width)) == ParseDecimal(s)
  {
    if |s| < width {
      ZerosKeepValue(width - |s|, s);
    }
  }

  /** `{n:03d}` is at least three digits long and reads back as n. */
  lemma Pad3RoundTrip(n: nat)
    ensures |Pad3(n)| >= 3 && AllDigits(Pad3(n))
    ensures ParseDecimal(Pad3(n)) == n
  {
    DecimalRoundTrip(n);
    ZeroPadKeepsValue(Decimal(n), 3);
  }

  /** Within one suite name, different counters give different ids. */
  lemma TestIdInjective(suite: string, n: nat, m: nat)
    ensures TestId(suite, n) == TestId(suite, m) <==> n == m
  {
    if TestId(suite, n) == TestId(suite, m) {
      assert Pad3(n) == TestId(suite, n)[|suite| + 1..];
      assert Pad3(m) == TestId(suite, m)[|suite| + 1..];
      Pad3RoundTrip(n);
      Pad3RoundTrip(m);
    }
  }

  /** A one-digit counter is padded with two zeros. */
  lemma OneDigitPad(n: nat)
    requires n < 10
    ensures Pad3(n) == "00" + [DigitChar(n)]
  {
    assert Decimal(n) == [DigitChar(n)];
    assert Zeros(2) == "00";
  }

  lemma Pad3Examples()
    ensures Pad3(1) == "001" && Pad3(6) == "006" && Pad3(42) == "042" && Pad3(1234) == "1234"
  {
    assert DigitChar(1) == '1' && DigitChar(6) == '6';
    assert DigitChar(2) == '2' && DigitChar(3) == '3' && DigitChar(4) == '4';
    assert Decimal(42) == "42";
    assert Decimal(1234) == Decimal(123) + "4";
    assert Decimal(123) == Decimal(12) + "3";
    assert Decimal(12) == "12";
    assert Zeros(2) == "00" && Zeros(1) == "0";
  }
}
