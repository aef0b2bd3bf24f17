/**
 * Text formatting used by the shopping-mission app: Python's `str(n)` and
 * `f"{n:,}"` for non-negative integers, fixed-width zero padding as used by
 * `strftime`, and `str.strip` together with Python's whitespace set.
 */
module Format {

  predicate IsDigit(c: char) {
    '0' <= c <= '9'
  }

  predicate AllDigits(s: string) {
    forall i :: 0 <= i < |s| ==> IsDigit(s[i])
  }

  function DigitChar(d: nat): (c: char)
    requires d < 10
    ensures IsDigit(c) && DigitValue(c) == d
  {
    (('0' as int) + d) as char
  }

  function DigitValue(c: char): nat
    requires IsDigit(c)
  {
    (c as int) - ('0' as int)
  }

  function Pow10(k: nat): (r: nat)
    ensures r >= 1
  {
    if k == 0 then 1 else 10 * Pow10(k - 1)
  }

  /** The value of a string of decimal digits, most significant first. */
  function ParseDecimal(s: string): nat
    requires AllDigits(s)
  {
    if s == [] then 0 else 10 * ParseDecimal(s[..|s| - 1]) + DigitValue(s[|s| - 1])
  }

  /** Python's `str(n)` for a non-negative integer: no sign, no leading zeros. */
  function Decimal(n: nat): (r: string)
    ensures |r| >= 1 && AllDigits(r)
    ensures r[0] == '0' <==> n == 0
    ensures |r| > 1 ==> r[0] != '0'
  {
    if n < 10 then [DigitChar(n)] else Decimal(n / 10) + [DigitChar(n % 10)]
  }

  /** The last `width` decimal digits of `n`, zero-padded on the left (`%0<width>d` for `n < 10^width`). */
  function Padded(n: nat, width: nat): (r: string)
    ensures |r| == width && AllDigits(r)
  {
    if width == 0 then [] else Padded(n / 10, width - 1) + [DigitChar(n % 10)]
  }

  lemma {:induction false} DecimalRoundTrip(n: nat)
    ensures ParseDecimal(Decimal(n)) == n
  {
    var r := Decimal(n);
    if n >= 10 {
      assert r[..|r| - 1] == Decimal(n / 10);
      DecimalRoundTrip(n / 10);
    }
  }

  lemma {:induction false} PaddedRoundTrip(n: nat, width: nat)
    requires n < Pow10(width)
    ensures ParseDecimal(Padded(n, width)) == n
  {
    if width > 0 {
      var r := Padded(n, width);
      assert r[..|r| - 1] == Padded(n / 10, width - 1);
      PaddedRoundTrip(n / 10, width - 1);
    }
  }

  /** Drops every ',' from `s`. */
  function RemoveCommas(s: string): (r: string)
    ensures forall i :: 0 <= i < |r| ==> r[i] != ','
  {
    if s == [] then []
    else if s[|s| - 1] == ',' then RemoveCommas(s[..|s| - 1])
    else RemoveCommas(s[..|s| - 1]) + [s[|s| - 1]]
  }

  lemma {:induction false} RemoveCommasAppend(a: string, b: string)
    ensures RemoveCommas(a + b) == RemoveCommas(a) + RemoveCommas(b)
  {
    if b != [] {
      assert (a + b)[..|a + b| - 1] == a + b[..|b| - 1];
      RemoveCommasAppend(a, b[..|b| - 1]);
    } else {
      assert a + b == a;
    }
  }

  lemma {:induction false} RemoveCommasOfDigits(s: string)
    requires AllDigits(s)
    ensures RemoveCommas(s) == s
  {
    if s != [] {
      RemoveCommasOfDigits(s[..|s| - 1]);
    }
  }

  /**
   * A thousands-grouped numeral: digits and commas only, a comma exactly at
   * the positions whose distance from the end is a multiple of four, and
   * never a comma first. So the commas split the digits into groups of three
   * counted from the right, with a leading group of one to three digits.
   */
  predicate ThousandsGrouped(s: string) {
    && |s| % 4 != 0
    && forall i :: 0 <= i < |s| ==> (s[i] == ',' <==> (|s| - i) % 4 == 0) && (s[i] != ',' ==> IsDigit(s[i]))
  }

  /** Python's `f"{n:,}"` for a non-negative integer. */
  function Grouped(n: nat): (r: string)
    ensures ThousandsGrouped(r)
  {
    if n < 1000 then
      DecimalBelowThousandGrouped(n);
      Decimal(n)
    else
      GroupedExtend(Grouped(n / 1000), Padded(n % 1000, 3));
      Grouped(n / 1000) + "," + Padded(n % 1000, 3)
  }

  lemma DecimalBelowThousandGrouped(n: nat)
    requires n < 1000
    ensures ThousandsGrouped(Decimal(n))
  {
    if n >= 10 {
      if n >= 100 {
        assert |Decimal(n / 100)| == 1;
      }
    }
  }

  /** Appending a comma and a group of three digits keeps a numeral grouped. */
  lemma GroupedExtend(g: string, p: string)
    requires ThousandsGrouped(g) && |p| == 3 && AllDigits(p)
    ensures ThousandsGrouped(g + "," + p)
  {
    var s := g + "," + p;
    forall i | 0 <= i < |s|
      ensures (s[i] == ',' <==> (|s| - i) % 4 == 0) && (s[i] != ',' ==> IsDigit(s[i]))
    {
      if i < |g| {
        assert s[i] == g[i];
        assert (|s| - i) % 4 == (|g| - i) % 4;
      } else if i > |g| {
        assert s[i] == p[i - |g| - 1];
      }
    }
  }

  /** Splitting off the last three digits of a numeral of four or more digits. */
  lemma DecimalSplitThousands(n: nat)
    requires n >= 1000
    ensures Decimal(n) == Decimal(n / 1000) + Padded(n % 1000, 3)
  {
    var m := n % 1000;
    var d2, d1, d0 := DigitChar((n / 100) % 10), DigitChar((n / 10) % 10), DigitChar(n % 10);
    assert Padded(m, 3) == [d2, d1, d0] by {
      ThousandsDigits(n);
      assert Padded(m / 100, 1) == Padded(m / 1000, 0) + [d2];
      assert Padded(m / 10, 2) == Padded(m / 100, 1) + [d1];
    }
    assert Decimal(n) == Decimal(n / 1000) + [d2, d1, d0] by {
      ThousandsDigits(n);
      assert Decimal(n / 100) == Decimal(n / 1000) + [d2];
      assert Decimal(n / 10) == Decimal(n / 100) + [d1];
    }
  }

  /** The last three digits of `n` are the digits of `n % 1000`. */
  lemma ThousandsDigits(n: nat)
    ensures var m := n % 1000;
      && n / 10 / 10 == n / 100 && n / 100 / 10 == n / 1000
      && m / 10 / 10 == m / 100 && m / 100 / 10 == 0 && m / 1000 == 0
      && m % 10 == n % 10 && (m / 10) % 10 == (n / 10) % 10 && (m / 100) % 10 == (n / 100) % 10
  {
  }

  lemma ZeroGroup()
    ensures Padded(0, 3) == "000"
  {
    assert DigitChar(0) == '0';
    assert Padded(0, 1) == Padded(0, 0) + ['0'];
    assert Padded(0, 2) == Padded(0, 1) + ['0'];
    assert Padded(0, 3) == Padded(0, 2) + ['0'];
  }

  // Worked values of `f"{n:,}"` used by the budget captions and the examples.

  lemma GroupedTensOfThousands(d: nat)
    requires 1 <= d <= 9
    ensures Grouped(10000 * d) == [DigitChar(d), '0', ',', '0', '0', '0']
  {
    var n := 10000 * d;
    assert n / 1000 == 10 * d && n % 1000 == 0;
    assert (10 * d) / 10 == d && (10 * d) % 10 == 0;
    assert DigitChar(0) == '0';
    assert Decimal(10 * d) == Decimal(d) + [DigitChar(0)];
    ZeroGroup();
    assert Grouped(n) == Grouped(10 * d) + "," + Padded(0, 3);
  }

  lemma GroupedOneThousand()
    ensures Grouped(1000) == "1,000"
  {
    assert DigitChar(0) == '0' && DigitChar(1) == '1';
    ZeroGroup();
    assert Grouped(1000) == Grouped(1) + "," + Padded(0, 3);
  }

  lemma GroupedTwoThousandFiveHundred()
    ensures Grouped(2500) == "2,500"
  {
    assert DigitChar(0) == '0' && DigitChar(2) == '2' && DigitChar(5) == '5';
    assert Padded(5, 1) == Padded(0, 0) + [DigitChar(5)];
    assert Padded(50, 2) == Padded(5, 1) + [DigitChar(0)];
    assert Padded(500, 3) == Padded(50, 2) + [DigitChar(0)];
    assert Grouped(2500) == Grouped(2) + "," + Padded(500, 3);
  }

  /** Removing the separators from `f"{n:,}"` gives back `str(n)`. */
  lemma {:induction false} GroupedDigits(n: nat)
    ensures RemoveCommas(Grouped(n)) == Decimal(n)
  {
    if n < 1000 {
      RemoveCommasOfDigits(Decimal(n));
    } else {
      var g := Grouped(n / 1000);
      var p := Padded(n % 1000, 3);
      RemoveCommasAppend(g + ",", p);
      RemoveCommasAppend(g, ",");
      assert RemoveCommas(",") == [] by {
        assert ","[..0] == [];
      }
      RemoveCommasOfDigits(p);
      GroupedDigits(n / 1000);
      DecimalSplitThousands(n);
    }
  }

  /** The value of a thousands-grouped numeral. */
  function ParseGrouped(s: string): (r: nat)
    requires ThousandsGrouped(s)
  {
    RemoveCommasKeepsDigits(s);
    ParseDecimal(RemoveCommas(s))
  }

  lemma {:induction false} RemoveCommasKeepsDigits(s: string)
    requires forall i :: 0 <= i < |s| ==> s[i] != ',' ==> IsDigit(s[i])
    ensures AllDigits(RemoveCommas(s))
  {
    if s != [] {
      RemoveCommasKeepsDigits(s[..|s| - 1]);
    }
  }

  lemma GroupedRoundTrip(n: nat)
    ensures ParseGrouped(Grouped(n)) == n
  {
    GroupedDigits(n);
    DecimalRoundTrip(n);
  }

  // ---------------------------------------------------------------------
  // Whitespace and str.strip
  // ---------------------------------------------------------------------

  /** The characters for which Python's `str.isspace` holds. */
  predicate IsSpace(c: char) {
    || ('\t' <= c <= '\r')                   // \t \n \v \f \r
    || ('\U{1C}' <= c <= '\U{1F}')           // file, group, record and unit separators
    || c == ' ' || c == '\U{85}' || c == '\U{A0}' || c == '\U{1680}'
    || ('\U{2000}' <= c <= '\U{200A}')
    || c == '\U{2028}' || c == '\U{2029}' || c == '\U{202F}' || c == '\U{205F}' || c == '\U{3000}'
  }

  /** `s` with its leading whitespace removed. */
  function TrimStart(s: string): (r: string)
    ensures |r| <= |s| && r == s[|s| - |r|..]
    ensures forall i :: 0 <= i < |s| - |r| ==> IsSpace(s[i])
    ensures r == [] || !IsSpace(r[0])
  {
    if s != [] && IsSpace(s[0]) then TrimStart(s[1..]) else s
  }

  /** `s` with its trailing whitespace removed. */
  function TrimEnd(s: string): (r: string)
    ensures |r| <= |s| && r == s[..|r|]
    ensures forall i :: |r| <= i < |s| ==> IsSpace(s[i])
    ensures r == [] || !IsSpace(r[|r| - 1])
  {
    if s != [] && IsSpace(s[|s| - 1]) then TrimEnd(s[..|s| - 1]) else s
  }

  /** Python's `s.strip()` with no argument. */
  function Strip(s: string): (r: string)
    ensures |r| <= |s|
    ensures r == [] || (!IsSpace(r[0]) && !IsSpace(r[|r| - 1]))
  {
    TrimEnd(TrimStart(s))
  }

  /** The source's emptiness test on a justification: `reason.strip() == ""`. */
  predicate IsBlank(s: string) {
    Strip(s) == ""
  }

  /** A text is blank exactly when every one of its characters is whitespace. */
  lemma BlankIffAllSpace(s: string)
    ensures IsBlank(s) <==> forall i :: 0 <= i < |s| ==> IsSpace(s[i])
  {
    var t := TrimStart(s);
    if IsBlank(s) {
      assert t == [];
    } else {
      var u := TrimEnd(t);
      assert u != [] && !IsSpace(u[0]);
      assert s[|s| - |t|] == u[0];
    }
  }

  // ---------------------------------------------------------------------
  // Timestamps: strftime('%Y%m%d_%H%M%S')
  // ---------------------------------------------------------------------

  /** The fields of a `datetime` value, to the second. */
  datatype Timestamp = Timestamp(year: nat, month: nat, day: nat, hour: nat, minute: nat, second: nat)

  /** The ranges Python's `datetime` enforces on these fields. */
  predicate ValidTimestamp(t: Timestamp) {
    && 1 <= t.year <= 9999 && 1 <= t.month <= 12 && 1 <= t.day <= 31
    && t.hour < 24 && t.minute < 60 && t.second < 60
  }

  /** `t.strftime('%Y%m%d_%H%M%S')`. */
  function Strftime(t: Timestamp): (r: string)
    ensures |r| == 15 && r[8] == '_' && AllDigits(r[..8]) && AllDigits(r[9..])
  {
    var date := Padded(t.year, 4) + Padded(t.month, 2) + Padded(t.day, 2);
    var time := Padded(t.hour, 2) + Padded(t.minute, 2) + Padded(t.second, 2);
    var r := date + "_" + time;
    assert r[..8] == date && r[9..] == time;
    r
  }
}
