/** Decimal strings as the scripts print and read them back: `String(n)`,
    `s.padStart(width, fill)` and the decimal reading done by `parseInt`. */
module Text {
  import opened Wrappers

  predicate IsDigit(c: char) { '0' <= c <= '9' }

  predicate AllDigits(s: string) { forall i :: 0 <= i < |s| ==> IsDigit(s[i]) }

  predicate AllChar(s: string, c: char) { forall i :: 0 <= i < |s| ==> s[i] == c }

  function DigitValue(c: char): (d: nat)
    requires IsDigit(c)
    ensures d < 10
  {
    c as int - '0' as int
  }

  function DigitChar(d: nat): (c: char)
    requires d < 10
    ensures IsDigit(c) && DigitValue(c) == d
  {
    "0123456789"[d]
  }

  /** `String(n)` for a non-negative integer: at least one digit, no leading zero. */
  function Decimal(n: nat): (s: string)
    ensures 1 <= |s| && AllDigits(s)
    ensures n < 10 <==> |s| == 1
    ensures |s| > 1 ==> s[0] != '0'
  {
    if n < 10 then [DigitChar(n)] else Decimal(n / 10) + [DigitChar(n % 10)]
  }

  /** Numbers below 100 print in at most two digits. */
  lemma DecimalBelow100(n: nat)
    requires n < 100
    ensures |Decimal(n)| <= 2
  {
    if n >= 10 {
      assert Decimal(n) == Decimal(n / 10) + [DigitChar(n % 10)];
    }
  }

  /** The number denoted by a string of decimal digits (leading zeros allowed). */
  function ValueOf(s: string): nat
    requires AllDigits(s)
  {
    if s == [] then 0 else 10 * ValueOf(s[..|s| - 1]) + DigitValue(s[|s| - 1])
  }

  /** Printing a number and reading it back gives the number. */
  lemma {:induction false} ValueOfDecimal(n: nat)
    ensures ValueOf(Decimal(n)) == n
  {
    if n >= 10 {
      var s := Decimal(n);
      assert s[..|s| - 1] == Decimal(n / 10);
      ValueOfDecimal(n / 10);
    }
  }

  /** Two numbers print the same only if they are equal. */
  lemma DecimalInjective(m: nat, n: nat)
    requires Decimal(m) == Decimal(n)
    ensures m == n
  {
    ValueOfDecimal(m);
    ValueOfDecimal(n);
  }

  /** `s.padStart(width, fill)`: the fill goes in front, and `s` is never cut. */
  function PadStart(s: string, width: nat, fill: char): (r: string)
    ensures |r| == if |s| < width then width else |s|
    ensures r[|r| - |s|..] == s
    ensures AllChar(r[..|r| - |s|], fill)
  {
    if |s| >= width then s else seq(width - |s|, _ => fill) + s
  }

  lemma {:induction false} ValueOfZeros(z: string)
    requires AllChar(z, '0')
    ensures AllDigits(z) && ValueOf(z) == 0
  {
    if z != [] {
      ValueOfZeros(z[..|z| - 1]);
    }
  }

  /** Leading zeros do not change the value of a digit string. */
  lemma {:induction false} ValueOfLeadingZeros(z: string, s: string)
    requires AllChar(z, '0') && AllDigits(s)
    ensures AllDigits(z + s) && ValueOf(z + s) == ValueOf(s)
    decreases |s|
  {
    if s == [] {
      assert z + s == z;
      ValueOfZeros(z);
    } else {
      assert (z + s)[..|z + s| - 1] == z + s[..|s| - 1];
      ValueOfLeadingZeros(z, s[..|s| - 1]);
    }
  }

  /** Reading a zero-padded number gives the number back. */
  lemma PaddedValue(n: nat, width: nat)
    ensures AllDigits(PadStart(Decimal(n), width, '0'))
    ensures ValueOf(PadStart(Decimal(n), width, '0')) == n
  {
    var s := Decimal(n);
    var r := PadStart(s, width, '0');
    assert r == r[..|r| - |s|] + s;
    ValueOfLeadingZeros(r[..|r| - |s|], s);
    ValueOfDecimal(n);
  }

  /** Length of the longest run of digits at the start of `s`. */
  function DigitRun(s: string): (k: nat)
    ensures k <= |s| && AllDigits(s[..k])
    ensures k < |s| ==> !IsDigit(s[k])
  {
    if s == [] || !IsDigit(s[0]) then 0
    else
      var k := 1 + DigitRun(s[1..]);
      assert s[..k] == [s[0]] + s[1..][..k - 1];
      k
  }

  lemma {:induction false} DigitRunAll(s: string)
    requires AllDigits(s)
    ensures DigitRun(s) == |s|
  {
    if s != [] {
      DigitRunAll(s[1..]);
    }
  }

  /** Length of the optional sign in front of the digits. */
  function SignLength(s: string): (k: nat)
    ensures k <= |s|
  {
    if |s| > 0 && (s[0] == '-' || s[0] == '+') then 1 else 0
  }

  /** `parseInt(s)` for the strings these scripts store: an optional sign
      and the longest run of decimal digits after it; `None` is `NaN`. */
  function ParseInt(s: string): (r: Option<int>)
    ensures r.Some? <==> SignLength(s) < |s| && IsDigit(s[SignLength(s)])
  {
    var body := s[SignLength(s)..];
    var k := DigitRun(body);
    if k == 0 then None
    else
      var v: int := ValueOf(body[..k]);
      Some(if s[0] == '-' then -v else v)
  }

  /** `String(k)` for any integer. */
  function IntString(k: int): (s: string)
    ensures 1 <= |s|
  {
    if k < 0 then "-" + Decimal(-k) else Decimal(k)
  }

  /** The digits of a number that is not negative read back as the number. */
  lemma ParseDecimal(n: nat)
    ensures ParseInt(Decimal(n)) == Some(n)
  {
    var d := Decimal(n);
    assert SignLength(d) == 0;
    assert d[0..] == d;
    DigitRunAll(d);
    assert d[..|d|] == d;
    ValueOfDecimal(n);
  }

  /** A minus sign followed by digits reads back as the negated number. */
  lemma ParseNegative(s: string, d: string)
    requires |d| >= 1 && AllDigits(d) && s == "-" + d
    ensures ParseInt(s) == Some(-(ValueOf(d) as int))
  {
    assert SignLength(s) == 1;
    assert s[1..] == d;
    DigitRunAll(d);
    assert d[..|d|] == d;
  }

  /** What the scripts write they read back unchanged. */
  lemma ParseIntString(k: int)
    ensures ParseInt(IntString(k)) == Some(k)
  {
    if k < 0 {
      var n: nat := -k;
      ValueOfDecimal(n);
      ParseNegative(IntString(k), Decimal(n));
    } else {
      ParseDecimal(k);
    }
  }

  /** Where the parts of `a + [c] + b` sit when `b` is two long. */
  lemma SplitTwo(r: string, a: string, c: char, b: string)
    requires r == a + [c] + b && |b| == 2
    ensures |r| == |a| + 3 && r[..|r| - 3] == a && r[|r| - 3] == c && r[|r| - 2..] == b
  {
    assert r[..|a|] == a;
    assert r[|a| + 1..] == b;
  }

  /** Minutes and seconds, each padded to two digits, around a colon. */
  function Clock(mins: nat, secs: nat): string
  {
    PadStart(Decimal(mins), 2, '0') + [':'] + PadStart(Decimal(secs), 2, '0')
  }

  lemma ClockZero()
    ensures Clock(0, 0) == "00:00"
  {
    assert Decimal(0) == "0";
    assert PadStart("0", 2, '0') == "00";
  }

  /** Reads an "M…M:SS" display back into whole seconds. */
  function ParseClock(r: string): Option<nat>
  {
    if |r| < 4 || r[|r| - 3] != ':' then None
    else
      var mins := r[..|r| - 3];
      var secs := r[|r| - 2..];
      if AllDigits(mins) && AllDigits(secs) then Some(60 * ValueOf(mins) + ValueOf(secs))
      else None
  }

  lemma ParseFields(r: string, a: string, b: string, m: nat, s: nat)
    requires |r| >= 5 && r[..|r| - 3] == a && r[|r| - 3] == ':' && r[|r| - 2..] == b
    requires AllDigits(a) && ValueOf(a) == m
    requires AllDigits(b) && ValueOf(b) == s
    ensures ParseClock(r) == Some(60 * m + s)
  {
  }

  /** Both fields of the clock are digit strings denoting the minutes and
      the seconds; the seconds field is exactly two long, the minutes
      field at least two. */
  lemma ClockFields(mins: nat, secs: nat)
    requires secs < 60
    ensures var mm := PadStart(Decimal(mins), 2, '0');
      && |mm| >= 2 && AllDigits(mm) && ValueOf(mm) == mins
    ensures var ss := PadStart(Decimal(secs), 2, '0');
      && |ss| == 2 && AllDigits(ss) && ValueOf(ss) == secs
  {
    DecimalBelow100(secs);
    PaddedValue(mins, 2);
    PaddedValue(secs, 2);
  }

  /** A clock display reads back as the minutes and seconds it shows. */
  lemma ClockRoundTrip(mins: nat, secs: nat)
    requires secs < 60
    ensures ParseClock(Clock(mins, secs)) == Some(60 * mins + secs)
  {
    var mm := PadStart(Decimal(mins), 2, '0');
    var ss := PadStart(Decimal(secs), 2, '0');
    ClockFields(mins, secs);
    var r := Clock(mins, secs);
    SplitTwo(r, mm, ':', ss);
    ParseFields(r, mm, ss, mins, secs);
  }
}
