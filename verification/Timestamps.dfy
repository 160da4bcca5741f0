/** UTC times as the operation store keeps them: printed with Go's RFC3339Nano
    layout, which drops trailing zeros of the fraction (and the whole fraction
    when it is zero). Two questions matter to the store: does a time survive
    printing and parsing, because a row's sort key is rebuilt from the parsed
    row, and does string order agree with time order, because the sweep's
    query compares the printed strings. */
module Timestamps {
  import opened Outcomes

  /** A UTC time broken into calendar fields. */
  datatype Timestamp = Timestamp(year: int, month: int, day: int,
                                 hour: int, minute: int, second: int, nanos: int)

  predicate IsLeap(y: int) {
    y % 4 == 0 && (y % 100 != 0 || y % 400 == 0)
  }

  function DaysIn(y: int, m: int): int {
    if m == 2 then (if IsLeap(y) then 29 else 28)
    else if m == 4 || m == 6 || m == 9 || m == 11 then 30
    else 31
  }

  /** Four-digit years only: RFC 3339 has no longer ones (section 5.6). */
  predicate ValidTime(t: Timestamp) {
    && 0 <= t.year <= 9999
    && 1 <= t.month <= 12
    && 1 <= t.day <= DaysIn(t.year, t.month)
    && 0 <= t.hour < 24
    && 0 <= t.minute < 60
    && 0 <= t.second < 60
    && 0 <= t.nanos < 1_000_000_000
  }

  /** Go's zero time, for which RequestedAt.IsZero() holds. */
  const ZERO_TIME := Timestamp(1, 1, 1, 0, 0, 0, 0)

  type Time = t: Timestamp | ValidTime(t) witness ZERO_TIME

  /* ------------------------------------------------------------------ */
  /* Time order and its embedding into nanoseconds                        */
  /* ------------------------------------------------------------------ */

  predicate SameSecond(a: Timestamp, b: Timestamp) {
    a.(nanos := 0) == b.(nanos := 0)
  }

  /** Compares one field, and the later fields when it is equal. */
  predicate FieldLess(a: int, b: int, later: bool) {
    a < b || (a == b && later)
  }

  /** Chronological order: the first differing field decides. */
  predicate Before(a: Timestamp, b: Timestamp) {
    FieldLess(a.year, b.year,
              FieldLess(a.month, b.month,
                        FieldLess(a.day, b.day,
                                  FieldLess(a.hour, b.hour,
                                            FieldLess(a.minute, b.minute,
                                                      FieldLess(a.second, b.second, a.nanos < b.nanos))))))
  }

  function DaysBeforeYear(y: nat): (d: nat) {
    if y == 0 then 0 else DaysBeforeYear(y - 1) + (if IsLeap(y - 1) then 366 else 365)
  }

  function DaysBeforeMonth(y: int, m: int): int
    requires 1 <= m <= 12
    decreases m
  {
    if m == 1 then 0 else DaysBeforeMonth(y, m - 1) + DaysIn(y, m - 1)
  }

  function DayNumber(t: Time): int {
    DaysBeforeYear(t.year) + DaysBeforeMonth(t.year, t.month) + t.day - 1
  }

  /** Nanoseconds since the start of year 0; durations are differences of this. */
  function Nanos(t: Time): int {
    (((DayNumber(t) * 24 + t.hour) * 60 + t.minute) * 60 + t.second) * 1_000_000_000 + t.nanos
  }

  lemma {:induction false} MonthsGrow(y: int, m: int, n: int)
    requires 1 <= m < n <= 12
    ensures DaysBeforeMonth(y, m) + DaysIn(y, m) <= DaysBeforeMonth(y, n)
    decreases n
  {
    if m + 1 < n {
      MonthsGrow(y, m, n - 1);
    }
  }

  lemma YearLength(y: int)
    ensures DaysBeforeMonth(y, 12) + DaysIn(y, 12) == if IsLeap(y) then 366 else 365
  {
    assert DaysBeforeMonth(y, 3) == 31 + DaysIn(y, 2);
    assert DaysBeforeMonth(y, 5) == DaysBeforeMonth(y, 3) + 61;
    assert DaysBeforeMonth(y, 7) == DaysBeforeMonth(y, 5) + 61;
    assert DaysBeforeMonth(y, 9) == DaysBeforeMonth(y, 7) + 62;
    assert DaysBeforeMonth(y, 11) == DaysBeforeMonth(y, 9) + 61;
    assert DaysBeforeMonth(y, 12) == DaysBeforeMonth(y, 11) + 30;
  }

  lemma {:induction false} YearsGrow(y: nat, z: nat)
    requires y < z
    ensures DaysBeforeYear(y) + (if IsLeap(y) then 366 else 365) <= DaysBeforeYear(z)
    decreases z
  {
    if y + 1 < z {
      YearsGrow(y, z - 1);
    }
  }

  lemma DayInYear(t: Time)
    ensures 0 <= DaysBeforeMonth(t.year, t.month)
    ensures DaysBeforeMonth(t.year, t.month) + t.day <= if IsLeap(t.year) then 366 else 365
  {
    YearLength(t.year);
    if t.month < 12 {
      MonthsGrow(t.year, t.month, 12);
    }
    if 1 < t.month {
      MonthsGrow(t.year, 1, t.month);
    }
  }

  lemma DaysOrdered(a: Time, b: Time)
    requires || a.year < b.year
             || (a.year == b.year && a.month < b.month)
             || (a.year == b.year && a.month == b.month && a.day < b.day)
    ensures DayNumber(a) + 1 <= DayNumber(b)
  {
    DayInYear(a);
    DayInYear(b);
    if a.year < b.year {
      YearsGrow(a.year, b.year);
    } else if a.month < b.month {
      MonthsGrow(a.year, a.month, b.month);
    }
  }

  lemma BeforeGrows(a: Time, b: Time)
    requires Before(a, b)
    ensures Nanos(a) < Nanos(b)
  {
    if a.year != b.year || a.month != b.month || a.day != b.day {
      DaysOrdered(a, b);
    }
  }

  /** Calendar order is exactly the order of the nanosecond counts, so the
      store's field-wise comparison and the manager's duration arithmetic talk
      about the same time line. */
  lemma NanosOrder(a: Time, b: Time)
    ensures Before(a, b) <==> Nanos(a) < Nanos(b)
    ensures a == b <==> Nanos(a) == Nanos(b)
  {
    if Before(a, b) {
      BeforeGrows(a, b);
    } else if Before(b, a) {
      BeforeGrows(b, a);
    }
  }

  /** Nanoseconds count the time of day within a day, and one day from each day to
      the next, over the ends of months and years. */
  lemma NanosMeans(a: Time, b: Time)
    ensures a.year == b.year && a.month == b.month && a.day == b.day ==>
              Nanos(b) - Nanos(a) ==
              (((b.hour - a.hour) * 60 + b.minute - a.minute) * 60 + b.second - a.second) * 1_000_000_000
              + b.nanos - a.nanos
    ensures var last := if a.month == 2
                        then (if a.year % 4 == 0 && (a.year % 100 != 0 || a.year % 400 == 0) then 29 else 28)
                        else if a.month == 4 || a.month == 6 || a.month == 9 || a.month == 11 then 30 else 31;
            && a.hour == b.hour && a.minute == b.minute && a.second == b.second && a.nanos == b.nanos
            && (|| (a.year == b.year && a.month == b.month && b.day == a.day + 1)
                || (a.year == b.year && b.month == a.month + 1 && a.day == last && b.day == 1)
                || (b.year == a.year + 1 && a.month == 12 && b.month == 1 && a.day == 31 && b.day == 1)) ==>
              Nanos(b) - Nanos(a) == 24 * 60 * 60 * 1_000_000_000
  {
    YearLength(a.year);
    if a.year == b.year && b.month == a.month + 1 {
      assert DaysBeforeMonth(b.year, b.month) == DaysBeforeMonth(a.year, a.month) + DaysIn(a.year, a.month);
    }
  }

  /* ------------------------------------------------------------------ */
  /* Printing                                                             */
  /* ------------------------------------------------------------------ */

  function Pow10(w: nat): (p: int)
    ensures p >= 1
  {
    if w == 0 then 1 else 10 * Pow10(w - 1)
  }

  function DigitChar(d: int): (c: char)
    requires 0 <= d < 10
    ensures '0' <= c <= '9'
  {
    ('0' as int + d) as char
  }

  /** `n` in exactly `w` decimal digits, most significant first. */
  function Digits(n: int, w: nat): (s: string)
    requires 0 <= n < Pow10(w)
    ensures |s| == w
    ensures forall i :: 0 <= i < |s| ==> '0' <= s[i] <= '9'
  {
    if w == 0 then "" else Digits(n / 10, w - 1) + [DigitChar(n % 10)]
  }

  predicate AllZero(s: string) {
    forall i :: 0 <= i < |s| ==> s[i] == '0'
  }

  /** `s` without its trailing zeros. */
  function Trim(s: string): string {
    if AllZero(s) then "" else [s[0]] + Trim(s[1..])
  }

  lemma Pow10Values()
    ensures Pow10(2) == 100 && Pow10(4) == 10_000 && Pow10(9) == 1_000_000_000
  {
    assert Pow10(3) == 1000;
    assert Pow10(5) == 100_000;
    assert Pow10(7) == 10_000_000;
  }

  /** The fraction's digits as they are printed. */
  function FractionDigits(nanos: int): string
    requires 0 <= nanos < 1_000_000_000
  {
    Pow10Values();
    Trim(Digits(nanos, 9))
  }

  function Fraction(nanos: int): string
    requires 0 <= nanos < 1_000_000_000
  {
    if nanos == 0 then "" else "." + FractionDigits(nanos)
  }

  function FormatFrom6(t: Time): string { Fraction(t.nanos) + "Z" }
  function FormatFrom5(t: Time): string { Pow10Values(); Digits(t.second, 2) + FormatFrom6(t) }
  function FormatFrom4(t: Time): string { Pow10Values(); Digits(t.minute, 2) + (":" + FormatFrom5(t)) }
  function FormatFrom3(t: Time): string { Pow10Values(); Digits(t.hour, 2) + (":" + FormatFrom4(t)) }
  function FormatFrom2(t: Time): string { Pow10Values(); Digits(t.day, 2) + ("T" + FormatFrom3(t)) }
  function FormatFrom1(t: Time): string { Pow10Values(); Digits(t.month, 2) + ("-" + FormatFrom2(t)) }

  /** t.UTC().Format(time.RFC3339Nano). */
  function Format(t: Time): string { Pow10Values(); Digits(t.year, 4) + ("-" + FormatFrom1(t)) }

  /* ------------------------------------------------------------------ */
  /* String order against time order                                      */
  /* ------------------------------------------------------------------ */

  /** Byte order of strings, as DynamoDB's `<` compares them. */
  predicate StringLess(a: string, b: string) {
    && b != ""
    && (|| a == ""
        || a[0] < b[0]
        || (a[0] == b[0] && StringLess(a[1..], b[1..])))
  }

  predicate ProperPrefix(a: string, b: string) {
    a < b
  }

  lemma {:induction false} PrefixOrder(p: string, q: string, x: string, y: string)
    requires |p| == |q|
    ensures StringLess(p + x, q + y) <==> StringLess(p, q) || (p == q && StringLess(x, y))
  {
    if p == "" {
      assert p + x == x && q + y == y;
    } else {
      assert (p + x)[1..] == p[1..] + x;
      assert (q + y)[1..] == q[1..] + y;
      PrefixOrder(p[1..], q[1..], x, y);
      if p[0] == q[0] && p[1..] == q[1..] {
        assert p == [p[0]] + p[1..] && q == [q[0]] + q[1..];
      }
    }
  }

  lemma {:induction false} LessIrreflexive(a: string)
    ensures !StringLess(a, a)
  {
    if a != "" {
      LessIrreflexive(a[1..]);
    }
  }

  lemma {:induction false} DigitsOrder(a: int, b: int, w: nat)
    requires 0 <= a < Pow10(w) && 0 <= b < Pow10(w)
    ensures StringLess(Digits(a, w), Digits(b, w)) <==> a < b
    ensures Digits(a, w) == Digits(b, w) <==> a == b
  {
    if w > 0 {
      DigitsOrder(a / 10, b / 10, w - 1);
      var p, q := Digits(a / 10, w - 1), Digits(b / 10, w - 1);
      var x, y := [DigitChar(a % 10)], [DigitChar(b % 10)];
      PrefixOrder(p, q, x, y);
      assert StringLess(x, y) <==> a % 10 < b % 10;
      if p + x == q + y {
        assert (p + x)[..w - 1] == p && (q + y)[..w - 1] == q;
        assert (p + x)[w - 1] == x[0] && (q + y)[w - 1] == y[0];
      }
    }
  }

  /** One fixed-width field followed by the rest decides like a pair. */
  lemma FieldOrder(a: int, b: int, w: nat, x: string, y: string)
    requires 0 <= a < Pow10(w) && 0 <= b < Pow10(w)
    ensures StringLess(Digits(a, w) + x, Digits(b, w) + y) <==> a < b || (a == b && StringLess(x, y))
  {
    DigitsOrder(a, b, w);
    PrefixOrder(Digits(a, w), Digits(b, w), x, y);
  }

  lemma SeparatorOrder(c: string, x: string, y: string)
    requires |c| == 1
    ensures StringLess(c + x, c + y) <==> StringLess(x, y)
  {
    PrefixOrder(c, c, x, y);
    LessIrreflexive(c);
  }

  /** Trimmed digit strings closed by 'Z': a proper prefix sorts after its
      extension, since 'Z' sorts after every digit. */
  lemma {:induction false} TrimOrder(a: string, b: string)
    requires |a| == |b|
    requires forall i :: 0 <= i < |a| ==> '0' <= a[i] <= '9'
    requires forall i :: 0 <= i < |b| ==> '0' <= b[i] <= '9'
    requires StringLess(a, b)
    ensures Trim(b) != ""
    ensures StringLess(Trim(a) + "Z", Trim(b) + "Z") <==> !ProperPrefix(Trim(a), Trim(b))
  {
    if AllZero(b) {
      ZeroLeast(a, b);
    } else {
      var v := Trim(b[1..]);
      assert Trim(b) == [b[0]] + v;
      assert (Trim(b) + "Z")[1..] == v + "Z";
      if AllZero(a) {
        assert Trim(a) + "Z" == "Z";
        assert "" < Trim(b);
      } else {
        var u := Trim(a[1..]);
        assert Trim(a) == [a[0]] + u;
        assert (Trim(a) + "Z")[1..] == u + "Z";
        if a[0] == b[0] {
          TrimOrder(a[1..], b[1..]);
          PrependPrefix(a[0], u, v);
        } else {
          assert a[0] < b[0];
          assert Trim(a)[0] != Trim(b)[0];
        }
      }
    }
  }

  lemma {:induction false} ZeroLeast(a: string, b: string)
    requires |a| == |b| && AllZero(b)
    requires forall i :: 0 <= i < |a| ==> '0' <= a[i]
    ensures !StringLess(a, b)
  {
    if a != "" {
      ZeroLeast(a[1..], b[1..]);
    }
  }

  lemma {:induction false} TrimZero(n: int, w: nat)
    requires 0 <= n < Pow10(w)
    ensures AllZero(Digits(n, w)) <==> n == 0
  {
    if w > 0 {
      TrimZero(n / 10, w - 1);
      var s := Digits(n, w);
      assert s[w - 1] == DigitChar(n % 10);
      assert s[..w - 1] == Digits(n / 10, w - 1);
      if n == 0 {
        assert AllZero(s);
      } else if n % 10 == 0 {
        var k :| 0 <= k < w - 1 && Digits(n / 10, w - 1)[k] != '0';
        assert s[k] != '0';
      }
    }
  }

  lemma FractionOrder(m: int, n: int)
    requires 0 <= m < n < 1_000_000_000
    ensures StringLess(Fraction(m) + "Z", Fraction(n) + "Z")
            <==> !ProperPrefix(FractionDigits(m), FractionDigits(n))
  {
    Pow10Values();
    hide Digits, Pow10;
    TrimZero(m, 9);
    TrimZero(n, 9);
    DigitsOrder(m, n, 9);
    TrimOrder(Digits(m, 9), Digits(n, 9));
    hide Trim;
    var x, y := FractionDigits(m), FractionDigits(n);
    assert Fraction(n) + "Z" == "." + (y + "Z");
    if m == 0 {
      assert Fraction(m) + "Z" == "Z";
      assert x == "" < y;
    } else {
      assert Fraction(m) + "Z" == "." + (x + "Z");
      SeparatorOrder(".", x + "Z", y + "Z");
    }
  }

  /** String order decides as time order does on everything down to the second. */
  lemma SecondsOrder(a: Time, b: Time)
    ensures !SameSecond(a, b) ==> (StringLess(Format(a), Format(b)) <==> Before(a, b))
    ensures SameSecond(a, b) ==>
              (StringLess(Format(a), Format(b)) <==> StringLess(FormatFrom6(a), FormatFrom6(b)))
  {
    Pow10Values();
    FieldOrder(a.second, b.second, 2, FormatFrom6(a), FormatFrom6(b));
    SeparatorOrder(":", FormatFrom5(a), FormatFrom5(b));
    FieldOrder(a.minute, b.minute, 2, ":" + FormatFrom5(a), ":" + FormatFrom5(b));
    SeparatorOrder(":", FormatFrom4(a), FormatFrom4(b));
    FieldOrder(a.hour, b.hour, 2, ":" + FormatFrom4(a), ":" + FormatFrom4(b));
    SeparatorOrder("T", FormatFrom3(a), FormatFrom3(b));
    FieldOrder(a.day, b.day, 2, "T" + FormatFrom3(a), "T" + FormatFrom3(b));
    SeparatorOrder("-", FormatFrom2(a), FormatFrom2(b));
    FieldOrder(a.month, b.month, 2, "-" + FormatFrom2(a), "-" + FormatFrom2(b));
    SeparatorOrder("-", FormatFrom1(a), FormatFrom1(b));
    FieldOrder(a.year, b.year, 4, "-" + FormatFrom1(a), "-" + FormatFrom1(b));
  }

  /** The pairs on which the printed strings sort the wrong way round. */
  predicate Misordered(earlier: Time, later: Time) {
    && SameSecond(earlier, later)
    && ProperPrefix(FractionDigits(earlier.nanos), FractionDigits(later.nanos))
  }

  /** For a before b, the printed strings agree with time order exactly when
      not (same second, and a's fraction digits a proper prefix of b's). */
  lemma PrintedOrder(a: Time, b: Time)
    requires Before(a, b)
    ensures StringLess(Format(a), Format(b)) <==> !Misordered(a, b)
  {
    SecondsOrder(a, b);
    if SameSecond(a, b) {
      FractionOrder(a.nanos, b.nanos);
    }
  }

  lemma {:induction false} LessAsymmetric(a: string, b: string)
    requires StringLess(a, b)
    ensures !StringLess(b, a)
  {
    if a != "" && a[0] == b[0] {
      LessAsymmetric(a[1..], b[1..]);
    }
  }

  lemma {:induction false} LessTotal(a: string, b: string)
    ensures StringLess(a, b) || StringLess(b, a) || a == b
  {
    if a != "" && b != "" && a[0] == b[0] {
      LessTotal(a[1..], b[1..]);
      assert a == [a[0]] + a[1..] && b == [b[0]] + b[1..];
    }
  }

  /** The sweep query's `requested_at < :t`, for every row time and cutoff: it
      selects a row that is not past the cutoff, or misses one that is, exactly
      when the pair is misordered within one second. */
  lemma QueryOrder(row: Time, cutoff: Time)
    ensures StringLess(Format(row), Format(cutoff))
            <==> (Before(row, cutoff) && !Misordered(row, cutoff)) || Misordered(cutoff, row)
  {
    if Before(row, cutoff) {
      PrintedOrder(row, cutoff);
      if Misordered(cutoff, row) {
        PrefixLength(row, cutoff);
      }
    } else if Before(cutoff, row) {
      PrintedOrder(cutoff, row);
      LessTotal(Format(row), Format(cutoff));
      RoundTrip(row);
      RoundTrip(cutoff);
      if StringLess(Format(cutoff), Format(row)) {
        LessAsymmetric(Format(cutoff), Format(row));
      }
    } else {
      assert row == cutoff;
      LessIrreflexive(Format(row));
    }
  }

  /** The later of two times in one second is never the shorter prefix. */
  lemma PrefixLength(a: Time, b: Time)
    requires Before(a, b)
    ensures !Misordered(b, a)
  {
    if SameSecond(a, b) {
      Pow10Values();
      DigitsOrder(a.nanos, b.nanos, 9);
      NoReversePrefix(Digits(a.nanos, 9), Digits(b.nanos, 9));
    }
  }

  /** A misordered pair is in time order. */
  lemma MisorderedBefore(a: Time, b: Time)
    ensures Misordered(a, b) ==> Before(a, b)
  {
    if Before(b, a) {
      PrefixLength(b, a);
    }
  }

  lemma PrependPrefix(c: char, x: string, y: string)
    ensures ProperPrefix([c] + x, [c] + y) <==> ProperPrefix(x, y)
  {
    assert ([c] + x)[1..] == x && ([c] + y)[1..] == y;
    if [c] + x < [c] + y {
      assert forall i :: 0 <= i < |x| ==> x[i] == ([c] + x)[i + 1] == ([c] + y)[i + 1] == y[i];
    }
  }

  lemma {:induction false} NoReversePrefix(a: string, b: string)
    requires |a| == |b| && StringLess(a, b)
    requires forall i :: 0 <= i < |a| ==> '0' <= a[i]
    ensures !(Trim(b) < Trim(a))
  {
    if AllZero(a) {
    } else if AllZero(b) {
      ZeroLeast(a, b);
    } else {
      assert Trim(a)[0] == a[0] && Trim(b)[0] == b[0];
      if a[0] == b[0] {
        NoReversePrefix(a[1..], b[1..]);
        PrependPrefix(a[0], Trim(b[1..]), Trim(a[1..]));
      }
    }
  }

  /* ------------------------------------------------------------------ */
  /* Parsing                                                              */
  /* ------------------------------------------------------------------ */

  predicate IsDigit(c: char) {
    '0' <= c <= '9'
  }

  /** The value of a run of digits. */
  function Value(s: string): (n: int)
    requires forall i :: 0 <= i < |s| ==> IsDigit(s[i])
    ensures 0 <= n < Pow10(|s|)
  {
    if s == "" then 0
    else
      assert IsDigit(s[|s| - 1]);
      10 * Value(s[..|s| - 1]) + (s[|s| - 1] as int - '0' as int)
  }

  /** Reads a `w`-digit number off the front. */
  function TakeNumber(s: string, w: nat): Option<(int, string)> {
    if |s| >= w && (forall i :: 0 <= i < w ==> IsDigit(s[i]))
    then Some((Value(s[..w]), s[w..]))
    else None
  }

  function TakeChar(s: string, c: char): Option<string> {
    if s != "" && s[0] == c then Some(s[1..]) else None
  }

  /** Reads the longest run of digits off the front. */
  function DigitRun(s: string): (n: nat)
    ensures n <= |s|
    ensures forall i :: 0 <= i < n ==> IsDigit(s[i])
    ensures n < |s| ==> !IsDigit(s[n])
  {
    if s == "" || !IsDigit(s[0]) then 0 else 1 + DigitRun(s[1..])
  }

  /** `s` padded with zeros to nine digits. */
  function Pad9(s: string): (p: string)
    requires |s| <= 9
    ensures |p| == 9 && p[..|s|] == s
    ensures forall i :: |s| <= i < 9 ==> p[i] == '0'
    ensures (forall i :: 0 <= i < |s| ==> IsDigit(s[i])) ==> forall i :: 0 <= i < 9 ==> IsDigit(p[i])
    decreases 9 - |s|
  {
    if |s| == 9 then s else Pad9(s + "0")
  }

  /** The optional fraction: a point and one to nine digits. */
  function TakeFraction(s: string): Option<(int, string)> {
    if s == "" || s[0] != '.' then Some((0, s))
    else
      var n := DigitRun(s[1..]);
      if 1 <= n <= 9 then
        Some((Value(Pad9(s[1..n + 1])), s[n + 1..]))
      else None
  }

  /** A number and the character that must follow it. */
  function TakeField(s: string, w: nat, sep: char): Option<(int, string)> {
    match TakeNumber(s, w)
    case None => None
    case Some(p) =>
      match TakeChar(p.1, sep)
      case None => None
      case Some(rest) => Some((p.0, rest))
  }

  function ParseTail(year: int, month: int, day: int, s: string): Option<Timestamp> {
    match TakeField(s, 2, ':')
    case None => None
    case Some(h) =>
      match TakeField(h.1, 2, ':')
      case None => None
      case Some(m) =>
        match TakeNumber(m.1, 2)
        case None => None
        case Some(sec) =>
          match TakeFraction(sec.1)
          case None => None
          case Some(f) =>
            if f.1 == "Z" then Some(Timestamp(year, month, day, h.0, m.0, sec.0, f.0)) else None
  }

  /** time.Parse(time.RFC3339, s) on UTC input. */
  function Parse(s: string): (r: Option<Timestamp>)
    ensures r.Some? ==> ValidTime(r.value)
  {
    match TakeField(s, 4, '-')
    case None => None
    case Some(y) =>
      match TakeField(y.1, 2, '-')
      case None => None
      case Some(mo) =>
        match TakeField(mo.1, 2, 'T')
        case None => None
        case Some(d) =>
          match ParseTail(y.0, mo.0, d.0, d.1)
          case None => None
          case Some(t) => if ValidTime(t) then Some(t) else None
  }

  lemma {:induction false} ValueOfDigits(n: int, w: nat)
    requires 0 <= n < Pow10(w)
    ensures Value(Digits(n, w)) == n
  {
    if w > 0 {
      ValueOfDigits(n / 10, w - 1);
      assert Digits(n, w)[..w - 1] == Digits(n / 10, w - 1);
    }
  }

  lemma TakeDigits(n: int, w: nat, rest: string)
    requires 0 <= n < Pow10(w)
    ensures TakeNumber(Digits(n, w) + rest, w) == Some((n, rest))
  {
    ValueOfDigits(n, w);
    var s := Digits(n, w) + rest;
    assert s[..w] == Digits(n, w) && s[w..] == rest;
  }

  lemma TakeDigitsField(n: int, w: nat, sep: char, rest: string)
    requires 0 <= n < Pow10(w)
    ensures TakeField(Digits(n, w) + ([sep] + rest), w, sep) == Some((n, rest))
  {
    TakeDigits(n, w, [sep] + rest);
    assert ([sep] + rest)[1..] == rest;
  }

  lemma {:induction false} TrimIsPrefix(s: string)
    ensures |Trim(s)| <= |s| && s[..|Trim(s)|] == Trim(s)
    ensures forall i :: |Trim(s)| <= i < |s| ==> s[i] == '0'
  {
    if !AllZero(s) {
      TrimIsPrefix(s[1..]);
      assert s == [s[0]] + s[1..];
    }
  }

  lemma {:induction false} RunThenOther(d: string, rest: string)
    requires forall i :: 0 <= i < |d| ==> IsDigit(d[i])
    requires rest != "" && !IsDigit(rest[0])
    ensures DigitRun(d + rest) == |d|
  {
    if d == "" {
      assert d + rest == rest;
    } else {
      RunThenOther(d[1..], rest);
      assert (d + rest)[1..] == d[1..] + rest;
    }
  }

  lemma TakeRun(d: string)
    requires 1 <= |d| <= 9
    requires forall i :: 0 <= i < |d| ==> IsDigit(d[i])
    ensures TakeFraction("." + (d + "Z")) == Some((Value(Pad9(d)), "Z"))
  {
    RunThenOther(d, "Z");
    var s := "." + (d + "Z");
    assert s[1..] == d + "Z";
    assert s[1..|d| + 1] == d && s[|d| + 1..] == "Z";
  }

  lemma TakePrintedFraction(n: int)
    requires 0 <= n < 1_000_000_000
    ensures TakeFraction(Fraction(n) + "Z") == Some((n, "Z"))
  {
    if n == 0 {
      assert Fraction(n) + "Z" == "Z";
    } else {
      Pow10Values();
      var full, d := Digits(n, 9), FractionDigits(n);
      TrimIsPrefix(full);
      TrimZero(n, 9);
      assert d != "";
      assert Fraction(n) + "Z" == "." + (d + "Z");
      assert forall i :: 0 <= i < |d| ==> d[i] == full[..|d|][i];
      TakeRun(d);
      PadRestores(full, d);
      ValueOfDigits(n, 9);
    }
  }

  lemma PadRestores(full: string, d: string)
    requires |full| == 9 && |d| <= 9 && full[..|d|] == d
    requires forall i :: |d| <= i < 9 ==> full[i] == '0'
    ensures Pad9(d) == full
  {
    var p := Pad9(d);
    forall i | 0 <= i < 9
      ensures p[i] == full[i]
    {
      if i < |d| {
        assert p[i] == p[..|d|][i] && full[i] == full[..|d|][i];
      }
    }
  }

  lemma TailRoundTrip(t: Time)
    ensures ParseTail(t.year, t.month, t.day, FormatFrom3(t)) == Some(t)
  {
    Pow10Values();
    TakeDigitsField(t.hour, 2, ':', FormatFrom4(t));
    TakeDigitsField(t.minute, 2, ':', FormatFrom5(t));
    TakeDigits(t.second, 2, FormatFrom6(t));
    TakePrintedFraction(t.nanos);
  }

  /** Printing then parsing gives the time back. */
  lemma RoundTrip(t: Time)
    ensures Parse(Format(t)) == Some(t)
  {
    Pow10Values();
    TakeDigitsField(t.year, 4, '-', FormatFrom1(t));
    TakeDigitsField(t.month, 2, '-', FormatFrom2(t));
    TakeDigitsField(t.day, 2, 'T', FormatFrom3(t));
    TailRoundTrip(t);
  }

  /** A sort key rebuilt from a scanned row is the key the row was stored under. */
  lemma PrintParsePrint(t: Time)
    ensures Parse(Format(t)).Some? && Format(Parse(Format(t)).value) == Format(t)
  {
    RoundTrip(t);
  }

  /* ------------------------------------------------------------------ */
  /* The layout                                                           */
  /* ------------------------------------------------------------------ */

  /** Two characters of a string are the two decimal digits of n. */
  predicate TwoAt(s: string, i: nat, n: int) {
    && i + 1 < |s| && IsDigit(s[i]) && IsDigit(s[i + 1])
    && n == 10 * (s[i] as int - '0' as int) + (s[i + 1] as int - '0' as int)
  }

  lemma TwoDigits(n: int)
    requires 0 <= n < 100
    ensures Pow10(2) == 100 && TwoAt(Digits(n, 2), 0, n)
  {
    Pow10Values();
    assert Digits(n / 10, 1) == [DigitChar(n / 10)] by {
      assert Digits(n / 10 / 10, 0) == "";
    }
  }

  lemma FourDigits(n: int)
    requires 0 <= n < 10_000
    ensures Pow10(4) == 10_000 && TwoAt(Digits(n, 4), 0, n / 100) && TwoAt(Digits(n, 4), 2, n % 100)
  {
    Pow10Values();
    assert Pow10(3) == 1000 && n / 10 / 10 == n / 100;
    TwoDigits(n / 100);
    assert Digits(n, 4) == Digits(n / 100, 2) + [DigitChar(n / 10 % 10)] + [DigitChar(n % 10)];
  }

  lemma TwoThere(s: string, i: nat, t: string, k: nat, n: int)
    requires TwoAt(t, k, n) && i + 1 < |s| && s[i] == t[k] && s[i + 1] == t[k + 1]
    ensures TwoAt(s, i, n)
  {
  }

  /** What a printed time looks like, character by character (sections 5.6 and 5.8
      of RFC 3339): fixed places for the fields, 'Z' at the end, and a fraction
      exactly when it is not zero, without trailing zeros. */
  lemma FormatMeans(t: Time)
    ensures var s := Format(t);
            && |s| >= 20 && s[4] == '-' && s[7] == '-' && s[10] == 'T' && s[13] == ':' && s[16] == ':'
            && s[|s| - 1] == 'Z'
            && TwoAt(s, 0, t.year / 100) && TwoAt(s, 2, t.year % 100) && TwoAt(s, 5, t.month)
            && TwoAt(s, 8, t.day) && TwoAt(s, 11, t.hour) && TwoAt(s, 14, t.minute) && TwoAt(s, 17, t.second)
            && (t.nanos == 0 <==> |s| == 20)
            && (t.nanos != 0 ==>
                  && 22 <= |s| <= 30 && s[19] == '.' && s[|s| - 2] != '0'
                  && (forall i :: 20 <= i < |s| - 1 ==> IsDigit(s[i]))
                  && Value(Pad9(s[20..|s| - 1])) == t.nanos)
  {
    FieldsMean(t);
    var s, f := Format(t), Fraction(t.nanos);
    hide Format, Fraction, Value, Pad9;
    assert forall i :: 0 <= i <= |f| ==> s[19 + i] == (f + "Z")[i] by {
      assert forall i :: 0 <= i <= |f| ==> s[19 + i] == s[19..][i];
    }
    if t.nanos != 0 {
      FractionMeans(t.nanos);
      assert s[20..|s| - 1] == f[1..];
    } else {
      assert f == "" by { NoFraction(); }
    }
  }

  lemma NoFraction()
    ensures Fraction(0) == ""
  {
  }

  lemma FieldsMean(t: Time)
    ensures var s := Format(t);
            && |s| >= 19 && s[4] == '-' && s[7] == '-' && s[10] == 'T' && s[13] == ':' && s[16] == ':'
            && TwoAt(s, 0, t.year / 100) && TwoAt(s, 2, t.year % 100) && TwoAt(s, 5, t.month)
            && TwoAt(s, 8, t.day) && TwoAt(s, 11, t.hour) && TwoAt(s, 14, t.minute) && TwoAt(s, 17, t.second)
            && s[19..] == Fraction(t.nanos) + "Z"
  {
    FourDigits(t.year);
    TwoDigits(t.month);
    TwoDigits(t.day);
    TwoDigits(t.hour);
    TwoDigits(t.minute);
    TwoDigits(t.second);
    hide Pow10, Fraction, Digits, TwoAt;
    var y, mo, d := Digits(t.year, 4), Digits(t.month, 2), Digits(t.day, 2);
    var h, mi, se := Digits(t.hour, 2), Digits(t.minute, 2), Digits(t.second, 2);
    Layout(y, mo, d, h, mi, se, Fraction(t.nanos) + "Z");
    var s := Format(t);
    TwoThere(s, 0, y, 0, t.year / 100);
    TwoThere(s, 2, y, 2, t.year % 100);
    TwoThere(s, 5, mo, 0, t.month);
    TwoThere(s, 8, d, 0, t.day);
    TwoThere(s, 11, h, 0, t.hour);
    TwoThere(s, 14, mi, 0, t.minute);
    TwoThere(s, 17, se, 0, t.second);
  }

  lemma Layout(y: string, mo: string, d: string, h: string, mi: string, se: string, f: string)
    requires |y| == 4 && |mo| == 2 && |d| == 2 && |h| == 2 && |mi| == 2 && |se| == 2
    ensures var s := y + ("-" + (mo + ("-" + (d + ("T" + (h + (":" + (mi + (":" + (se + f))))))))));
            && |s| == 19 + |f| && s[4] == '-' && s[7] == '-' && s[10] == 'T' && s[13] == ':' && s[16] == ':'
            && s[0] == y[0] && s[1] == y[1] && s[2] == y[2] && s[3] == y[3]
            && s[5] == mo[0] && s[6] == mo[1] && s[8] == d[0] && s[9] == d[1] && s[11] == h[0] && s[12] == h[1]
            && s[14] == mi[0] && s[15] == mi[1] && s[17] == se[0] && s[18] == se[1] && s[19..] == f
  {
  }

  lemma FractionMeans(n: int)
    requires 0 < n < 1_000_000_000
    ensures FractionShape(Fraction(n), n)
  {
    Pow10Values();
    var full, d := Digits(n, 9), FractionDigits(n);
    TrimZero(n, 9);
    ValueOfDigits(n, 9);
    hide Digits, Value, Pow10, Fraction, FractionShape;
    TrimmedMeans(full, d, n);
    assert Fraction(n) == "." + d by { PointThenDigits(n); }
  }

  lemma PointThenDigits(n: int)
    requires 0 < n < 1_000_000_000
    ensures Fraction(n) == "." + FractionDigits(n)
  {
    hide FractionDigits;
  }

  /** A point and digits that stand for n billionths, the last not zero. */
  predicate FractionShape(f: string, n: int) {
    && 2 <= |f| <= 10 && f[0] == '.' && f[|f| - 1] != '0'
    && (forall i :: 1 <= i < |f| ==> IsDigit(f[i])) && Value(Pad9(f[1..])) == n
  }

  lemma TrimmedMeans(full: string, d: string, n: int)
    requires |full| == 9 && d == Trim(full) && d != "" && forall i :: 0 <= i < 9 ==> IsDigit(full[i])
    requires Value(full) == n
    ensures FractionShape("." + d, n)
  {
    TrimIsPrefix(full);
    TrimLast(full);
    hide Trim, Value, Pad9;
    PadRestores(full, d);
    var f := "." + d;
    assert f[1..] == d;
    assert forall i :: 0 <= i < |d| ==> d[i] == full[..|d|][i] == full[i];
    assert forall i :: 1 <= i < |f| ==> f[i] == d[i - 1];
  }

  lemma {:induction false} TrimLast(s: string)
    ensures Trim(s) != "" ==> Trim(s)[|Trim(s)| - 1] != '0'
  {
    if !AllZero(s) {
      TrimLast(s[1..]);
      if Trim(s[1..]) == "" {
        TrimIsPrefix(s[1..]);
        assert AllZero(s[1..]);
        assert s[0] != '0' by {
          assert forall i :: 0 < i < |s| ==> s[i] == s[1..][i - 1];
        }
      }
    }
  }
}
