/** Run ids and the instants they name (crates/mandala-core/src/registry.rs). An id is a UTC
    timestamp with microseconds, a hyphen and a process id; its order as text has to be its order
    in time. */
module RunId {
  import opened Order

  predicate Digits(s: string) {
    forall i :: 0 <= i < |s| ==> '0' <= s[i] <= '9'
  }

  function Num(s: string): nat
    requires Digits(s)
  {
    if s == [] then 0 else 10 * Num(s[..|s| - 1]) + (s[|s| - 1] - '0') as nat
  }

  // ---- the calendar ----

  predicate Leap(year: nat) {
    year % 4 == 0 && (year % 100 != 0 || year % 400 == 0)
  }

  function MonthLength(year: nat, month: nat): nat {
    if month == 2 then (if Leap(year) then 29 else 28)
    else if month in {4, 6, 9, 11} then 30 else 31
  }

  function YearLength(year: nat): nat {
    if Leap(year) then 366 else 365
  }

  function DaysBeforeYear(year: nat): nat {
    if year == 0 then 0 else DaysBeforeYear(year - 1) + YearLength(year - 1)
  }

  function DaysBeforeMonth(year: nat, month: nat): nat {
    if month <= 1 then 0 else DaysBeforeMonth(year, month - 1) + MonthLength(year, month - 1)
  }

  /** The Gregorian calendar: every fourth year has a day more, but for three centuries out of four. */
  lemma {:induction false} YearsAreGregorian(year: nat)
    ensures DaysBeforeYear(year) == 365 * year + (year + 3) / 4 - (year + 99) / 100 + (year + 399) / 400
    decreases year
  {
    if year > 0 {
      YearsAreGregorian(year - 1);
      OneMoreYear(year - 1);
    }
  }

  lemma OneMoreYear(x: nat)
    ensures (x + 4) / 4 - (x + 3) / 4 == (if x % 4 == 0 then 1 else 0)
    ensures (x + 100) / 100 - (x + 99) / 100 == (if x % 100 == 0 then 1 else 0)
    ensures (x + 400) / 400 - (x + 399) / 400 == (if x % 400 == 0 then 1 else 0)
    ensures (x % 400 == 0 ==> x % 100 == 0) && (x % 100 == 0 ==> x % 4 == 0)
  {
    EveryFourth(x);
    EveryHundredth(x);
    EveryFourHundredth(x);
    Centuries(x);
  }

  lemma EveryFourth(x: nat)
    ensures (x + 4) / 4 - (x + 3) / 4 == (if x % 4 == 0 then 1 else 0)
  {
  }

  lemma EveryHundredth(x: nat)
    ensures (x + 100) / 100 - (x + 99) / 100 == (if x % 100 == 0 then 1 else 0)
  {
  }

  lemma EveryFourHundredth(x: nat)
    ensures (x + 400) / 400 - (x + 399) / 400 == (if x % 400 == 0 then 1 else 0)
  {
  }

  lemma Centuries(x: nat)
    ensures (x % 400 == 0 ==> x % 100 == 0) && (x % 100 == 0 ==> x % 4 == 0)
  {
    if x % 400 == 0 {
      NoRemainder(x, 4 * (x / 400), 100);
    }
    if x % 100 == 0 {
      NoRemainder(x, 25 * (x / 100), 4);
    }
  }

  lemma NoRemainder(x: nat, q: nat, n: nat)
    requires 0 < n && x == q * n
    ensures x % n == 0
  {
    RemainderBelow(q, x / n, x % n, n);
  }

  lemma {:induction false} RemainderBelow(q: nat, p: nat, r: nat, n: nat)
    requires q * n == p * n + r && r < n
    ensures r == 0
    decreases q
  {
    if q > 0 && p > 0 {
      assert (q - 1) * n == q * n - n && (p - 1) * n == p * n - n;
      RemainderBelow(q - 1, p - 1, r, n);
    }
  }

  datatype Stamp = Stamp(year: nat, month: nat, day: nat, hour: nat, minute: nat, second: nat, micros: nat)

  predicate OnCalendar(s: Stamp) {
    && 1 <= s.month <= 12 && 1 <= s.day <= MonthLength(s.year, s.month)
    && s.hour <= 23 && s.minute <= 59 && s.second <= 60 && s.micros < 1_000_000
  }

  predicate Earlier(a: Stamp, b: Stamp) {
    || a.year < b.year
    || (a.year == b.year
        && (a.month < b.month || (a.month == b.month && (a.day < b.day || (a.day == b.day && Sooner(a, b))))))
  }

  predicate Sooner(a: Stamp, b: Stamp) {
    || a.hour < b.hour
    || (a.hour == b.hour
        && (a.minute < b.minute
            || (a.minute == b.minute
                && (a.second < b.second || (a.second == b.second && a.micros < b.micros)))))
  }

  // ---- the grammar ----

  predicate Shaped(id: string) {
    && |id| >= 24 && id[8] == 'T' && id[15] == '_' && id[22] == '-'
    && Digits(id[0..8]) && Digits(id[9..15]) && Digits(id[16..22]) && Digits(id[23..])
  }

  lemma Slices(id: string, i: nat, j: nat)
    requires Shaped(id) && i <= j <= 22 && (j <= 8 || 9 <= i <= j <= 15 || 16 <= i)
    ensures Digits(id[i..j])
  {
    var base := if j <= 8 then id[0..8] else if 16 <= i then id[16..22] else id[9..15];
    var k := if j <= 8 then 0 else if 16 <= i then 16 else 9;
    forall n | 0 <= n < j - i ensures '0' <= id[i..j][n] <= '9' {
      assert id[i..j][n] == base[i - k + n];
    }
  }

  function StampOf(id: string): Stamp
    requires Shaped(id)
  {
    Slices(id, 0, 4); Slices(id, 4, 6); Slices(id, 6, 8);
    Slices(id, 9, 11); Slices(id, 11, 13); Slices(id, 13, 15); Slices(id, 16, 22);
    Stamp(Num(id[0..4]), Num(id[4..6]), Num(id[6..8]), Num(id[9..11]),
          Num(id[11..13]), Num(id[13..15]), Num(id[16..22]))
  }

  const U64_MAX: nat := 0xFFFF_FFFF_FFFF_FFFF

  function Saturated(n: nat): nat {
    if n > U64_MAX then U64_MAX else n
  }

  function Digit(c: char): nat
    requires '0' <= c <= '9'
  {
    (c - '0') as nat
  }

  /** One step of the fold in 64 bits: the multiplication saturates, the addition wraps, as it does
      when overflow is not trapped. */
  function FoldStep(n: nat, digit: nat): nat {
    var sum := Saturated(10 * n) + digit;
    if sum <= U64_MAX then sum else sum - (U64_MAX + 1)
  }

  /** The fold over the process digits. */
  function Folded(s: string): nat
    requires Digits(s)
  {
    if s == [] then 0 else FoldStep(Folded(s[..|s| - 1]), Digit(s[|s| - 1]))
  }

  /** Some addition of the fold leaves 64 bits. */
  predicate Overflows(s: string)
    requires Digits(s)
  {
    s != [] && (Overflows(s[..|s| - 1]) || Saturated(10 * Folded(s[..|s| - 1])) + Digit(s[|s| - 1]) > U64_MAX)
  }

  /** `is_valid_run_id`. */
  predicate IsRunId(id: string) {
    Shaped(id) && OnCalendar(StampOf(id)) && Folded(id[23..]) > 0
  }

  // ---- what the fold makes of a number ----

  lemma FoldedFits(s: string)
    requires Digits(s)
    ensures Folded(s) <= U64_MAX
  {
    if s != [] {
      StepFits(Folded(s[..|s| - 1]), Digit(s[|s| - 1]));
    }
  }

  /** One wrap is enough: what is added is a single digit. */
  lemma StepFits(n: nat, digit: nat)
    requires digit < 10
    ensures FoldStep(n, digit) <= U64_MAX && FoldStep(n, digit) == (Saturated(10 * n) + digit) % (U64_MAX + 1)
  {
  }

  lemma StepThatFits(n: nat, digit: nat)
    requires 10 * n + digit <= U64_MAX
    ensures FoldStep(n, digit) == 10 * n + digit && Saturated(10 * n) + digit <= U64_MAX
  {
  }

  lemma StepThatSaturates(n: nat, digit: nat)
    requires Saturated(10 * Saturated(n)) + digit <= U64_MAX
    ensures FoldStep(Saturated(n), digit) == Saturated(10 * n + digit)
  {
  }

  lemma StepThatWraps(n: nat, digit: nat)
    requires n <= U64_MAX && digit < 10 && Saturated(10 * n) + digit > U64_MAX
    ensures FoldStep(n, digit) < 9
  {
  }

  lemma {:induction false} SmallNumbersFold(s: string)
    requires Digits(s) && Num(s) <= U64_MAX
    ensures Folded(s) == Num(s) && !Overflows(s)
    decreases |s|
  {
    if s != [] {
      SmallNumbersFold(s[..|s| - 1]);
      StepThatFits(Num(s[..|s| - 1]), Digit(s[|s| - 1]));
    }
  }

  /** The fold is the number the digits write exactly up to 64 bits. */
  lemma FoldIsTheNumber(s: string)
    requires Digits(s)
    ensures Folded(s) == Num(s) <==> Num(s) <= U64_MAX
  {
    FoldedFits(s);
    if Num(s) <= U64_MAX {
      SmallNumbersFold(s);
    }
  }

  /** As long as no addition overflows, the fold is the number, or the largest of 64 bits. */
  lemma {:induction false} FoldSaturates(s: string)
    requires Digits(s) && !Overflows(s)
    ensures Folded(s) == Saturated(Num(s))
    decreases |s|
  {
    if s != [] {
      FoldSaturates(s[..|s| - 1]);
      StepThatSaturates(Num(s[..|s| - 1]), Digit(s[|s| - 1]));
    }
  }

  /** The digits without the zeros at the end. */
  function Stripped(s: string): (r: string)
    requires Digits(s)
    ensures r <= s && Digits(r) && (r != [] ==> r[|r| - 1] != '0')
  {
    if s != [] && s[|s| - 1] == '0' then Stripped(s[..|s| - 1]) else s
  }

  /** Some addition overflows exactly when the number does not fit 64 bits even without the zeros at
      its end. */
  lemma {:induction false} OverflowsIff(s: string)
    requires Digits(s)
    ensures Overflows(s) <==> Num(Stripped(s)) > U64_MAX
    decreases |s|
  {
    if s != [] {
      var before, digit := s[..|s| - 1], Digit(s[|s| - 1]);
      if digit == 0 {
        OverflowsIff(before);
        FoldedFits(before);
      } else if Num(s) <= U64_MAX {
        SmallNumbersFold(s);
      } else if !Overflows(before) {
        FoldSaturates(before);
        LargeSumLeaves(Num(before), digit);
      }
    }
  }

  lemma LargeSumLeaves(n: nat, digit: nat)
    requires 10 * n + digit > U64_MAX && 0 < digit
    ensures Saturated(10 * Saturated(n)) + digit > U64_MAX
  {
  }

  /** Which numbers a digit sends to zero. */
  lemma StepIsZeroIff(n: nat, digit: nat)
    requires n <= U64_MAX && digit < 10
    ensures FoldStep(n, digit) == 0 <==>
            (n == 0 && digit == 0) || (n == U64_MAX / 10 && digit == 6) || (n > U64_MAX / 10 && digit == 1)
  {
  }

  /** The last digit that is no zero wraps the fold to zero: a 6 behind the largest number that can
      be multiplied in 64 bits, or a 1 behind a larger one. */
  predicate WrapsToZero(s: string)
    requires Digits(s)
  {
    var z := Stripped(s);
    z != []
    && ((Folded(z[..|z| - 1]) == U64_MAX / 10 && z[|z| - 1] == '6')
        || (Folded(z[..|z| - 1]) > U64_MAX / 10 && z[|z| - 1] == '1'))
  }

  /** The fold is zero for the number zero, and for those whose last digit wraps it there. */
  lemma {:induction false} FoldIsZeroIff(s: string)
    requires Digits(s)
    ensures Folded(s) == 0 <==> Num(s) == 0 || WrapsToZero(s)
    ensures Num(s) == 0 ==> !WrapsToZero(s)
    decreases |s|
  {
    if s != [] {
      var before, digit := s[..|s| - 1], Digit(s[|s| - 1]);
      FoldedFits(before);
      StepIsZeroIff(Folded(before), digit);
      if digit == 0 {
        FoldIsZeroIff(before);
      }
    }
  }

  /** Exactly these positive process numbers are refused. */
  lemma PositiveNumberIsRefusedIff(id: string)
    requires Shaped(id) && OnCalendar(StampOf(id))
    ensures !IsRunId(id) && Num(id[23..]) > 0 <==> WrapsToZero(id[23..])
  {
    FoldIsZeroIff(id[23..]);
  }

  /** Of the numbers up to ten times 64 bits these are 2^64 and the larger ones that end in 1. */
  lemma PositiveNumberIsRefusedIffItEndsInOne(id: string)
    requires Shaped(id) && OnCalendar(StampOf(id)) && Num(id[23..]) / 10 <= U64_MAX
    ensures var n := Num(id[23..]);
            !IsRunId(id) && n > 0 <==> n == U64_MAX + 1 || (n > U64_MAX + 1 && n % 10 == 1)
  {
    var s := id[23..];
    var before, digit := s[..|s| - 1], Digit(s[|s| - 1]);
    assert Num(s) / 10 == Num(before) && Num(s) % 10 == digit;
    SmallNumbersFold(before);
    StepIsZeroIff(Num(before), digit);
  }

  lemma OneDigit(n: nat)
    requires n < 10
    ensures var first := [('0' as int + n) as char]; Digits(first) && Folded(first) == n
  {
    var first := [('0' as int + n) as char];
    assert first[..0] == [];
    StepThatFits(0, n);
  }

  /** An overflow leaves one digit, and the fold goes on as if the number had begun with it. */
  lemma OverflowStartsAnew(s: string, rest: string)
    requires Digits(s) && Digits(rest) && s != []
    requires Saturated(10 * Folded(s[..|s| - 1])) + Digit(s[|s| - 1]) > U64_MAX
    ensures Folded(s) < 9
    ensures var first := [('0' as int + Folded(s)) as char];
            Digits(first + rest) && Digits(s + rest) && Folded(s + rest) == Folded(first + rest)
  {
    FoldedFits(s[..|s| - 1]);
    StepThatWraps(Folded(s[..|s| - 1]), Digit(s[|s| - 1]));
    OneDigit(Folded(s));
    FoldAppends(s, rest);
    FoldAppends([('0' as int + Folded(s)) as char], rest);
  }

  lemma FoldOneOn(s: string, c: char)
    requires Digits(s) && '0' <= c <= '9'
    ensures Digits(s + [c]) && Folded(s + [c]) == FoldStep(Folded(s), Digit(c))
  {
    assert (s + [c])[..|s + [c]| - 1] == s;
  }

  /** The fold goes on from a number. */
  function FoldFrom(n: nat, rest: string): nat
    requires Digits(rest)
  {
    if rest == [] then n else FoldStep(FoldFrom(n, rest[..|rest| - 1]), Digit(rest[|rest| - 1]))
  }

  lemma LastOne(s: string, rest: string)
    requires rest != []
    ensures s + rest == (s + rest[..|rest| - 1]) + [rest[|rest| - 1]]
  {
  }

  lemma {:induction false} FoldAppends(s: string, rest: string)
    requires Digits(s) && Digits(rest)
    ensures Digits(s + rest) && Folded(s + rest) == FoldFrom(Folded(s), rest)
    decreases |rest|
  {
    if rest == [] {
      assert s + rest == s;
    } else {
      FoldAppends(s, rest[..|rest| - 1]);
      LastOne(s, rest);
      FoldOneOn(s + rest[..|rest| - 1], rest[|rest| - 1]);
    }
  }

  /** Among process numbers of 64 bits exactly zero is refused. */
  lemma OrdinaryIdsAreJudgedByNumber(id: string)
    requires Shaped(id) && Num(id[23..]) <= U64_MAX
    ensures IsRunId(id) <==> OnCalendar(StampOf(id)) && Num(id[23..]) > 0
  {
    SmallNumbersFold(id[23..]);
  }

  // ---- text order is field order ----

  /** Text order looks at a prefix first, then at what follows it. */
  lemma {:induction false} OrderSplits(s: string, t: string, k: nat)
    requires k <= |s| && k <= |t|
    ensures Less(s, t) <==> Less(s[..k], t[..k]) || (s[..k] == t[..k] && Less(s[k..], t[k..]))
    decreases k
  {
    if k > 0 {
      OrderSplits(s[1..], t[1..], k - 1);
      assert s[..k][1..] == s[1..][..k - 1] && t[..k][1..] == t[1..][..k - 1];
      assert s[1..][k - 1..] == s[k..] && t[1..][k - 1..] == t[k..];
      assert s[..k] == [s[0]] + s[1..][..k - 1] && t[..k] == [t[0]] + t[1..][..k - 1];
    } else {
      assert s[0..] == s && t[0..] == t;
    }
  }

  /** Digit strings of one length compare as the numbers they write. */
  lemma {:induction false} DigitsCompareAsNumbers(s: string, t: string)
    requires |s| == |t| && Digits(s) && Digits(t)
    ensures Less(s, t) <==> Num(s) < Num(t)
    ensures s == t <==> Num(s) == Num(t)
    decreases |s|
  {
    if s != [] {
      var n := |s| - 1;
      DigitsCompareAsNumbers(s[..n], t[..n]);
      OrderSplits(s, t, n);
      assert s[n..] == [s[n]] && t[n..] == [t[n]];
      assert Less([s[n]], [t[n]]) <==> s[n] < t[n];
      assert s == s[..n] + [s[n]] && t == t[..n] + [t[n]];
    }
  }

  /** One numeric field at a time. */
  lemma FieldDecides(a: string, b: string, i: nat, j: nat)
    requires Shaped(a) && Shaped(b) && i <= j <= 22 && Digits(a[i..j]) && Digits(b[i..j])
    ensures Less(a[i..22], b[i..22]) <==>
            Num(a[i..j]) < Num(b[i..j]) || (Num(a[i..j]) == Num(b[i..j]) && Less(a[j..22], b[j..22]))
  {
    var s, t := a[i..22], b[i..22];
    OrderSplits(s, t, j - i);
    assert s[..j - i] == a[i..j] && t[..j - i] == b[i..j] && s[j - i..] == a[j..22] && t[j - i..] == b[j..22];
    DigitsCompareAsNumbers(a[i..j], b[i..j]);
  }

  lemma SeparatorIsShared(a: string, b: string, i: nat)
    requires Shaped(a) && Shaped(b) && (i == 8 || i == 15)
    ensures Less(a[i..22], b[i..22]) <==> Less(a[i + 1..22], b[i + 1..22])
  {
    var s, t := a[i..22], b[i..22];
    assert s[0] == t[0] && s[1..] == a[i + 1..22] && t[1..] == b[i + 1..22];
  }

  lemma DateFieldsDecide(a: string, b: string)
    requires Shaped(a) && Shaped(b)
    ensures var x, y := StampOf(a), StampOf(b);
            Less(a[0..22], b[0..22]) <==>
            || x.year < y.year
            || (x.year == y.year
                && (x.month < y.month
                    || (x.month == y.month && (x.day < y.day || (x.day == y.day && Less(a[9..22], b[9..22]))))))
  {
    Slices(a, 0, 4); Slices(a, 4, 6); Slices(a, 6, 8);
    Slices(b, 0, 4); Slices(b, 4, 6); Slices(b, 6, 8);
    FieldDecides(a, b, 0, 4);
    FieldDecides(a, b, 4, 6);
    FieldDecides(a, b, 6, 8);
    SeparatorIsShared(a, b, 8);
  }

  lemma TimeFieldsDecide(a: string, b: string)
    requires Shaped(a) && Shaped(b)
    ensures Less(a[9..22], b[9..22]) <==> Sooner(StampOf(a), StampOf(b))
  {
    Slices(a, 9, 11); Slices(a, 11, 13); Slices(a, 13, 15); Slices(a, 16, 22);
    Slices(b, 9, 11); Slices(b, 11, 13); Slices(b, 13, 15); Slices(b, 16, 22);
    FieldDecides(a, b, 9, 11);
    FieldDecides(a, b, 11, 13);
    FieldDecides(a, b, 13, 15);
    SeparatorIsShared(a, b, 15);
    FieldDecides(a, b, 16, 22);
    assert !Less(a[22..22], b[22..22]);
  }

  lemma TextOrderIsFieldOrder(a: string, b: string)
    requires Shaped(a) && Shaped(b)
    ensures Less(a[..22], b[..22]) <==> Earlier(StampOf(a), StampOf(b))
  {
    DateFieldsDecide(a, b);
    TimeFieldsDecide(a, b);
    assert a[0..22] == a[..22] && b[0..22] == b[..22];
  }

  // ---- field order is time order ----

  /** A `NaiveDateTime`: a day, a second of that day, and nanoseconds, which reach into a second
      billion during a leap second. */
  datatype Instant = Instant(day: nat, second: nat, nanos: nat)

  predicate Before(a: Instant, b: Instant) {
    a.day < b.day || (a.day == b.day && (a.second < b.second || (a.second == b.second && a.nanos < b.nanos)))
  }

  predicate LeapSecond(t: Instant) {
    t.nanos >= 1_000_000_000
  }

  function DayNumber(year: nat, month: nat, day: nat): nat {
    DaysBeforeYear(year) + DaysBeforeMonth(year, month) + day
  }

  function InstantOf(s: Stamp): Instant {
    var second := if s.second == 60 then 59 else s.second;
    Instant(DayNumber(s.year, s.month, s.day), 3600 * s.hour + 60 * s.minute + second,
            1000 * s.micros + if s.second == 60 then 1_000_000_000 else 0)
  }

  function Started(id: string): Instant
    requires IsRunId(id)
  {
    InstantOf(StampOf(id))
  }

  lemma {:induction false} LaterMonthStartsLater(year: nat, m: nat, n: nat)
    requires 1 <= m < n
    ensures DaysBeforeMonth(year, m) + MonthLength(year, m) <= DaysBeforeMonth(year, n)
    decreases n
  {
    if m + 1 < n {
      LaterMonthStartsLater(year, m, n - 1);
    }
  }

  /** The day of the year before each month's first, in a common year. */
  const MONTH_STARTS: seq<nat> := [0, 31, 59, 90, 120, 151, 181, 212, 243, 273, 304, 334]

  lemma MonthsFillTheYear(year: nat)
    ensures DaysBeforeMonth(year, 12) + MonthLength(year, 12) == YearLength(year)
    ensures forall m :: 1 <= m <= 12 ==>
              DaysBeforeMonth(year, m) == MONTH_STARTS[m - 1] + if Leap(year) && m > 2 then 1 else 0
  {
    assert DaysBeforeMonth(year, 2) == 31;
    var march := 31 + MonthLength(year, 2);
    assert DaysBeforeMonth(year, 3) == march;
    assert DaysBeforeMonth(year, 4) == march + 31;
    assert DaysBeforeMonth(year, 5) == march + 61;
    assert DaysBeforeMonth(year, 6) == march + 92;
    assert DaysBeforeMonth(year, 7) == march + 122;
    assert DaysBeforeMonth(year, 8) == march + 153;
    assert DaysBeforeMonth(year, 9) == march + 184;
    assert DaysBeforeMonth(year, 10) == march + 214;
    assert DaysBeforeMonth(year, 11) == march + 245;
    assert DaysBeforeMonth(year, 12) == march + 275;
  }

  lemma {:induction false} LaterYearStartsLater(y: nat, z: nat)
    requires y < z
    ensures DaysBeforeYear(y) + YearLength(y) <= DaysBeforeYear(z)
    decreases z
  {
    if y + 1 < z {
      LaterYearStartsLater(y, z - 1);
    }
  }

  lemma LaterDateIsLaterDay(a: Stamp, b: Stamp)
    requires OnCalendar(a) && OnCalendar(b)
    requires a.year < b.year || (a.year == b.year && (a.month < b.month || (a.month == b.month && a.day < b.day)))
    ensures DayNumber(a.year, a.month, a.day) < DayNumber(b.year, b.month, b.day)
  {
    if a.year < b.year {
      LaterYearStartsLater(a.year, b.year);
      MonthsFillTheYear(a.year);
      if a.month < 12 {
        LaterMonthStartsLater(a.year, a.month, 12);
      }
    } else if a.month < b.month {
      LaterMonthStartsLater(a.year, a.month, b.month);
    }
  }

  lemma SameDayOrder(a: Stamp, b: Stamp)
    requires OnCalendar(a) && OnCalendar(b) && a.year == b.year && a.month == b.month && a.day == b.day
    ensures Sooner(a, b) <==> Before(InstantOf(a), InstantOf(b))
  {
  }

  lemma FieldOrderIsTimeOrder(a: Stamp, b: Stamp)
    requires OnCalendar(a) && OnCalendar(b)
    ensures Earlier(a, b) <==> Before(InstantOf(a), InstantOf(b))
  {
    if a.year == b.year && a.month == b.month && a.day == b.day {
      SameDayOrder(a, b);
    } else if a.year < b.year || (a.year == b.year && (a.month < b.month || (a.month == b.month && a.day < b.day))) {
      LaterDateIsLaterDay(a, b);
    } else {
      LaterDateIsLaterDay(b, a);
    }
  }

  /** On valid ids text order is chronological: the timestamps compare as the instants they name,
      and an id that sorts earlier never started later. */
  lemma TextOrderIsChronological(a: string, b: string)
    requires IsRunId(a) && IsRunId(b)
    ensures Less(a[..22], b[..22]) <==> Before(Started(a), Started(b))
    ensures Less(a, b) ==> !Before(Started(b), Started(a))
    ensures Before(Started(a), Started(b)) ==> Less(a, b)
  {
    TextOrderIsFieldOrder(a, b);
    FieldOrderIsTimeOrder(StampOf(a), StampOf(b));
    TextOrderIsFieldOrder(b, a);
    FieldOrderIsTimeOrder(StampOf(b), StampOf(a));
    OrderSplits(a, b, 22);
    Irreflexive(a[..22]);
    if Less(a[..22], b[..22]) && Less(b[..22], a[..22]) {
      Asymmetric(a[..22], b[..22]);
    }
  }

  // ---- reading concrete digits ----

  lemma TwoDigits(s: string)
    requires |s| == 2 && Digits(s)
    ensures Num(s) == 10 * (s[0] - '0') as nat + (s[1] - '0') as nat
  {
    assert Num(s[..1]) == 10 * Num(s[..1][..0]) + (s[0] - '0') as nat;
  }

  lemma {:induction false} Zeros(s: string)
    requires Digits(s) && forall i :: 0 <= i < |s| ==> s[i] == '0'
    ensures Num(s) == 0
    decreases |s|
  {
    if s != [] {
      Zeros(s[..|s| - 1]);
    }
  }

  lemma {:induction false} NumBound(s: string, bound: nat)
    requires Digits(s) && bound == Power10(|s|)
    ensures Num(s) < bound
    decreases |s|
  {
    if s != [] {
      NumBound(s[..|s| - 1], Power10(|s| - 1));
    }
  }

  function Power10(n: nat): nat {
    if n == 0 then 1 else 10 * Power10(n - 1)
  }

  lemma {:induction false} NotAllZeros(s: string, i: nat)
    requires Digits(s) && i < |s| && s[i] != '0'
    ensures Num(s) > 0
    decreases |s|
  {
    if i < |s| - 1 {
      NotAllZeros(s[..|s| - 1], i);
    }
  }
}
