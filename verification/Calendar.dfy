/**
 The per-second timer keys. The C++ side formats gmtime of the expiry; the Go side takes the
 current time apart, rebuilds it with time.Date, goes back two seconds and formats that.
 The scheduler works only if both arrive at the same 19 characters.
 */
module Calendar {
  import opened Text

  const SECONDS_PER_DAY := 86400

  /** The first second of year 10000, where the four-digit year ends. */
  const END_OF_TIME := 253402300800

  datatype DateTime = DateTime(year: nat, month: nat, day: nat, hour: nat, minute: nat, second: nat)

  /** Leap years, Appendix C of RFC 3339. */
  predicate IsLeap(y: nat) {
    y % 4 == 0 && (y % 100 != 0 || y % 400 == 0)
  }

  function YearLength(y: nat): nat {
    if IsLeap(y) then 366 else 365
  }

  function MonthLength(y: nat, m: nat): nat
    requires 1 <= m <= 12
  {
    if m == 2 then (if IsLeap(y) then 29 else 28)
    else if m in {4, 6, 9, 11} then 30 else 31
  }

  predicate WellFormed(d: DateTime) {
    && d.year >= 1970 && 1 <= d.month <= 12 && 1 <= d.day <= MonthLength(d.year, d.month)
    && d.hour < 24 && d.minute < 60 && d.second < 60
  }

  // ---------------------------------------------------------------- taking a time apart

  /** Counting whole years off a number of days. */
  function YearOf(y: nat, days: nat): (r: (nat, nat))
    ensures r.0 >= y && r.1 < YearLength(r.0)
    decreases days
  {
    if days < YearLength(y) then (y, days) else YearOf(y + 1, days - YearLength(y))
  }

  /** Counting whole months off a day of the year. */
  function MonthOf(y: nat, m: nat, days: nat): (r: (nat, nat))
    requires 1 <= m <= 12 && DaysBeforeMonth(y, m) + days < YearLength(y)
    ensures m <= r.0 <= 12 && r.1 < MonthLength(y, r.0)
    ensures DaysBeforeMonth(y, r.0) + r.1 == DaysBeforeMonth(y, m) + days
    decreases 12 - m
  {
    if m == 12 || days < MonthLength(y, m) then (m, days) else MonthOf(y, m + 1, days - MonthLength(y, m))
  }

  /** gmtime, and the accessors Year .. Second of a UTC time.Time. */
  function Civil(t: nat): (d: DateTime)
    ensures WellFormed(d)
  {
    var (y, dayOfYear) := YearOf(1970, t / SECONDS_PER_DAY);
    var (m, day) := MonthOf(y, 1, dayOfYear);
    var s := t % SECONDS_PER_DAY;
    DateTime(y, m, day + 1, s / 3600, s / 60 % 60, s % 60)
  }

  // ---------------------------------------------------------------- putting it together

  /** Days from 1970-01-01 to January 1st of year y, by the leap-year cycles. */
  function DaysBeforeYear(y: nat): int
    requires y >= 1970
  {
    365 * (y - 1970) + (y - 1969) / 4 - (y - 1901) / 100 + (y - 1601) / 400
  }

  function DaysBeforeMonth(y: nat, m: nat): nat
    requires 1 <= m <= 12
  {
    [0, 31, 59, 90, 120, 151, 181, 212, 243, 273, 304, 334][m - 1] + if m > 2 && IsLeap(y) then 1 else 0
  }

  /** Go's time.Date in UTC, for components already in range. */
  function DateToUnix(d: DateTime): int
    requires WellFormed(d)
  {
    (DaysBeforeYear(d.year) + DaysBeforeMonth(d.year, d.month) + d.day - 1) * SECONDS_PER_DAY
    + d.hour * 3600 + d.minute * 60 + d.second
  }

  lemma {:induction false} Quotient4(a: nat)
    ensures (a + 1) / 4 == a / 4 + if (a + 1) % 4 == 0 then 1 else 0
  {
  }

  lemma {:induction false} Quotient100(a: nat)
    ensures (a + 1) / 100 == a / 100 + if (a + 1) % 100 == 0 then 1 else 0
  {
  }

  lemma {:induction false} Quotient400(a: nat)
    ensures (a + 1) / 400 == a / 400 + if (a + 1) % 400 == 0 then 1 else 0
  {
  }

  lemma {:induction false} LeapRemainders(y: nat)
    requires y >= 1970
    ensures (y - 1968) % 4 == y % 4
    ensures (y - 1900) % 100 == y % 100
    ensures (y - 1600) % 400 == y % 400
  {
    Remainder(y - 1968, 492, 4);
    Remainder(y - 1900, 19, 100);
    Remainder(y - 1600, 4, 400);
  }

  lemma {:induction false} Remainder(a: nat, q: nat, k: nat)
    requires k == 4 || k == 100 || k == 400
    ensures (a + q * k) % k == a % k
  {
    assert a + q * k == (a / k + q) * k + a % k;
  }

  function Every(n: nat, k: nat): nat
    requires k > 0
  {
    if n % k == 0 then 1 else 0
  }

  lemma {:induction false} LeapCount(y: nat)
    ensures YearLength(y) == 365 + Every(y, 4) - Every(y, 100) + Every(y, 400)
  {
    if y % 400 == 0 {
      assert y == 100 * (4 * (y / 400));
      Multiple100(4 * (y / 400));
    }
    if y % 100 == 0 {
      assert y == 4 * (25 * (y / 100));
      Multiple4(25 * (y / 100));
    }
  }

  lemma {:induction false} Multiple100(q: nat)
    ensures (100 * q) % 100 == 0
  {
  }

  lemma {:induction false} Multiple4(q: nat)
    ensures (4 * q) % 4 == 0
  {
  }

  lemma {:induction false} NextYear(y: nat)
    requires y >= 1970
    ensures DaysBeforeYear(y + 1) == DaysBeforeYear(y) + YearLength(y)
  {
    LeapCount(y);
    LeapRemainders(y);
    assert (y - 1968) / 4 == (y - 1969) / 4 + Every(y, 4) by { Quotient4(y - 1969); }
    assert (y - 1900) / 100 == (y - 1901) / 100 + Every(y, 100) by { Quotient100(y - 1901); }
    assert (y - 1600) / 400 == (y - 1601) / 400 + Every(y, 400) by { Quotient400(y - 1601); }
  }

  lemma {:induction false} YearOfExact(y: nat, days: nat)
    requires y >= 1970
    ensures var r := YearOf(y, days); DaysBeforeYear(r.0) + r.1 == DaysBeforeYear(y) + days
    decreases days
  {
    if days >= YearLength(y) {
      NextYear(y);
      YearOfExact(y + 1, days - YearLength(y));
    }
  }

  /** Taking a time apart and rebuilding it gives the time back. */
  lemma {:induction false} RebuildTime(t: nat)
    ensures DateToUnix(Civil(t)) == t
  {
    var days, s := t / SECONDS_PER_DAY, t % SECONDS_PER_DAY;
    YearOfExact(1970, days);
    ClockExact(s);
    var d := Civil(t);
    assert DaysBeforeYear(d.year) + DaysBeforeMonth(d.year, d.month) + d.day - 1 == days;
    assert d.hour * 3600 + d.minute * 60 + d.second == s;
  }

  lemma {:induction false} ClockExact(s: nat)
    ensures s / 3600 * 3600 + s / 60 % 60 * 60 + s % 60 == s
  {
    assert s / 60 / 60 == s / 3600;
  }

  // ---------------------------------------------------------------- order

  /** Component by component, most significant first. */
  predicate Earlier(a: DateTime, b: DateTime) {
    || a.year < b.year
    || (a.year == b.year && a.month < b.month)
    || (a.year == b.year && a.month == b.month && a.day < b.day)
    || (a.year == b.year && a.month == b.month && a.day == b.day && EarlierInDay(a, b))
  }

  predicate EarlierInDay(a: DateTime, b: DateTime) {
    || a.hour < b.hour
    || (a.hour == b.hour && a.minute < b.minute)
    || (a.hour == b.hour && a.minute == b.minute && a.second < b.second)
  }

  lemma {:induction false} YearsMonotone(y: nat, z: nat)
    requires 1970 <= y < z
    ensures DaysBeforeYear(y) + YearLength(y) <= DaysBeforeYear(z)
    decreases z
  {
    NextYear(z - 1);
    if y < z - 1 {
      YearsMonotone(y, z - 1);
    }
  }

  lemma MonthsMonotone(y: nat, m: nat, n: nat)
    requires 1 <= m < n <= 12
    ensures DaysBeforeMonth(y, m) + MonthLength(y, m) <= DaysBeforeMonth(y, n)
  {
  }

  lemma DayOfYearBound(d: DateTime)
    requires WellFormed(d)
    ensures 0 <= DaysBeforeMonth(d.year, d.month) + d.day - 1 < YearLength(d.year)
  {
  }

  /** The calendar order of components is the order of time. */
  lemma RebuildMonotone(a: DateTime, b: DateTime)
    requires WellFormed(a) && WellFormed(b) && Earlier(a, b)
    ensures DateToUnix(a) < DateToUnix(b)
  {
    DayOfYearBound(a);
    DayOfYearBound(b);
    if a.year < b.year {
      YearsMonotone(a.year, b.year);
    } else if a.month < b.month {
      MonthsMonotone(a.year, a.month, b.month);
    }
  }

  lemma CivilMonotone(t: nat, u: nat)
    requires t < u
    ensures Earlier(Civil(t), Civil(u))
  {
    RebuildTime(t);
    RebuildTime(u);
    var a, b := Civil(t), Civil(u);
    if Earlier(b, a) {
      RebuildMonotone(b, a);
    }
  }

  /** Every well-formed date is the civil date of exactly the time it rebuilds to. */
  lemma CivilOfRebuilt(d: DateTime)
    requires WellFormed(d)
    ensures DateToUnix(d) >= 0 && Civil(DateToUnix(d)) == d
  {
    if d.year > 1970 {
      YearsMonotone(1970, d.year);
    }
    DayOfYearBound(d);
    var e := Civil(DateToUnix(d));
    RebuildTime(DateToUnix(d));
    if Earlier(d, e) {
      RebuildMonotone(d, e);
    } else if Earlier(e, d) {
      RebuildMonotone(e, d);
    }
  }

  /** Four hundred years, after which the calendar repeats itself. */
  const CYCLE := 146097 * SECONDS_PER_DAY

  lemma CycleOfYears(y: nat)
    requires y >= 1970
    ensures DaysBeforeYear(y + 400) == DaysBeforeYear(y) + 146097 && IsLeap(y + 400) == IsLeap(y)
  {
    assert (y + 400 - 1969) / 4 == (y - 1969) / 4 + 100;
    assert (y + 400 - 1901) / 100 == (y - 1901) / 100 + 4;
    assert (y + 400 - 1601) / 400 == (y - 1601) / 400 + 1;
  }

  /** The calendar repeats itself. */
  lemma CivilRepeats(t: nat)
    ensures Civil(t + CYCLE) == Civil(t).(year := Civil(t).year + 400)
  {
    var d := Civil(t);
    var e := d.(year := d.year + 400);
    RebuildTime(t);
    CycleOfYears(d.year);
    assert DateToUnix(e) == t + CYCLE;
    CivilOfRebuilt(e);
  }

  /** The civil date of a time before 1970 as well, by that repetition. */
  function CivilBefore(t: int): DateTime
    requires -CYCLE <= t
  {
    if t >= 0 then Civil(t) else var d := Civil(t + CYCLE); d.(year := d.year - 400)
  }

  // ---------------------------------------------------------------- text

  /** n in exactly w digits. */
  function Padded(n: nat, w: nat): (s: string)
    ensures |s| == w && AllDigits(s)
    decreases w
  {
    if w == 0 then "" else Padded(n / 10, w - 1) + [Digit(n % 10)]
  }

  /** strftime "%FT%T" and "%Y-%m-%dT%H:%M:%S": the date-time shape of section 5.6 of RFC 3339. */
  function Format(d: DateTime): (s: string)
    ensures |s| == 19
  {
    Padded(d.year, 4) + ("-" + (Padded(d.month, 2) + ("-" + (Padded(d.day, 2) + ("T" + FormatTime(d))))))
  }

  function FormatTime(d: DateTime): (s: string)
    ensures |s| == 8
  {
    Padded(d.hour, 2) + (":" + (Padded(d.minute, 2) + (":" + Padded(d.second, 2))))
  }

  /** The order in which a key-value store lists keys. */
  predicate LexLess(s: string, t: string) {
    t != "" && (s == "" || s[0] < t[0] || (s[0] == t[0] && LexLess(s[1..], t[1..])))
  }

  lemma {:induction false} LexConcat(a: string, b: string, x: string, y: string)
    requires |a| == |b|
    ensures LexLess(a + x, b + y) <==> LexLess(a, b) || (a == b && LexLess(x, y))
  {
    if a == "" {
      assert a + x == x && b + y == y;
    } else {
      assert (a + x)[1..] == a[1..] + x && (b + y)[1..] == b[1..] + y;
      LexConcat(a[1..], b[1..], x, y);
      assert a == [a[0]] + a[1..] && b == [b[0]] + b[1..];
    }
  }

  lemma {:induction false} LexIrreflexive(s: string)
    ensures !LexLess(s, s)
  {
    if s != "" { LexIrreflexive(s[1..]); }
  }

  function Power10(w: nat): nat {
    if w == 0 then 1 else 10 * Power10(w - 1)
  }

  /** Zero-padding makes text order numeric order. */
  lemma {:induction false} PaddedMonotone(m: nat, n: nat, w: nat)
    requires m < n < Power10(w)
    ensures LexLess(Padded(m, w), Padded(n, w))
    decreases w
  {
    LexConcat(Padded(m / 10, w - 1), Padded(n / 10, w - 1), [Digit(m % 10)], [Digit(n % 10)]);
    if m / 10 < n / 10 {
      PaddedMonotone(m / 10, n / 10, w - 1);
    }
  }

  lemma FieldOrder(m: nat, n: nat, w: nat, x: string, y: string)
    requires m < n < Power10(w) || (m == n && LexLess(x, y))
    ensures LexLess(Padded(m, w) + x, Padded(n, w) + y)
  {
    LexConcat(Padded(m, w), Padded(n, w), x, y);
    if m < n {
      PaddedMonotone(m, n, w);
    }
  }

  lemma SeparatorOrder(c: string, x: string, y: string)
    requires LexLess(x, y)
    ensures LexLess(c + x, c + y)
  {
    LexConcat(c, c, x, y);
  }

  lemma FormatTimeOrder(a: DateTime, b: DateTime)
    requires WellFormed(a) && WellFormed(b) && EarlierInDay(a, b)
    ensures LexLess(FormatTime(a), FormatTime(b))
  {
    assert Power10(2) == 100;
    var sa, sb := Padded(a.second, 2), Padded(b.second, 2);
    var ma, mb := Padded(a.minute, 2) + (":" + sa), Padded(b.minute, 2) + (":" + sb);
    if a.hour == b.hour {
      if a.minute == b.minute {
        PaddedMonotone(a.second, b.second, 2);
        SeparatorOrder(":", sa, sb);
      }
      FieldOrder(a.minute, b.minute, 2, ":" + sa, ":" + sb);
      SeparatorOrder(":", ma, mb);
    }
    FieldOrder(a.hour, b.hour, 2, ":" + ma, ":" + mb);
  }

  lemma FormatOrder(a: DateTime, b: DateTime)
    requires WellFormed(a) && WellFormed(b) && Earlier(a, b) && b.year < 10000
    ensures LexLess(Format(a), Format(b))
  {
    assert Power10(2) == 100;
    assert Power10(4) == 10000;
    var ta, tb := "T" + FormatTime(a), "T" + FormatTime(b);
    var da, db := Padded(a.day, 2) + ta, Padded(b.day, 2) + tb;
    var ma, mb := Padded(a.month, 2) + ("-" + da), Padded(b.month, 2) + ("-" + db);
    if a.year == b.year {
      if a.month == b.month {
        if a.day == b.day {
          FormatTimeOrder(a, b);
          SeparatorOrder("T", FormatTime(a), FormatTime(b));
        }
        FieldOrder(a.day, b.day, 2, ta, tb);
        SeparatorOrder("-", da, db);
      }
      FieldOrder(a.month, b.month, 2, "-" + da, "-" + db);
      SeparatorOrder("-", ma, mb);
    }
    FieldOrder(a.year, b.year, 4, "-" + ma, "-" + mb);
  }

  lemma {:induction false} PaddedReads(n: nat, w: nat)
    requires n < Power10(w)
    ensures ReadDecimal(Padded(n, w)) == n
    decreases w
  {
    if w > 0 {
      PaddedReads(n / 10, w - 1);
      assert Padded(n, w)[..w - 1] == Padded(n / 10, w - 1);
    }
  }

  /** The fields of a key, read back, are those of the date, each in its place. */
  lemma FormatReadsBack(d: DateTime)
    requires WellFormed(d) && d.year < 10000
    ensures var s := Format(d);
            && DateShaped(s)
            && s[..4] == Padded(d.year, 4) && ReadDecimal(Padded(d.year, 4)) == d.year
            && s[5..7] == Padded(d.month, 2) && ReadDecimal(Padded(d.month, 2)) == d.month
            && s[8..10] == Padded(d.day, 2) && ReadDecimal(Padded(d.day, 2)) == d.day
            && s[11..13] == Padded(d.hour, 2) && ReadDecimal(Padded(d.hour, 2)) == d.hour
            && s[14..16] == Padded(d.minute, 2) && ReadDecimal(Padded(d.minute, 2)) == d.minute
            && s[17..19] == Padded(d.second, 2) && ReadDecimal(Padded(d.second, 2)) == d.second
  {
    assert Power10(2) == 100 && Power10(4) == 10000;
    PaddedReads(d.year, 4);
    PaddedReads(d.month, 2);
    PaddedReads(d.day, 2);
    PaddedReads(d.hour, 2);
    PaddedReads(d.minute, 2);
    PaddedReads(d.second, 2);
    var time := FormatTime(d);
    assert Format(d)[11..] == time;
    assert time[..2] == Padded(d.hour, 2) && time[3..5] == Padded(d.minute, 2) && time[6..8] == Padded(d.second, 2);
  }

  /** The epoch, and the lengths of the months, section 5.7 of RFC 3339. */
  lemma EpochAndMonths(y: nat)
    requires y >= 1970
    ensures Civil(0) == DateTime(1970, 1, 1, 0, 0, 0)
    ensures forall m :: 1 <= m < 12 ==>
              DateToUnix(DateTime(y, m + 1, 1, 0, 0, 0)) - DateToUnix(DateTime(y, m, 1, 0, 0, 0))
              == 86400 * [31, if IsLeap(y) then 29 else 28, 31, 30, 31, 30, 31, 31, 30, 31, 30][m - 1]
  {
    RebuildTime(0);
    CivilOfRebuilt(DateTime(1970, 1, 1, 0, 0, 0));
  }

  // ---------------------------------------------------------------- the two keys

  /** worker.cc ConvertToISO8601 once the expiry is an absolute time. */
  function RegisterKey(expiry: nat): string {
    Format(Civil(expiry))
  }

  /** The same for any time that a timer value can stand for. */
  function StampKey(expiry: int): string
    requires -CYCLE <= expiry
  {
    Format(CivilBefore(expiry))
  }

  /** proccess_timer_callbacks.go NewISO8601: the time taken apart, rebuilt, and two seconds less. */
  function NewIso8601(now: nat): (t: int)
    ensures t == now - 2
  {
    RebuildTime(now);
    DateToUnix(Civil(now)) - 2
  }

  /** The key of a tick: NewISO8601 of the current time, then strftime. */
  function TickKey(now: nat): string
    requires now >= 2
  {
    Format(Civil(NewIso8601(now)))
  }

  predicate DateShaped(s: string) {
    |s| == 19 && s[4] == '-' && s[7] == '-' && s[10] == 'T' && s[13] == ':' && s[16] == ':'
  }

  /** Every timer key is date-shaped, and so is neither a decimal CAS key nor separated text. */
  lemma KeyShape(t: nat)
    ensures DateShaped(RegisterKey(t)) && !AllDigits(RegisterKey(t)) && ';' !in RegisterKey(t)
  {
    var d, s := Civil(t), RegisterKey(t);
    assert s[4] == '-';
    assert forall i :: 0 <= i < 19 ==> IsDigit(s[i]) || s[i] in {'-', 'T', ':'};
  }

  /** The key a registration for second E writes is the key the tick at E + 2 reads. */
  lemma {:induction false} KeyAgreement(expiry: nat)
    ensures TickKey(expiry + 2) == RegisterKey(expiry)
  {
    assert NewIso8601(expiry + 2) == expiry;
  }

  lemma {:induction false} StampIsTick(expiry: int, now: nat)
    requires 0 <= expiry && now == expiry + 2
    ensures StampKey(expiry) == TickKey(now)
  {
    assert NewIso8601(now) == expiry;
    assert CivilBefore(expiry) == Civil(NewIso8601(now));
  }

  lemma YearBound(t: nat)
    requires t < END_OF_TIME
    ensures Civil(t).year < 10000
  {
    RebuildTime(t);
    var d := Civil(t);
    DayOfYearBound(d);
    if d.year > 10000 {
      YearsMonotone(10000, d.year);
    }
    assert DaysBeforeYear(10000) * SECONDS_PER_DAY == END_OF_TIME;
  }

  /** Through year 9999 timer keys have 19 characters, sort as time does, and are distinct. */
  lemma KeysSortAsTime(t: nat, u: nat)
    requires t < u < END_OF_TIME
    ensures LexLess(RegisterKey(t), RegisterKey(u)) && RegisterKey(t) != RegisterKey(u)
    ensures |RegisterKey(t)| == |RegisterKey(u)| == 19
  {
    CivilMonotone(t, u);
    YearBound(u);
    FormatOrder(Civil(t), Civil(u));
    LexIrreflexive(RegisterKey(t));
  }

  lemma KeyInjective(t: nat, u: nat)
    requires t < END_OF_TIME && u < END_OF_TIME && RegisterKey(t) == RegisterKey(u)
    ensures t == u
  {
    if t < u {
      KeysSortAsTime(t, u);
    } else if u < t {
      KeysSortAsTime(u, t);
    }
  }

  // ---------------------------------------------------------------- the JavaScript formatter

  /** builtin.js pad. */
  function JsPad(n: nat): string {
    if n < 10 then "0" + Decimal(n) else Decimal(n)
  }

  /** builtin.js ISODateString. */
  function IsoDateString(d: DateTime): string {
    Decimal(d.year) + ("-" + (JsPad(d.month) + ("-" + (JsPad(d.day) + ("T"
    + (JsPad(d.hour) + (":" + (JsPad(d.minute) + (":" + JsPad(d.second))))))))))
  }

  lemma PaddedIsDecimal(n: nat, w: nat)
    requires w > 0 && n < Power10(w) && (w == 1 || Power10(w - 1) <= n)
    ensures Padded(n, w) == Decimal(n)
    decreases w
  {
    if w > 1 {
      PaddedIsDecimal(n / 10, w - 1);
    } else {
      assert Padded(n / 10, 0) == "";
    }
  }

  lemma JsPadIsPadded(n: nat)
    requires n < 100
    ensures JsPad(n) == Padded(n, 2)
  {
    assert Power10(2) == 100 && Power10(1) == 10;
    if n < 10 {
      PaddedIsDecimal(n, 1);
      assert Padded(0, 1) == "0" by { assert Padded(0, 0) == ""; }
    } else {
      PaddedIsDecimal(n, 2);
    }
  }

  /** A handler that names a timer key with ISODateString names the key the tick reads. */
  lemma HandlerKeyAgreement(t: nat)
    requires t < END_OF_TIME
    ensures IsoDateString(Civil(t)) == RegisterKey(t)
  {
    var d := Civil(t);
    YearBound(t);
    assert Power10(4) == 10000 && Power10(3) == 1000;
    PaddedIsDecimal(d.year, 4);
    JsPadIsPadded(d.month);
    JsPadIsPadded(d.day);
    JsPadIsPadded(d.hour);
    JsPadIsPadded(d.minute);
    JsPadIsPadded(d.second);
  }
}
