/** RFC 3339 timestamps from Unix seconds: the closed-form calendar against the Gregorian rules. */
module Time {
  import opened Arithmetic
  import opened Sequences

  datatype Date = Date(year: nat, month: nat, day: nat)
  datatype Clock = Clock(hour: nat, minute: nat, second: nat)

  const I64_MAX: nat := 0x7fff_ffff_ffff_ffff

  /** `secs / 86_400`, converted to i64 and saturating there. */
  function Days(secs: nat): nat {
    var days := secs / 86400;
    if days <= I64_MAX then days else I64_MAX
  }

  function ClockOf(secs: nat): Clock {
    var rem := secs % 86400;
    Clock(rem / 3600, rem % 3600 / 60, rem % 60)
  }

  /** Year of a 400-year era, counted from 1 March, of a day of that era. */
  function YearOfEra(doe: nat): nat
    requires doe < 146097
  {
    (doe - doe / 1460 + doe / 36524 - doe / 146096) / 365
  }

  /** Month (0 is March) of a day of a year counted from 1 March. */
  function MonthIndex(doy: nat): nat { (5 * doy + 2) / 153 }

  function DayOfYear(doe: nat): int
    requires doe < 146097
  {
    var yoe := YearOfEra(doe);
    doe - (365 * yoe + yoe / 4 - yoe / 100)
  }

  /** The civil date of a day number, day 0 being 1970-01-01. */
  function DateOf(days: nat): (d: Date)
  {
    var z := days + 719468;
    var era, doe := z / 146097, z % 146097;
    DoeRange(doe);
    var year, doy: nat := YearOfEra(doe) + era * 400, DayOfYear(doe);
    var mp := MonthIndex(doy);
    MonthRange(doy);
    var day := doy - (153 * mp + 2) / 5 + 1;
    var month := if mp < 10 then mp + 3 else mp - 9;
    Date(if month <= 2 then year + 1 else year, month, day)
  }

  // ---- the reference calendar ----

  predicate Leap(year: nat) { year % 4 == 0 && (year % 100 != 0 || year % 400 == 0) }

  function YearLength(year: nat): nat { if Leap(year) then 366 else 365 }

  function MonthLength(year: nat, month: nat): nat {
    if month == 2 then (if Leap(year) then 29 else 28)
    else if month == 4 || month == 6 || month == 9 || month == 11 then 30 else 31
  }

  predicate Valid(d: Date) { 1 <= d.month <= 12 && 1 <= d.day <= MonthLength(d.year, d.month) }

  /** Days from 1970-01-01 to the first day of a year, a year at a time. */
  function YearStart(year: nat): nat
    requires year >= 1970
  {
    if year == 1970 then 0 else YearStart(year - 1) + YearLength(year - 1)
  }

  /** Days of a year before the first day of a month, a month at a time. */
  function MonthStart(year: nat, month: nat): nat
    requires month >= 1
  {
    if month == 1 then 0 else MonthStart(year, month - 1) + MonthLength(year, month - 1)
  }

  function DayNumber(d: Date): nat
    requires d.year >= 1970 && Valid(d)
  {
    YearStart(d.year) + MonthStart(d.year, d.month) + d.day - 1
  }

  // ---- the era arithmetic ----

  /** Every day of an era is day u of year t of a four-year cycle q of a century c. */
  lemma Cycle(doe: nat) returns (c: nat, q: nat, t: nat, u: nat)
    requires doe < 146097
    ensures c <= 3 && q <= 24 && t <= 3 && u <= 365 && doe == 36524 * c + 1461 * q + 365 * t + u
    ensures u == 365 ==> t == 3 && (q == 24 ==> c == 3)
  {
    c := if doe == 146096 then 3 else doe / 36524;
    var r := doe - 36524 * c;
    q := if r == 36524 then 24 else r / 1461;
    var s := r - 1461 * q;
    t := if s == 1460 then 3 else s / 365;
    u := s - 365 * t;
  }

  lemma YearOfEraIs(doe: nat, c: nat, q: nat, t: nat, u: nat)
    requires c <= 3 && q <= 24 && t <= 3 && u <= 365 && doe == 36524 * c + 1461 * q + 365 * t + u < 146097
    requires u == 365 ==> t == 3 && (q == 24 ==> c == 3)
    ensures YearOfEra(doe) == 100 * c + 4 * q + t
  {
    var s := 365 * t + u;
    var e := if 24 * c + q + s >= 1460 then 1 else 0;
    assert doe / 1460 == 25 * c + q + e;
    assert doe / 36524 - doe / 146096 == c;
    assert doe - doe / 1460 + doe / 36524 - doe / 146096 == 365 * (100 * c + 4 * q + t) + (u - e);
    assert 0 <= u - e < 365;
  }

  lemma DayOfYearIs(doe: nat, c: nat, q: nat, t: nat, u: nat)
    requires c <= 3 && q <= 24 && t <= 3 && u <= 365 && doe == 36524 * c + 1461 * q + 365 * t + u < 146097
    requires u == 365 ==> t == 3 && (q == 24 ==> c == 3)
    ensures DayOfYear(doe) == u
  {
    YearOfEraIs(doe, c, q, t, u);
    var yoe := 100 * c + 4 * q + t;
    assert yoe / 4 == 25 * c + q && yoe / 100 == c;
  }

  lemma DoeRange(doe: nat)
    requires doe < 146097
    ensures YearOfEra(doe) < 400 && 0 <= DayOfYear(doe) <= 365
    ensures DayOfYear(doe) == 365 ==> Leap(YearOfEra(doe) + 1)
  {
    var c, q, t, u := Cycle(doe);
    YearOfEraIs(doe, c, q, t, u);
    DayOfYearIs(doe, c, q, t, u);
    if u == 365 { LeapCycle(c, q); }
  }

  lemma LeapCycle(c: nat, q: nat)
    requires c <= 3 && q <= 24 && (q == 24 ==> c == 3)
    ensures Leap(100 * c + 4 * q + 4)
  {
    var y := 100 * c + 4 * q + 4;
    assert y % 4 == 0;
    if q < 24 { assert y % 100 == 4 * q + 4; } else { assert y == 400; }
  }

  /** Days from 1 March to the first of the month mp months later. */
  function MarchStart(mp: nat): nat {
    if mp == 0 then 0 else if mp == 1 then 31 else if mp == 2 then 61 else if mp == 3 then 92 else if mp == 4 then 122
    else if mp == 5 then 153 else if mp == 6 then 184 else if mp == 7 then 214 else if mp == 8 then 245
    else if mp == 9 then 275 else if mp == 10 then 306 else 337
  }

  lemma MonthRange(doy: nat)
    requires doy <= 365
    ensures var mp := MonthIndex(doy);
      mp <= 11 && MarchStart(mp) == (153 * mp + 2) / 5 <= doy && (mp < 11 ==> doy < MarchStart(mp + 1))
  {
  }

  /** Days from 0000-03-01 to 1 March of a year. */
  function March(year: nat): int { 365 * year + year / 4 - year / 100 + year / 400 }

  lemma MarchStep(year: nat)
    requires year >= 1
    ensures March(year) == March(year - 1) + YearLength(year)
  {
    DivStep(year, 4);
    DivStep(year, 100);
    DivStep(year, 400);
    Multiples(year);
    LeapTerms(year % 4 == 0, year % 100 == 0, year % 400 == 0);
  }

  lemma Multiples(year: nat)
    ensures year % 100 == 0 ==> year % 4 == 0
    ensures year % 400 == 0 ==> year % 100 == 0
  {
    if year % 100 == 0 {
      assert year == 100 * (year / 100);
      DivMod(year, 4, 25 * (year / 100), 0);
    }
    if year % 400 == 0 {
      assert year == 400 * (year / 400);
      DivMod(year, 100, 4 * (year / 400), 0);
    }
  }

  lemma LeapTerms(four: bool, hundred: bool, fourHundred: bool)
    requires (hundred ==> four) && (fourHundred ==> hundred)
    ensures (if four then 1 else 0) - (if hundred then 1 else 0) + (if fourHundred then 1 else 0)
         == if four && (!hundred || fourHundred) then 1 else 0
  {
  }

  /** The first of January in closed form: 306 days after the March before it, the epoch being day 719468. */
  lemma {:induction false} YearStartIs(year: nat)
    requires year >= 1970
    ensures YearStart(year) + 719468 == March(year - 1) + 306
    decreases year
  {
    if year > 1970 {
      YearStartIs(year - 1);
      MarchStep(year - 1);
    }
  }

  lemma MarchOfEra(era: nat, yoe: nat)
    requires yoe < 400
    ensures March(yoe + era * 400) == 146097 * era + 365 * yoe + yoe / 4 - yoe / 100
  {
    ModShift(yoe, 4, 100 * era);
    ModShift(yoe, 100, 4 * era);
    ModShift(yoe, 400, era);
  }

  /** A month's first day, counted from January or from March. */
  lemma MonthStartIs(year: nat, mp: nat)
    requires mp <= 11
    ensures mp < 10 ==> MonthStart(year, mp + 3) == (if Leap(year) then 60 else 59) + MarchStart(mp)
    ensures mp >= 10 ==> MonthStart(year, mp - 9) == MarchStart(mp) - 306
    ensures mp < 10 ==> MonthLength(year, mp + 3) == if mp == 9 then 31 else MarchStart(mp + 1) - MarchStart(mp)
    ensures mp == 10 ==> MonthLength(year, mp - 9) == 31
    ensures mp == 11 ==> MonthLength(year, mp - 9) == if Leap(year) then 29 else 28
  {
    assert MonthStart(year, 2) == 31;
    assert MonthStart(year, 3) == if Leap(year) then 60 else 59;
    var base := MonthStart(year, 3);
    assert MonthStart(year, 4) == base + 31 && MonthStart(year, 5) == base + 61;
    assert MonthStart(year, 6) == base + 92 && MonthStart(year, 7) == base + 122;
    assert MonthStart(year, 8) == base + 153 && MonthStart(year, 9) == base + 184;
    assert MonthStart(year, 10) == base + 214 && MonthStart(year, 11) == base + 245;
    assert MonthStart(year, 12) == base + 275;
  }

  /** Nothing before the epoch comes out. */
  lemma NotBeforeEpoch(days: nat)
    ensures var z := days + 719468;
      var year, doy := YearOfEra(z % 146097) + z / 146097 * 400, DayOfYear(z % 146097);
      year >= 1970 || (year == 1969 && doy >= 306)
  {
    var z := days + 719468;
    var era, doe := z / 146097, z % 146097;
    assert era >= 4;
    if era == 4 {
      var c, q, t, u := Cycle(doe);
      YearOfEraIs(doe, c, q, t, u);
      DayOfYearIs(doe, c, q, t, u);
      assert doe >= 135080;
      assert c == 3 && q >= 17;
    }
  }

  /** The printed date is the Gregorian date of that day: month and day in range, and its day number is the input. */
  lemma DateIsGregorian(days: nat)
    ensures var d := DateOf(days); d.year >= 1970 && Valid(d) && DayNumber(d) == days
  {
    var z := days + 719468;
    var era, doe := z / 146097, z % 146097;
    DoeRange(doe);
    NotBeforeEpoch(days);
    var yoe, doy: nat := YearOfEra(doe), DayOfYear(doe);
    var year := yoe + era * 400;
    assert March(year) + doy == z by { MarchOfEra(era, yoe); }
    hide YearOfEra, DayOfYear, March;
    PlaceInYear(year, doy, yoe, era);
  }

  lemma PlaceInYear(year: nat, doy: nat, yoe: nat, era: nat)
    requires year == yoe + era * 400 && yoe < 400 && doy <= 365 && (doy == 365 ==> Leap(yoe + 1))
    requires year >= 1970 || (year == 1969 && doy >= 306)
    ensures var mp := MonthIndex(doy);
      var day := doy - (153 * mp + 2) / 5 + 1;
      var month := if mp < 10 then mp + 3 else mp - 9;
      day >= 1 && month >= 1 &&
      var d := Date(if month <= 2 then year + 1 else year, month, day);
      d.year >= 1970 && Valid(d) && DayNumber(d) + 719468 == March(year) + doy
  {
    var mp := MonthIndex(doy);
    MonthRange(doy);
    LeapPeriod(yoe + 1, era);
    if mp < 10 {
      MonthStartIs(year, mp);
      YearStartIs(year);
      MarchStep(year);
    } else {
      MonthStartIs(year + 1, mp);
      YearStartIs(year + 1);
    }
  }

  lemma LeapPeriod(y: nat, era: nat)
    ensures Leap(y + era * 400) == Leap(y)
  {
    ModShift(y, 4, 100 * era);
    ModShift(y, 100, 4 * era);
    ModShift(y, 400, era);
  }

  // ---- order ----

  predicate Earlier(a: Date, b: Date) {
    a.year < b.year || (a.year == b.year && (a.month < b.month || (a.month == b.month && a.day < b.day)))
  }

  lemma {:induction false} YearStartGrows(a: nat, b: nat)
    requires 1970 <= a < b
    ensures YearStart(a) + YearLength(a) <= YearStart(b)
    decreases b
  {
    if a < b - 1 { YearStartGrows(a, b - 1); }
  }

  lemma {:induction false} MonthStartGrows(year: nat, a: nat, b: nat)
    requires 1 <= a < b
    ensures MonthStart(year, a) + MonthLength(year, a) <= MonthStart(year, b)
    decreases b
  {
    if a < b - 1 { MonthStartGrows(year, a, b - 1); }
  }

  /** The months fill the year. */
  lemma DayInYear(d: Date)
    requires Valid(d)
    ensures MonthStart(d.year, d.month) + d.day <= YearLength(d.year)
  {
    MonthStartIs(d.year, 9);
    if d.month < 12 { MonthStartGrows(d.year, d.month, 12); }
  }

  /** Day numbers order dates: an earlier date has a smaller number, so each day has exactly one date. */
  lemma DayNumberOrders(a: Date, b: Date)
    requires a.year >= 1970 && b.year >= 1970 && Valid(a) && Valid(b)
    ensures Earlier(a, b) <==> DayNumber(a) < DayNumber(b)
    ensures a == b <==> DayNumber(a) == DayNumber(b)
  {
    DayNumberGrows(a, b);
    DayNumberGrows(b, a);
    assert Earlier(a, b) || Earlier(b, a) || a == b;
  }

  lemma DayNumberGrows(a: Date, b: Date)
    requires a.year >= 1970 && b.year >= 1970 && Valid(a) && Valid(b)
    ensures Earlier(a, b) ==> DayNumber(a) < DayNumber(b)
  {
    if a.year < b.year {
      DayInYear(a);
      YearStartGrows(a.year, b.year);
    } else if a.year == b.year && a.month < b.month {
      MonthStartGrows(a.year, a.month, b.month);
    }
  }

  /** The calendar inverts both ways: every date from 1970 on is printed for its own day. */
  lemma DateOfDayNumber(d: Date)
    requires d.year >= 1970 && Valid(d)
    ensures DateOf(DayNumber(d)) == d
  {
    DateIsGregorian(DayNumber(d));
    DayNumberOrders(DateOf(DayNumber(d)), d);
  }

  lemma ClockIsExact(secs: nat)
    ensures var c := ClockOf(secs);
      c.hour < 24 && c.minute < 60 && c.second < 60 && c.hour * 3600 + c.minute * 60 + c.second == secs % 86400
  {
  }

  /** No u64 number of seconds saturates the conversion to i64. */
  lemma NeverSaturates(secs: nat)
    requires secs < U64
    ensures Days(secs) == secs / 86400
  {
    assert secs / 86400 <= I64_MAX;
  }

  // ---- the text ----

  /** A number in decimal, zero-padded to at least `width` digits: the format `{n:0width}`. */
  function Padded(n: nat, width: nat): string
    decreases n + width
  {
    if n == 0 && width == 0 then ""
    else Padded(n / 10, if width == 0 then 0 else width - 1) + [('0' as int + n % 10) as char]
  }

  function Text(d: Date, c: Clock): string {
    Padded(d.year, 4) + "-" + (Padded(d.month, 2) + "-" + (Padded(d.day, 2) + "T" +
    (Padded(c.hour, 2) + ":" + (Padded(c.minute, 2) + ":" + (Padded(c.second, 2) + "Z")))))
  }

  function FromUnixSeconds(secs: nat): string
    requires secs < U64
  {
    Text(DateOf(Days(secs)), ClockOf(secs))
  }

  /** Byte-wise string order; the texts are ASCII. */
  predicate Before(a: string, b: string) {
    b != [] && (a == [] || a[0] < b[0] || (a[0] == b[0] && Before(a[1..], b[1..])))
  }

  lemma {:induction false} BeforeAppend(a: string, b: string, c: string, d: string)
    requires |a| == |b|
    ensures Before(a + c, b + d) <==> Before(a, b) || (a == b && Before(c, d))
  {
    if a == [] {
      assert a + c == c && b + d == d;
    } else {
      BeforeAppend(a[1..], b[1..], c, d);
      assert (a + c)[1..] == a[1..] + c && (b + d)[1..] == b[1..] + d;
      assert a == [a[0]] + a[1..] && b == [b[0]] + b[1..];
    }
  }

  function Power10(width: nat): nat { if width == 0 then 1 else 10 * Power10(width - 1) }

  /** Numbers that fit the width are ordered by their text. */
  lemma {:induction false} PaddedOrders(a: nat, b: nat, width: nat)
    requires a < Power10(width) && b < Power10(width)
    ensures |Padded(a, width)| == width == |Padded(b, width)|
    ensures Before(Padded(a, width), Padded(b, width)) <==> a < b
    ensures Padded(a, width) == Padded(b, width) <==> a == b
    decreases width
  {
    if width > 0 {
      PaddedOrders(a / 10, b / 10, width - 1);
      var x, y := [('0' as int + a % 10) as char], [('0' as int + b % 10) as char];
      BeforeAppend(Padded(a / 10, width - 1), Padded(b / 10, width - 1), x, y);
      assert Before(x, y) <==> a % 10 < b % 10;
      assert a == a / 10 * 10 + a % 10 && b == b / 10 * 10 + b % 10;
      if Padded(a, width) == Padded(b, width) { Split(Padded(a / 10, width - 1), Padded(b / 10, width - 1), x, y); }
    }
  }

  /** A number and a separator in front of two tails: the number decides, then the tails. */
  lemma FieldOrders(a: nat, b: nat, width: nat, sep: string, c: string, d: string)
    requires a < Power10(width) && b < Power10(width)
    ensures Before(Padded(a, width) + sep + c, Padded(b, width) + sep + d) <==> a < b || (a == b && Before(c, d))
  {
    PaddedOrders(a, b, width);
    BeforeAppend(Padded(a, width) + sep, Padded(b, width) + sep, c, d);
    BeforeAppend(Padded(a, width), Padded(b, width), sep, sep);
    NotBeforeSelf(sep);
    if a != b && Padded(a, width) + sep == Padded(b, width) + sep {
      Split(Padded(a, width), Padded(b, width), sep, sep);
    }
  }

  lemma {:induction false} NotBeforeSelf(a: string)
    ensures !Before(a, a)
  {
    if a != [] { NotBeforeSelf(a[1..]); }
  }

  predicate EarlierTime(c: Clock, d: Clock) {
    c.hour < d.hour || (c.hour == d.hour && (c.minute < d.minute || (c.minute == d.minute && c.second < d.second)))
  }

  /** Strictly monotone: more seconds, a later date and time, over the whole of u64. */
  lemma Monotone(s: nat, t: nat)
    requires s < U64 && t < U64
    ensures var d, e := DateOf(Days(s)), DateOf(Days(t));
      s < t <==> Earlier(d, e) || (d == e && EarlierTime(ClockOf(s), ClockOf(t)))
  {
    NeverSaturates(s);
    NeverSaturates(t);
    DateIsGregorian(Days(s));
    DateIsGregorian(Days(t));
    DayNumberOrders(DateOf(Days(s)), DateOf(Days(t)));
    ClockIsExact(s);
    ClockIsExact(t);
    ClockOrders(ClockOf(s), ClockOf(t));
    assert s == s / 86400 * 86400 + s % 86400 && t == t / 86400 * 86400 + t % 86400;
  }

  lemma ClockOrders(c: Clock, d: Clock)
    requires c.hour < 24 && c.minute < 60 && c.second < 60 && d.hour < 24 && d.minute < 60 && d.second < 60
    ensures EarlierTime(c, d) <==> c.hour * 3600 + c.minute * 60 + c.second < d.hour * 3600 + d.minute * 60 + d.second
  {
  }

  lemma TextOrders(d: Date, c: Clock, e: Date, f: Clock)
    requires d.year < 10000 && e.year < 10000 && Valid(d) && Valid(e)
    requires c.hour < 24 && c.minute < 60 && c.second < 60 && f.hour < 24 && f.minute < 60 && f.second < 60
    ensures Before(Text(d, c), Text(e, f)) <==> Earlier(d, e) || (d == e && EarlierTime(c, f))
  {
    hide Padded, Before;
    assert Power10(2) == 100 && Power10(4) == 10000;
    var s0, s1 := Padded(c.second, 2) + "Z", Padded(f.second, 2) + "Z";
    SecondOrders(c.second, f.second);
    var m0, m1 := Padded(c.minute, 2) + ":" + s0, Padded(f.minute, 2) + ":" + s1;
    FieldOrders(c.minute, f.minute, 2, ":", s0, s1);
    var h0, h1 := Padded(c.hour, 2) + ":" + m0, Padded(f.hour, 2) + ":" + m1;
    FieldOrders(c.hour, f.hour, 2, ":", m0, m1);
    var d0, d1 := Padded(d.day, 2) + "T" + h0, Padded(e.day, 2) + "T" + h1;
    FieldOrders(d.day, e.day, 2, "T", h0, h1);
    var n0, n1 := Padded(d.month, 2) + "-" + d0, Padded(e.month, 2) + "-" + d1;
    FieldOrders(d.month, e.month, 2, "-", d0, d1);
    FieldOrders(d.year, e.year, 4, "-", n0, n1);
  }

  lemma SecondOrders(a: nat, b: nat)
    requires a < 60 && b < 60
    ensures Before(Padded(a, 2) + "Z", Padded(b, 2) + "Z") <==> a < b
  {
    assert Power10(2) == 100;
    PaddedOrders(a, b, 2);
    BeforeAppend(Padded(a, 2), Padded(b, 2), "Z", "Z");
    NotBeforeSelf("Z");
  }

  lemma {:induction false} PaddedLength(n: nat, width: nat)
    requires n < Power10(width)
    ensures |Padded(n, width)| == width
    decreases width
  {
    if width > 0 { PaddedLength(n / 10, width - 1); }
  }

  /** Up to the year 9999 the text is `YYYY-MM-DDTHH:MM:SSZ`: twenty characters with these marks at these places. */
  lemma Layout(secs: nat)
    requires secs < YEAR_10000
    ensures var t := FromUnixSeconds(secs);
      |t| == 20 && t[4] == t[7] == '-' && t[10] == 'T' && t[13] == t[16] == ':' && t[19] == 'Z'
  {
    BeforeYear10000(secs);
    DateIsGregorian(Days(secs));
    ClockIsExact(secs);
    TextLayout(DateOf(Days(secs)), ClockOf(secs));
    hide DateOf, ClockOf, Text;
  }

  lemma TextLayout(d: Date, c: Clock)
    requires d.year <= 9999 && d.month < 100 && d.day < 100 && c.hour < 100 && c.minute < 100 && c.second < 100
    ensures var t := Text(d, c); |t| == 20 && t[4] == t[7] == '-' && t[10] == 'T' && t[13] == t[16] == ':' && t[19] == 'Z'
  {
    assert Power10(2) == 100 && Power10(4) == 10000;
    PaddedLength(d.year, 4);
    PaddedLength(d.month, 2);
    PaddedLength(d.day, 2);
    PaddedLength(c.hour, 2);
    PaddedLength(c.minute, 2);
    PaddedLength(c.second, 2);
    hide Padded, Power10;
  }

  /** The epoch itself. */
  lemma Epoch()
    ensures FromUnixSeconds(0) == "1970-01-01T00:00:00Z"
  {
    EpochDate();
    EpochText();
    hide DateOf, Text;
  }

  lemma EpochDate()
    ensures DateOf(Days(0)) == Date(1970, 1, 1)
  {
    DateOfDayNumber(Date(1970, 1, 1));
    hide DateOf;
  }

  lemma EpochText()
    ensures Text(Date(1970, 1, 1), Clock(0, 0, 0)) == "1970-01-01T00:00:00Z"
  {
    EpochDigits();
    hide Padded;
  }

  lemma EpochDigits()
    ensures Padded(1970, 4) == "1970" && Padded(0, 2) == "00" && Padded(1, 2) == "01"
  {
    assert Padded(1, 1) == "1" && Padded(19, 2) == "19" && Padded(197, 3) == "197";
    assert Padded(0, 1) == "0";
  }

  /** The first second of year 10000. */
  const YEAR_10000: nat := 253402300800

  lemma BeforeYear10000(s: nat)
    requires s < U64
    ensures DateOf(Days(s)).year <= 9999 <==> s < YEAR_10000
  {
    hide DateOf;
    Turn();
    NeverSaturates(s);
    assert Days(YEAR_10000) == 2932897;
    var d, turn := DateOf(Days(s)), DateOf(2932897);
    DateIsGregorian(Days(s));
    DateIsGregorian(2932897);
    DayNumberOrders(d, turn);
    assert turn == Date(10000, 1, 1);
    assert s < YEAR_10000 <==> s / 86400 < 2932897;
  }

  /** Up to the end of year 9999 the order of the strings is the order of the times (section 5.1 of RFC 3339). */
  lemma StringOrderIsTimeOrder(s: nat, t: nat)
    requires s < YEAR_10000 && t < YEAR_10000
    ensures Before(FromUnixSeconds(s), FromUnixSeconds(t)) <==> s < t
  {
    hide DateOf, ClockOf, Text, Before;
    BeforeYear10000(s);
    BeforeYear10000(t);
    DateIsGregorian(Days(s));
    DateIsGregorian(Days(t));
    ClockIsExact(s);
    ClockIsExact(t);
    TextOrders(DateOf(Days(s)), ClockOf(s), DateOf(Days(t)), ClockOf(t));
    Monotone(s, t);
  }

  /** The limit is tight: the first second of year 10000 sorts before the last one of year 9999. */
  lemma YearTenThousandSortsFirst()
    ensures Before(FromUnixSeconds(YEAR_10000), FromUnixSeconds(YEAR_10000 - 1))
  {
    hide DateOf, ClockOf, Padded;
    Turn();
    FirstDigits();
    FirstOfText(DateOf(Days(YEAR_10000 - 1)), ClockOf(YEAR_10000 - 1));
    FirstOfText(DateOf(Days(YEAR_10000)), ClockOf(YEAR_10000));
  }

  /** The strings of all instants up to n sort as the instants do. */
  ghost predicate OrderKept(n: nat)
    requires n < U64
  {
    forall s: nat, t: nat :: s <= n && t <= n ==> (Before(FromUnixSeconds(s), FromUnixSeconds(t)) <==> s < t)
  }

  /** The limit, exactly: the year 9999. */
  lemma OrderKeptUpTo(n: nat)
    requires n < U64
    ensures OrderKept(n) <==> n < YEAR_10000
  {
    hide Before, FromUnixSeconds;
    if n < YEAR_10000 {
      forall s: nat, t: nat | s <= n && t <= n ensures Before(FromUnixSeconds(s), FromUnixSeconds(t)) <==> s < t {
        StringOrderIsTimeOrder(s, t);
      }
    } else {
      YearTenThousandSortsFirst();
      var s, t := YEAR_10000, YEAR_10000 - 1;
      assert Before(FromUnixSeconds(s), FromUnixSeconds(t)) && !(s < t);
    }
  }

  lemma Turn()
    ensures DateOf(Days(YEAR_10000 - 1)).year == 9999 && DateOf(Days(YEAR_10000)) == Date(10000, 1, 1)
  {
    hide YearOfEra, DayOfYear;
    var doe := 146036;
    assert Days(YEAR_10000 - 1) + 719468 == 24 * 146097 + doe && Days(YEAR_10000) + 719468 == 24 * 146097 + doe + 1;
    YearOfEraIs(doe, 3, 24, 3, 305);
    DayOfYearIs(doe, 3, 24, 3, 305);
    YearOfEraIs(doe + 1, 3, 24, 3, 306);
    DayOfYearIs(doe + 1, 3, 24, 3, 306);
    assert MonthIndex(305) == 9 && MonthIndex(306) == 10;
  }

  lemma FirstDigits()
    ensures Padded(9999, 4) != [] && Padded(9999, 4)[0] == '9'
    ensures Padded(10000, 4) != [] && Padded(10000, 4)[0] == '1'
  {
    assert Padded(9, 1) == "9" && Padded(1, 0) == "1";
    hide Padded;
    FirstStep(99, 2);
    FirstStep(999, 3);
    FirstStep(9999, 4);
    FirstStep(10, 1);
    FirstStep(100, 2);
    FirstStep(1000, 3);
    FirstStep(10000, 4);
  }

  lemma FirstStep(n: nat, width: nat)
    requires width >= 1 && Padded(n / 10, width - 1) != []
    ensures Padded(n, width) != [] && Padded(n, width)[0] == Padded(n / 10, width - 1)[0]
  {
  }

  lemma FirstOfText(d: Date, c: Clock)
    requires Padded(d.year, 4) != []
    ensures Text(d, c) != [] && Text(d, c)[0] == Padded(d.year, 4)[0]
  {
    hide Padded;
  }
}
