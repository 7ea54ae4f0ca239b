/** The date of a log line: days since 1970-01-01 to year, month and day, against the Gregorian calendar's own rules. */
module Calendar {

  datatype Date = Date(year: int, month: int, day: int)

  // ----- the calendar's rules -----

  predicate IsLeap(y: int) {
    y % 4 == 0 && (y % 100 != 0 || y % 400 == 0)
  }

  function MonthLength(y: int, m: int): int {
    if m == 2 then (if IsLeap(y) then 29 else 28)
    else if m == 4 || m == 6 || m == 9 || m == 11 then 30 else 31
  }

  predicate Valid(x: Date) {
    1 <= x.month <= 12 && 1 <= x.day <= MonthLength(x.year, x.month)
  }

  function NextDate(x: Date): Date {
    if x.day < MonthLength(x.year, x.month) then Date(x.year, x.month, x.day + 1)
    else if x.month < 12 then Date(x.year, x.month + 1, 1)
    else Date(x.year + 1, 1, 1)
  }

  const EPOCH := Date(1970, 1, 1)

  /** The date n days after x. */
  function Later(x: Date, n: nat): Date {
    if n == 0 then x else NextDate(Later(x, n - 1))
  }

  // ----- the computation -----

  /** The year of an era, which is 400 years of 146097 days that start on 1 March, by the day of the era. */
  function YearOfEra(doe: int): int {
    (doe - doe / 1460 + doe / 36524 - doe / 146096) / 365
  }

  /** The day, from 1 March, of year yoe of the era. */
  function DayOfYear(doe: int, yoe: int): int {
    doe - (365 * yoe + yoe / 4 - yoe / 100)
  }

  /** The day of a year that starts on 1 March, to its month, March being 0. */
  function MarchMonth(doy: int): int {
    (5 * doy + 2) / 153
  }

  function DaysBefore(mp: int): int {
    (153 * mp + 2) / 5
  }

  /** Day doy of the year that starts on 1 March of a year. */
  datatype March = March(year: int, doy: int)

  /** A day of the mp-th month from March of year y. */
  function InMonth(y: int, mp: int, day: int): Date {
    var month := if mp < 10 then mp + 3 else mp - 9;
    Date(y + if month <= 2 then 1 else 0, month, day)
  }

  function FromMarch(m: March): Date {
    InMonth(m.year, MarchMonth(m.doy), m.doy - DaysBefore(MarchMonth(m.doy)) + 1)
  }

  function ToMarch(z: int): March {
    var era := z / 146097;
    var doe := z - era * 146097;
    var yoe := YearOfEra(doe);
    March(yoe + era * 400, DayOfYear(doe, yoe))
  }

  function Civil(days: int): Date {
    FromMarch(ToMarch(days + 719468))
  }

  // ----- years that start on 1 March -----

  function YearDays(y: int): int {
    if IsLeap(y + 1) then 366 else 365
  }

  /** The day, counted from 1 March of year 0, that 1 March of year y is: the days of the years between. */
  function Start(y: int): int
    decreases if y < 0 then -y else y
  {
    if y == 0 then 0 else if y > 0 then Start(y - 1) + YearDays(y - 1) else Start(y + 1) - YearDays(y)
  }

  lemma StartStep(y: int)
    ensures Start(y + 1) == Start(y) + YearDays(y)
  {
  }

  lemma {:induction false} StartMonotone(a: int, b: int)
    requires a <= b
    ensures Start(a) + 365 * (b - a) <= Start(b)
    decreases b - a
  {
    if a == b {
    } else {
      StartMonotone(a, b - 1);
      StartStep(b - 1);
    }
  }

  /** A day is in one year only. */
  lemma YearUnique(z: int, y: int, w: int)
    requires Start(y) <= z < Start(y + 1) && Start(w) <= z < Start(w + 1)
    ensures y == w
  {
    if y < w {
      StartMonotone(y + 1, w);
    } else if w < y {
      StartMonotone(w + 1, y);
    }
  }

  // ----- eras -----

  lemma QuotientStep(y: int)
    requires 0 <= y
    ensures (y + 1) / 4 == y / 4 + if (y + 1) % 4 == 0 then 1 else 0
    ensures (y + 1) / 100 == y / 100 + if (y + 1) % 100 == 0 then 1 else 0
  {
  }

  lemma Hundreds(y: int)
    requires y % 100 == 0
    ensures y % 4 == 0
  {
    var k := y / 100;
    assert y == 4 * (25 * k);
  }

  /** Leap years below 400: every fourth, but no hundredth. */
  lemma LeapInEra(y: int)
    requires 0 < y < 400
    ensures (if IsLeap(y) then 1 else 0) == (if y % 4 == 0 then 1 else 0) - (if y % 100 == 0 then 1 else 0)
  {
    if y % 100 == 0 {
      Hundreds(y);
    }
  }

  lemma {:induction false} StartInEra(yoe: int)
    requires 0 <= yoe < 400
    ensures Start(yoe) == 365 * yoe + yoe / 4 - yoe / 100
  {
    if yoe == 0 {
    } else {
      StartInEra(yoe - 1);
      StartStep(yoe - 1);
      QuotientStep(yoe - 1);
      LeapInEra(yoe);
    }
  }

  lemma EraDays()
    ensures Start(400) == 146097
  {
    StartInEra(399);
    StartStep(399);
    assert IsLeap(400);
  }

  lemma Mod4(y: int)
    ensures (y + 400) % 4 == y % 4
  {
  }

  lemma Mod100(y: int)
    ensures (y + 400) % 100 == y % 100
  {
  }

  lemma LeapRepeats(y: int)
    ensures IsLeap(y + 400) == IsLeap(y)
  {
    Mod4(y);
    Mod100(y);
  }

  lemma YearDaysRepeat(y: int)
    ensures YearDays(y + 400) == YearDays(y)
  {
    LeapRepeats(y + 1);
  }

  lemma {:induction false} StartRepeats(y: int)
    ensures Start(y + 400) == Start(y) + 146097
    decreases if y < 0 then -y else y
  {
    if y == 0 {
      EraDays();
    } else if y > 0 {
      StartRepeats(y - 1);
      StartStep(y - 1);
      StartStep(y + 399);
      YearDaysRepeat(y - 1);
    } else {
      StartRepeats(y + 1);
      StartStep(y);
      StartStep(y + 400);
      YearDaysRepeat(y);
    }
  }

  /** Years of every era are as long as those of the first. */
  lemma {:induction false} EraYear(era: int, yoe: int)
    ensures Start(yoe + era * 400) == era * 146097 + Start(yoe)
    ensures YearDays(yoe + era * 400) == YearDays(yoe)
    decreases if era < 0 then -era else era
  {
    if era == 0 {
    } else if era > 0 {
      EraYear(era - 1, yoe);
      StartRepeats(yoe + (era - 1) * 400);
      YearDaysRepeat(yoe + (era - 1) * 400);
    } else {
      EraYear(era + 1, yoe);
      StartRepeats(yoe + era * 400);
      YearDaysRepeat(yoe + era * 400);
    }
  }

  // ----- the day of an era -----

  /** Day doe of an era, as century c, cycle q of four years, year t of it and day u of that. */
  predicate Parts(doe: int, c: int, q: int, t: int, u: int) {
    && doe == 36524 * c + 1461 * q + 365 * t + u
    && 0 <= c <= 3 && 0 <= q <= 24 && 0 <= t <= 3 && 0 <= u <= 365
    && (u == 365 ==> t == 3 && (q < 24 || c == 3))
  }

  lemma EraParts(doe: int) returns (c: int, q: int, t: int, u: int)
    requires 0 <= doe < 146097
    ensures Parts(doe, c, q, t, u)
  {
    c := if doe / 36524 > 3 then 3 else doe / 36524;
    var r := doe - 36524 * c;
    q := r / 1461;
    var s := r - 1461 * q;
    t := if s / 365 > 3 then 3 else s / 365;
    u := s - 365 * t;
  }

  lemma YearOfEraIs(doe: int, c: int, q: int, t: int, u: int)
    requires Parts(doe, c, q, t, u)
    ensures YearOfEra(doe) == 100 * c + 4 * q + t
  {
    var late := if 24 * c + q + 365 * t + u >= 1460 then 1 else 0;
    assert doe / 1460 == 25 * c + q + late;
    var last := if doe == 146096 then 1 else 0;
    assert doe / 36524 == c + last;
    assert doe / 146096 == last;
    assert 0 <= u - late <= 364;
  }

  lemma DayOfYearIs(doe: int, c: int, q: int, t: int, u: int)
    requires Parts(doe, c, q, t, u)
    ensures DayOfYear(doe, 100 * c + 4 * q + t) == u
  {
    var yoe := 100 * c + 4 * q + t;
    assert yoe / 4 == 25 * c + q;
    assert yoe / 100 == c;
  }

  /** The last day of a leap year comes in a leap year. */
  lemma LeapDay(c: int, q: int, t: int)
    requires 0 <= c <= 3 && 0 <= q <= 24 && t == 3 && (q < 24 || c == 3)
    ensures IsLeap(100 * c + 4 * q + t + 1)
  {
    var y := 100 * c + 4 * (q + 1);
    assert y == 4 * (25 * c + q + 1);
    if q < 24 {
      assert y % 100 == 4 * (q + 1);
    } else {
      assert y == 400;
    }
  }

  /** The computed year holds the day. */
  lemma YearHolds(doe: int)
    requires 0 <= doe < 146097
    ensures var yoe := YearOfEra(doe); 0 <= yoe < 400 && 0 <= DayOfYear(doe, yoe) < YearDays(yoe)
  {
    var c, q, t, u := EraParts(doe);
    YearOfEraIs(doe, c, q, t, u);
    DayOfYearIs(doe, c, q, t, u);
    if u == 365 {
      LeapDay(c, q, t);
    }
  }

  /** m is the z-th day from 1 March of year 0. */
  predicate IsDay(m: March, z: int) {
    z == Start(m.year) + m.doy && 0 <= m.doy < YearDays(m.year)
  }

  lemma EraDay(era: int, yoe: int, doy: int)
    requires 0 <= doy < YearDays(yoe)
    ensures IsDay(March(yoe + era * 400, doy), era * 146097 + Start(yoe) + doy)
  {
    EraYear(era, yoe);
  }

  /** The computation finds the year and the day of it, for every day count. */
  lemma ToMarchIs(z: int)
    ensures IsDay(ToMarch(z), z)
  {
    var era := z / 146097;
    var doe := z - era * 146097;
    assert 0 <= doe < 146097;
    YearHolds(doe);
    InEra(z, ToMarch(z), era, doe, YearOfEra(doe));
  }

  lemma InEra(z: int, m: March, era: int, doe: int, yoe: int)
    requires z == era * 146097 + doe && 0 <= yoe < 400 && 0 <= DayOfYear(doe, yoe) < YearDays(yoe)
    requires m == March(yoe + era * 400, DayOfYear(doe, yoe))
    ensures IsDay(m, z)
  {
    StartInEra(yoe);
    EraDay(era, yoe, DayOfYear(doe, yoe));
  }

  lemma IsDayUnique(m: March, n: March, z: int)
    requires IsDay(m, z) && IsDay(n, z)
    ensures m == n
  {
    StartStep(m.year);
    StartStep(n.year);
    YearUnique(z, m.year, n.year);
  }

  function NextMarch(m: March): March {
    if m.doy + 1 < YearDays(m.year) then March(m.year, m.doy + 1) else March(m.year + 1, 0)
  }

  lemma NextDay(m: March, z: int)
    requires IsDay(m, z)
    ensures IsDay(NextMarch(m), z + 1)
  {
    StartStep(m.year);
  }

  // ----- months -----

  /** The month of a day of the year: the day lies between the month's first day and the next month's. */
  lemma MonthHolds(doy: int)
    requires 0 <= doy <= 365
    ensures var mp := MarchMonth(doy); 0 <= mp <= 11 && DaysBefore(mp) <= doy < DaysBefore(mp + 1)
  {
  }

  lemma MonthUnique(doy: int, mp: int)
    requires 0 <= doy <= 365 && 0 <= mp <= 11 && DaysBefore(mp) <= doy < DaysBefore(mp + 1)
    ensures MarchMonth(doy) == mp
  {
  }

  /** The length of the mp-th month from March of year y: the last is cut short by the year's end. */
  function Length(y: int, mp: int): int {
    (if mp == 11 then YearDays(y) else DaysBefore(mp + 1)) - DaysBefore(mp)
  }

  /** The months in order from March have the calendar's lengths. */
  lemma MonthLengths(y: int, mp: int)
    requires 0 <= mp <= 11
    ensures var x := InMonth(y, mp, 1); MonthLength(x.year, x.month) == Length(y, mp)
  {
  }

  lemma InMonthValid(y: int, mp: int, day: int)
    requires 0 <= mp <= 11 && 1 <= day <= Length(y, mp)
    ensures Valid(InMonth(y, mp, day))
  {
    MonthLengths(y, mp);
  }

  lemma InMonthNext(y: int, mp: int, day: int)
    requires 0 <= mp <= 11 && 1 <= day <= Length(y, mp)
    ensures NextDate(InMonth(y, mp, day)) ==
            if day < Length(y, mp) then InMonth(y, mp, day + 1)
            else if mp < 11 then InMonth(y, mp + 1, 1) else InMonth(y + 1, 0, 1)
  {
    MonthLengths(y, mp);
  }

  /** A day of the year is within its month, and the next is the next day of it or the first of the next. */
  lemma DayInMonth(y: int, doy: int)
    requires 0 <= doy < YearDays(y)
    ensures var mp := MarchMonth(doy); 0 <= mp <= 11 && 1 <= doy - DaysBefore(mp) + 1 <= Length(y, mp)
  {
    MonthHolds(doy);
  }

  lemma NextInMonth(y: int, doy: int, mp: int)
    requires 0 <= doy && doy + 1 < YearDays(y) && mp == MarchMonth(doy)
    ensures if doy - DaysBefore(mp) + 1 < Length(y, mp) then MarchMonth(doy + 1) == mp
            else mp < 11 && MarchMonth(doy + 1) == mp + 1 && doy + 1 == DaysBefore(mp + 1)
  {
    MonthHolds(doy);
    MonthUnique(doy + 1, if doy + 1 < DaysBefore(mp + 1) then mp else mp + 1);
  }

  lemma FromMarchValid(m: March)
    requires 0 <= m.doy < YearDays(m.year)
    ensures Valid(FromMarch(m))
  {
    DayInMonth(m.year, m.doy);
    InMonthValid(m.year, MarchMonth(m.doy), m.doy - DaysBefore(MarchMonth(m.doy)) + 1);
  }

  lemma FirstOfMarch()
    ensures MarchMonth(0) == 0 && DaysBefore(0) == 0
  {
  }

  lemma ByMonth(m: March, mp: int, day: int)
    requires mp == MarchMonth(m.doy) && day == m.doy - DaysBefore(mp) + 1
    ensures FromMarch(m) == InMonth(m.year, mp, day)
  {
  }

  lemma NextInYear(y: int, doy: int, mp: int, day: int)
    requires 0 <= doy && doy + 1 < YearDays(y) && mp == MarchMonth(doy) && day == doy - DaysBefore(mp) + 1
    ensures FromMarch(March(y, doy + 1)) ==
            if day < Length(y, mp) then InMonth(y, mp, day + 1) else InMonth(y, mp + 1, 1)
    ensures day >= Length(y, mp) ==> mp < 11
  {
    NextInMonth(y, doy, mp);
    if day < Length(y, mp) {
      ByMonth(March(y, doy + 1), mp, day + 1);
    } else {
      ByMonth(March(y, doy + 1), mp + 1, 1);
    }
  }

  lemma NewYear(y: int)
    ensures FromMarch(March(y, 0)) == InMonth(y, 0, 1)
  {
    FirstOfMarch();
    ByMonth(March(y, 0), 0, 1);
  }

  /** The next day, given its month. */
  lemma NextByMonth(m: March, mp: int, day: int, next: Date)
    requires mp == MarchMonth(m.doy) && day == m.doy - DaysBefore(mp) + 1 && next == NextDate(InMonth(m.year, mp, day))
    ensures next == NextDate(FromMarch(m))
  {
  }

  lemma WithinYear(m: March, next: Date)
    requires 0 <= m.doy && m.doy + 1 < YearDays(m.year) && next == FromMarch(March(m.year, m.doy + 1))
    ensures next == NextDate(FromMarch(m))
  {
    var mp := MarchMonth(m.doy);
    var day := m.doy - DaysBefore(mp) + 1;
    DayInMonth(m.year, m.doy);
    InMonthNext(m.year, mp, day);
    NextInYear(m.year, m.doy, mp, day);
    NextByMonth(m, mp, day, next);
  }

  /** The last of February, which is day 364 or, in a leap year, 365 of the year from 1 March. */
  lemma LastDay(y: int, leap: bool, doy: int)
    requires leap == IsLeap(y + 1) && doy == if leap then 365 else 364
    ensures NextDate(FromMarch(March(y, doy))) == InMonth(y + 1, 0, 1)
  {
    assert MarchMonth(doy) == 11;
    assert DaysBefore(11) == 337;
    ByMonth(March(y, doy), 11, doy - 336);
  }

  lemma OverYear(y: int, leap: bool, m: March)
    requires leap == IsLeap(y + 1) && m == March(y, if leap then 365 else 364)
    ensures FromMarch(March(y + 1, 0)) == NextDate(FromMarch(m))
  {
    LastDay(y, leap, m.doy);
    NewYear(y + 1);
  }

  lemma NextThrough(m: March, n: March, x: Date, y: Date)
    requires 0 <= m.doy < YearDays(m.year) && n == NextMarch(m) && x == FromMarch(m) && y == FromMarch(n)
    ensures y == NextDate(x)
  {
    if m.doy + 1 < YearDays(m.year) {
      WithinYear(m, y);
    } else {
      OverYear(m.year, IsLeap(m.year + 1), m);
    }
  }

  // ----- the results -----

  /** Every day count gives a date of the calendar. */
  lemma CivilValid(days: int)
    ensures Valid(Civil(days))
  {
    ToMarchIs(days + 719468);
    FromMarchValid(ToMarch(days + 719468));
  }

  /** The next day count gives the next date. */
  lemma CivilNext(days: int)
    ensures Civil(days + 1) == NextDate(Civil(days))
  {
    var z := days + 719468;
    var m, n := ToMarch(z), ToMarch(z + 1);
    ToMarchIs(z);
    ToMarchIs(z + 1);
    NextOfDay(m, n, z);
    NextThrough(m, n, Civil(days), Civil(days + 1));
  }

  lemma NextOfDay(m: March, n: March, z: int)
    requires IsDay(m, z) && IsDay(n, z + 1)
    ensures n == NextMarch(m)
  {
    NextDay(m, z);
    IsDayUnique(n, NextMarch(m), z + 1);
  }

  lemma {:induction false} Iterates(f: int -> Date, days: int, n: nat)
    requires forall d, e :: e == d + 1 ==> f(e) == NextDate(f(d))
    ensures f(days + n) == Later(f(days), n)
  {
    if n == 0 {
    } else {
      Iterates(f, days, n - 1);
      assert f(days + n) == NextDate(f(days + (n - 1)));
    }
  }

  lemma EpochInEra(doe: int)
    requires doe == 135080
    ensures YearOfEra(doe) == 369 && DayOfYear(doe, 369) == 306
  {
    YearOfEraIs(doe, 3, 17, 1, 306);
    DayOfYearIs(doe, 3, 17, 1, 306);
  }

  lemma EpochMarch(z: int, era: int, doe: int)
    requires z == 719468 && era == z / 146097 && doe == z - era * 146097
    ensures ToMarch(z) == March(1969, 306)
  {
    assert era == 4;
    EpochInEra(doe);
  }

  lemma EpochDate()
    ensures FromMarch(March(1969, 306)) == EPOCH
  {
    assert MarchMonth(306) == 10;
    assert DaysBefore(10) == 306;
  }

  lemma CivilEpoch()
    ensures Civil(0) == EPOCH
  {
    EpochMarch(719468, 4, 135080);
    EpochDate();
  }

  /** The date of a day count is that many days after 1970-01-01, or, for a negative one, before it. */
  lemma CivilIsDistance(days: int)
    ensures days >= 0 ==> Civil(days) == Later(EPOCH, days)
    ensures days <= 0 ==> Later(Civil(days), -days) == EPOCH
  {
    forall d, e | e == d + 1 ensures Civil(e) == NextDate(Civil(d)) {
      CivilNext(d);
    }
    CivilEpoch();
    if days >= 0 {
      Iterates(Civil, 0, days);
    } else {
      Iterates(Civil, days, -days);
    }
  }

  /** The mp-th month from March that a date is in, and the year that month's March is in. */
  function MarchYear(x: Date): int {
    if x.month <= 2 then x.year - 1 else x.year
  }

  function MonthFromMarch(x: Date): int {
    if x.month <= 2 then x.month + 9 else x.month - 3
  }

  /** The day count of a date: the computation's inverse. */
  function DayCount(x: Date): int {
    Start(MarchYear(x)) + DaysBefore(MonthFromMarch(x)) + x.day - 1 - 719468
  }

  /** Each date of the calendar is the date of exactly one day count. */
  lemma CivilOneToOne(days: int, x: Date)
    requires Valid(x)
    ensures Civil(days) == x <==> days == DayCount(x)
  {
    var m := ToMarch(days + 719468);
    ToMarchIs(days + 719468);
    if Civil(days) == x {
      DayCountOf(m);
    }
    if days == DayCount(x) {
      var n := MarchOf(x);
      IsDayUnique(m, n, days + 719468);
    }
  }

  lemma DayCountOf(m: March)
    requires 0 <= m.doy < YearDays(m.year)
    ensures DayCount(FromMarch(m)) == Start(m.year) + m.doy - 719468
  {
    MonthHolds(m.doy);
  }

  lemma InYear(x: Date, y: int, mp: int)
    requires Valid(x) && y == MarchYear(x) && mp == MonthFromMarch(x)
    ensures 0 <= mp <= 11 && InMonth(y, mp, x.day) == x && 1 <= x.day <= Length(y, mp)
  {
    MonthLengths(y, mp);
  }

  lemma WithinMonth(y: int, mp: int, day: int)
    requires 0 <= mp <= 11 && 1 <= day <= Length(y, mp)
    ensures var doy := DaysBefore(mp) + day - 1; 0 <= doy < YearDays(y) && MarchMonth(doy) == mp
  {
    MonthUnique(DaysBefore(mp) + day - 1, mp);
  }

  lemma MarchOf(x: Date) returns (m: March)
    requires Valid(x)
    ensures IsDay(m, DayCount(x) + 719468) && FromMarch(m) == x
  {
    var y, mp := MarchYear(x), MonthFromMarch(x);
    InYear(x, y, mp);
    WithinMonth(y, mp, x.day);
    m := March(y, DaysBefore(mp) + x.day - 1);
  }
}
