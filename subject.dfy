/** What a divert notification's subject line carries: the switch time,
    written `YYYY_MM_DD HH:MM`, and the divert system's name. Both divert
    parsers read the subject the same way. Times are whole seconds counted
    from the proleptic Gregorian day 1 (0001-01-01 is day 1), so subtracting
    two of them gives the length of a `timedelta` in seconds. */
module Subject {
  import opened Text

  datatype DateTime = DateTime(year: int, month: int, day: int, hour: int, minute: int)

  predicate IsLeap(y: int) {
    y % 4 == 0 && (y % 100 != 0 || y % 400 == 0)
  }

  function DaysInMonth(y: int, m: int): int
    requires 1 <= m <= 12
  {
    if m == 2 then (if IsLeap(y) then 29 else 28)
    else if m == 4 || m == 6 || m == 9 || m == 11 then 30
    else 31
  }

  function DaysInYear(y: int): int {
    if IsLeap(y) then 366 else 365
  }

  /** What `datetime` accepts: year 1 and later, a real calendar day, and a
      time of day to the minute. */
  predicate ValidDateTime(dt: DateTime) {
    dt.year >= 1 && 1 <= dt.month <= 12 && 1 <= dt.day <= DaysInMonth(dt.year, dt.month)
    && 0 <= dt.hour <= 23 && 0 <= dt.minute <= 59
  }

  function DaysBeforeYear(y: int): int
    requires y >= 1
  {
    var z := y - 1;
    z * 365 + z / 4 - z / 100 + z / 400
  }

  function DaysBeforeMonth(y: int, m: int): int
    requires 1 <= m <= 12
  {
    var common := [0, 31, 59, 90, 120, 151, 181, 212, 243, 273, 304, 334][m - 1];
    common + (if m > 2 && IsLeap(y) then 1 else 0)
  }

  /** `date.toordinal()`. */
  function Ordinal(y: int, m: int, d: int): int
    requires y >= 1 && 1 <= m <= 12
  {
    DaysBeforeYear(y) + DaysBeforeMonth(y, m) + d
  }

  function ToSeconds(dt: DateTime): int
    requires ValidDateTime(dt)
  {
    Ordinal(dt.year, dt.month, dt.day) * 86400 + dt.hour * 3600 + dt.minute * 60
  }

  /** `datetime.min`, 0001-01-01 00:00, in seconds. */
  const DateTimeMin: int := 86400

  /** No valid date-time is earlier than `datetime.min`. */
  lemma DateTimeMinEarliest(dt: DateTime)
    requires ValidDateTime(dt)
    ensures ToSeconds(DateTime(1, 1, 1, 0, 0)) == DateTimeMin
    ensures DateTimeMin <= ToSeconds(dt)
  {
    DaysBeforeYearNonNegative(dt.year);
    var o := Ordinal(dt.year, dt.month, dt.day);
    assert o >= 1;
    var rest := dt.hour * 3600 + dt.minute * 60;
    assert rest >= 0;
    assert o * 86400 == (o - 1) * 86400 + 86400;
    assert (o - 1) * 86400 >= 0;
  }

  lemma DaysBeforeYearNonNegative(y: int)
    requires y >= 1
    ensures DaysBeforeYear(y) >= 0
  {
    var z := y - 1;
    assert z / 4 >= z / 100;
    assert z * 365 >= 0;
  }

  /** Chronological order of two date-times. */
  predicate Before(a: DateTime, b: DateTime) {
    a.year < b.year
    || (a.year == b.year && a.month < b.month)
    || (a.year == b.year && a.month == b.month && a.day < b.day)
    || (a.year == b.year && a.month == b.month && a.day == b.day && a.hour < b.hour)
    || (a.year == b.year && a.month == b.month && a.day == b.day && a.hour == b.hour
        && a.minute < b.minute)
  }

  lemma DaysBeforeNextYear(y: int)
    requires y >= 1
    ensures DaysBeforeYear(y + 1) == DaysBeforeYear(y) + DaysInYear(y)
  {
    var z := y - 1;
    assert (z + 1) / 4 == z / 4 + (if y % 4 == 0 then 1 else 0);
    assert (z + 1) / 100 == z / 100 + (if y % 100 == 0 then 1 else 0);
    assert (z + 1) / 400 == z / 400 + (if y % 400 == 0 then 1 else 0);
  }

  lemma {:induction false} DaysBeforeYearGrows(y1: int, y2: int)
    requires 1 <= y1 < y2
    ensures DaysBeforeYear(y1) + DaysInYear(y1) <= DaysBeforeYear(y2)
    decreases y2 - y1
  {
    DaysBeforeNextYear(y1);
    if y1 + 1 < y2 {
      DaysBeforeYearGrows(y1 + 1, y2);
    }
  }

  lemma MonthEnds(y: int, m: int)
    requires 1 <= m <= 12
    ensures m < 12 ==> DaysBeforeMonth(y, m) + DaysInMonth(y, m) == DaysBeforeMonth(y, m + 1)
    ensures m == 12 ==> DaysBeforeMonth(y, m) + DaysInMonth(y, m) == DaysInYear(y)
  {
  }

  lemma {:induction false} DaysBeforeMonthGrows(y: int, m1: int, m2: int)
    requires 1 <= m1 < m2 <= 12
    ensures DaysBeforeMonth(y, m1) + DaysInMonth(y, m1) <= DaysBeforeMonth(y, m2)
    decreases m2 - m1
  {
    MonthEnds(y, m1);
    if m1 + 1 < m2 {
      DaysBeforeMonthGrows(y, m1 + 1, m2);
    }
  }

  /** The seconds encoding keeps chronological order, so comparing and
      sorting encoded times is comparing and sorting the date-times. */
  lemma ToSecondsMonotone(a: DateTime, b: DateTime)
    requires ValidDateTime(a) && ValidDateTime(b) && Before(a, b)
    ensures ToSeconds(a) < ToSeconds(b)
  {
    var oa := Ordinal(a.year, a.month, a.day);
    var ob := Ordinal(b.year, b.month, b.day);
    if a.year < b.year {
      MonthEnds(a.year, a.month);
      if a.month < 12 {
        DaysBeforeMonthGrows(a.year, a.month, 12);
        MonthEnds(a.year, 12);
      }
      DaysBeforeYearGrows(a.year, b.year);
      assert oa < ob;
    } else if a.month < b.month {
      DaysBeforeMonthGrows(a.year, a.month, b.month);
      assert oa < ob;
    }
  }

  // ---------------------------------------------------------------------
  // Scanning the subject for `\d{4}_\d{2}_\d{2}\s+\d{2}:\d{2}`

  predicate DigitsAt(s: string, i: nat, n: nat) {
    i + n <= |s| && forall k :: i <= k < i + n ==> IsDigit(s[k])
  }

  function DigitValue(c: char): nat
    requires IsDigit(c)
  {
    (c as int - '0' as int) as nat
  }

  /** The decimal value of the `n` digits at `i`. */
  function Number(s: string, i: nat, n: nat): nat
    requires DigitsAt(s, i, n)
  {
    if n == 0 then 0 else Number(s, i, n - 1) * 10 + DigitValue(s[i + n - 1])
  }

  /** Length of the whitespace run starting at `i`. */
  function SpaceRun(s: string, i: nat): (n: nat)
    ensures i + n <= |s| || n == 0
    ensures forall k :: i <= k < i + n ==> IsSpace(s[k])
    ensures i + n < |s| ==> !IsSpace(s[i + n])
    decreases |s| - i
  {
    if i < |s| && IsSpace(s[i]) then 1 + SpaceRun(s, i + 1) else 0
  }

  /** The time pattern matches at `i`. */
  predicate StampAt(s: string, i: nat) {
    DigitsAt(s, i, 4) && i + 4 < |s| && s[i + 4] == '_'
    && DigitsAt(s, i + 5, 2) && i + 7 < |s| && s[i + 7] == '_'
    && DigitsAt(s, i + 8, 2)
    && SpaceRun(s, i + 10) >= 1
    && var j := i + 10 + SpaceRun(s, i + 10);
       DigitsAt(s, j, 2) && j + 2 < |s| && s[j + 2] == ':' && DigitsAt(s, j + 3, 2)
  }

  /** The five numbers a pattern match at `i` spells. */
  function StampFields(s: string, i: nat): DateTime
    requires StampAt(s, i)
  {
    var j := i + 10 + SpaceRun(s, i + 10);
    DateTime(Number(s, i, 4), Number(s, i + 5, 2), Number(s, i + 8, 2),
             Number(s, j, 2), Number(s, j + 3, 2))
  }

  /** `re.search`: the leftmost match at or after `from`. */
  function FirstStamp(s: string, from: nat): (r: Option<nat>)
    ensures r.Some? ==> from <= r.value < |s| && StampAt(s, r.value)
                        && forall k :: from <= k < r.value ==> !StampAt(s, k)
    ensures r.None? ==> forall k :: from <= k < |s| ==> !StampAt(s, k)
    decreases |s| - from
  {
    if from >= |s| then None
    else if StampAt(s, from) then Some(from)
    else FirstStamp(s, from + 1)
  }

  /** The subject's switch time: only the leftmost pattern match is read, and
      a match that is not a real date-time gives no time at all. */
  function ParseTimestamp(subject: string): (t: Option<int>)
    ensures t.Some? ==> FirstStamp(subject, 0).Some?
                        && ValidDateTime(StampFields(subject, FirstStamp(subject, 0).value))
                        && t.value == ToSeconds(StampFields(subject, FirstStamp(subject, 0).value))
    ensures (FirstStamp(subject, 0).Some?
             && ValidDateTime(StampFields(subject, FirstStamp(subject, 0).value))) ==> t.Some?
  {
    match FirstStamp(subject, 0)
    case None => None
    case Some(i) =>
      var dt := StampFields(subject, i);
      if ValidDateTime(dt) then Some(ToSeconds(dt)) else None
  }

  // ---------------------------------------------------------------------
  // Writing a date-time the way the notifications do

  function DigitChar(n: nat): (c: char)
    requires n < 10
    ensures IsDigit(c) && DigitValue(c) == n
  {
    ('0' as int + n) as char
  }

  function Pad2(n: nat): (r: string)
    requires n < 100
    ensures |r| == 2
  {
    [DigitChar(n / 10), DigitChar(n % 10)]
  }

  function Pad4(n: nat): (r: string)
    requires n < 10000
    ensures |r| == 4
  {
    Pad2(n / 100) + Pad2(n % 100)
  }

  /** `YYYY_MM_DD HH:MM`. */
  function FormatStamp(dt: DateTime): (r: string)
    requires ValidDateTime(dt) && dt.year < 10000
    ensures |r| == 16
  {
    Pad4(dt.year) + "_" + Pad2(dt.month) + "_" + Pad2(dt.day) + " "
    + Pad2(dt.hour) + ":" + Pad2(dt.minute)
  }

  lemma NumberPad2(s: string, i: nat, n: nat)
    requires n < 100 && i + 2 <= |s| && s[i..i + 2] == Pad2(n)
    ensures DigitsAt(s, i, 2) && Number(s, i, 2) == n
  {
    assert s[i] == DigitChar(n / 10) && s[i + 1] == DigitChar(n % 10);
    assert DigitsAt(s, i, 1);
    assert Number(s, i, 1) == n / 10;
  }

  lemma NumberPad4(s: string, i: nat, n: nat)
    requires n < 10000 && i + 4 <= |s| && s[i..i + 4] == Pad4(n)
    ensures DigitsAt(s, i, 4) && Number(s, i, 4) == n
  {
    assert s[i..i + 4][..2] == s[i..i + 2] && s[i..i + 4][2..] == s[i + 2..i + 4];
    assert Pad4(n)[..2] == Pad2(n / 100) && Pad4(n)[2..] == Pad2(n % 100);
    NumberPad2(s, i, n / 100);
    NumberPad2(s, i + 2, n % 100);
    var d2, d3 := s[i + 2], s[i + 3];
    assert d2 == DigitChar(n % 100 / 10) && d3 == DigitChar(n % 100 % 10);
    assert DigitsAt(s, i, 3);
    assert Number(s, i, 3) == (n / 100) * 10 + n % 100 / 10;
  }

  /** A written time is a pattern match that spells that time. */
  lemma StampAtFormatted(s: string, i: nat, dt: DateTime)
    requires ValidDateTime(dt) && dt.year < 10000
    requires i + 16 <= |s| && s[i..i + 16] == FormatStamp(dt)
    ensures StampAt(s, i) && StampFields(s, i) == dt
  {
    FormatStampPieces(s, i, dt);
    NumberPad4(s, i, dt.year);
    NumberPad2(s, i + 5, dt.month);
    NumberPad2(s, i + 8, dt.day);
    NumberPad2(s, i + 11, dt.hour);
    NumberPad2(s, i + 14, dt.minute);
    assert !IsSpace(s[i + 11]);
    assert SpaceRun(s, i + 10) == 1;
  }

  /** Where each field and separator of a written time lies. */
  lemma FormatStampPieces(s: string, i: nat, dt: DateTime)
    requires ValidDateTime(dt) && dt.year < 10000
    requires i + 16 <= |s| && s[i..i + 16] == FormatStamp(dt)
    ensures s[i..i + 4] == Pad4(dt.year) && s[i + 4] == '_'
    ensures s[i + 5..i + 7] == Pad2(dt.month) && s[i + 7] == '_'
    ensures s[i + 8..i + 10] == Pad2(dt.day) && s[i + 10] == ' '
    ensures s[i + 11..i + 13] == Pad2(dt.hour) && s[i + 13] == ':'
    ensures s[i + 14..i + 16] == Pad2(dt.minute)
  {
    var f := FormatStamp(dt);
    assert forall k :: 0 <= k < 16 ==> s[i + k] == f[k];
    assert f[..4] == Pad4(dt.year);
    assert f[5..7] == Pad2(dt.month);
    assert f[8..10] == Pad2(dt.day);
    assert f[11..13] == Pad2(dt.hour);
    assert f[14..16] == Pad2(dt.minute);
  }

  /** Whatever surrounds a written time, the subject reads back as that time,
      provided no digit comes before it. */
  lemma ParseFormattedStamp(prefix: string, dt: DateTime, suffix: string)
    requires ValidDateTime(dt) && dt.year < 10000
    requires forall k :: 0 <= k < |prefix| ==> !IsDigit(prefix[k])
    ensures ParseTimestamp(prefix + FormatStamp(dt) + suffix) == Some(ToSeconds(dt))
  {
    var s := prefix + FormatStamp(dt) + suffix;
    var i := |prefix|;
    assert s[i..i + 16] == FormatStamp(dt);
    StampAtFormatted(s, i, dt);
    forall k | 0 <= k < i
      ensures !StampAt(s, k)
    {
      assert s[k] == prefix[k];
    }
  }

  // ---------------------------------------------------------------------

  /** The divert system named in the subject; the three names are checked
      in the order SoG DDS, NC-DDS, Saanich DDS. */
  function ExtractSystem(subject: string): (system: Option<string>)
    ensures system == Some("SoG DDS") <==> Contains(subject, "SoG DDS")
    ensures system == Some("NC-DDS") <==>
              !Contains(subject, "SoG DDS") && Contains(subject, "NC-DDS")
    ensures system == Some("Saanich DDS") <==>
              !Contains(subject, "SoG DDS") && !Contains(subject, "NC-DDS")
              && Contains(subject, "Saanich DDS")
    ensures system.None? <==>
              !Contains(subject, "SoG DDS") && !Contains(subject, "NC-DDS")
              && !Contains(subject, "Saanich DDS")
  {
    if Contains(subject, "SoG DDS") then Some("SoG DDS")
    else if Contains(subject, "NC-DDS") then Some("NC-DDS")
    else if Contains(subject, "Saanich DDS") then Some("Saanich DDS")
    else None
  }
}
