/** Clock times as minutes since midnight, the two text formats the scheduler
    prints them in (moment's "hh:mmA" and "HH:mm"), decimal rendering of
    numbers, and parsers that invert each rendering. */
module Clock {
  import opened Wrappers

  const MinutesPerHour: nat := 60
  const MinutesPerDay: nat := 1440
  /** 12:00 noon: the first minute printed with the "PM" meridiem. */
  const Noon: nat := 720

  function Digit(d: nat): (c: char)
    requires d < 10
    ensures '0' <= c <= '9' && c as int - '0' as int == d
  {
    ('0' as int + d) as char
  }

  predicate IsDigit(c: char) {
    '0' <= c <= '9'
  }

  function DigitValue(c: char): (d: nat)
    requires IsDigit(c)
    ensures d < 10
  {
    c as int - '0' as int
  }

  /** Minutes into the day: a count past midnight wraps into the next day. */
  function TimeOfDay(minutes: nat): (t: nat)
    ensures t < MinutesPerDay
  {
    minutes % MinutesPerDay
  }

  /** Whole hours in a number of minutes. */
  function HourOf(minutes: nat): nat {
    minutes / MinutesPerHour
  }

  /** Minutes past the hour. */
  function MinuteOf(minutes: nat): (m: nat)
    ensures m < MinutesPerHour
  {
    minutes % MinutesPerHour
  }

  function Tens(n: nat): nat {
    n / 10
  }

  /** Two digits, zero-padded on the left. */
  function Pad2(n: nat): (s: string)
    requires n < 100
  {
    [Digit(Tens(n)), Digit(n - 10 * Tens(n))]
  }

  lemma Pad2Digits(n: nat)
    requires n < 100
    ensures |Pad2(n)| == 2 && IsDigit(Pad2(n)[0]) && IsDigit(Pad2(n)[1])
    ensures 10 * DigitValue(Pad2(n)[0]) + DigitValue(Pad2(n)[1]) == n
  {
  }

  /** Hour of the day, 0 to 23. */
  function HourOfDay(minutes: nat): (h: nat)
    ensures h < 24
  {
    HourOf(TimeOfDay(minutes))
  }

  /** The hour as a 12-hour clock shows it: 12, 1, ..., 11. */
  function Hour12(hour24: nat): (h: nat)
    requires hour24 < 24
    ensures 1 <= h <= 12
  {
    if hour24 == 0 then 12 else if hour24 > 12 then hour24 - 12 else hour24
  }

  /** moment's "hh:mmA": 12-hour clock, zero-padded hour and minute, upper-case
      meridiem and no space; a count past midnight wraps into the next day. */
  function Format12(minutes: nat): string {
    var hour24 := HourOfDay(minutes);
    Pad2(Hour12(hour24)) + ":" + Pad2(MinuteOf(TimeOfDay(minutes))) + (if hour24 < 12 then "AM" else "PM")
  }

  /** moment's "HH:mm": 24-hour clock, zero-padded. */
  function Format24(minutes: nat): string {
    Pad2(HourOfDay(minutes)) + ":" + Pad2(MinuteOf(TimeOfDay(minutes)))
  }

  /** Reads an "hh:mmAM"/"hh:mmPM" text back into minutes since midnight. */
  function Parse12(s: string): (r: Option<nat>)
    ensures r.Some? ==> r.value < MinutesPerDay
  {
    if |s| == 7 && IsDigit(s[0]) && IsDigit(s[1]) && s[2] == ':' && IsDigit(s[3]) && IsDigit(s[4])
       && (s[5..] == "AM" || s[5..] == "PM")
    then
      var hour12 := 10 * DigitValue(s[0]) + DigitValue(s[1]);
      var minute := 10 * DigitValue(s[3]) + DigitValue(s[4]);
      if 1 <= hour12 <= 12 && minute < MinutesPerHour then
        Some(((if hour12 == 12 then 0 else hour12) + (if s[5..] == "PM" then 12 else 0)) * MinutesPerHour + minute)
      else None
    else None
  }

  lemma ClockTextParts(hh: string, mm: string, meridiem: string)
    requires |hh| == 2 && |mm| == 2 && |meridiem| == 2
    ensures var s := hh + ":" + mm + meridiem;
            && |s| == 7 && s[0] == hh[0] && s[1] == hh[1] && s[2] == ':'
            && s[3] == mm[0] && s[4] == mm[1] && s[5..] == meridiem
  {
  }

  /** A time of day is its hour of the day and its minute past the hour. */
  lemma TimeOfDaySplit(minutes: nat)
    ensures HourOfDay(minutes) * MinutesPerHour + MinuteOf(TimeOfDay(minutes)) == TimeOfDay(minutes)
  {
  }

  /** Every rendered clock time reads back as the time of day it stands for. */
  lemma Parse12Format12(minutes: nat)
    ensures |Format12(minutes)| == 7
    ensures Parse12(Format12(minutes)) == Some(TimeOfDay(minutes))
  {
    var hour24 := HourOfDay(minutes);
    var minute := MinuteOf(TimeOfDay(minutes));
    var meridiem := if hour24 < 12 then "AM" else "PM";
    Pad2Digits(Hour12(hour24));
    Pad2Digits(minute);
    ClockTextParts(Pad2(Hour12(hour24)), Pad2(minute), meridiem);
    TimeOfDaySplit(minutes);
    var h12 := Hour12(hour24);
    assert (if h12 == 12 then 0 else h12) + (if hour24 < 12 then 0 else 12) == hour24;
  }

  /** Distinct times of day never print the same. */
  lemma Format12Injective(a: nat, b: nat)
    requires a < MinutesPerDay && b < MinutesPerDay && a != b
    ensures Format12(a) != Format12(b)
  {
    Parse12Format12(a);
    Parse12Format12(b);
  }

  /** The meridiem is "PM" exactly from noon on. */
  lemma Format12Meridiem(minutes: nat)
    requires minutes < MinutesPerDay
    ensures Format12(minutes)[5..] == (if minutes < Noon then "AM" else "PM")
  {
    var hour24 := HourOfDay(minutes);
    ClockTextParts(Pad2(Hour12(hour24)), Pad2(MinuteOf(TimeOfDay(minutes))), if hour24 < 12 then "AM" else "PM");
    TimeOfDaySplit(minutes);
  }

  /** The printed form of a clock time given by its hour and minute. */
  lemma Format12Of(hour: nat, minute: nat)
    requires hour < 24 && minute < MinutesPerHour
    ensures Format12(hour * MinutesPerHour + minute)
            == Pad2(Hour12(hour)) + ":" + Pad2(minute) + (if hour < 12 then "AM" else "PM")
  {
    var t := hour * MinutesPerHour + minute;
    assert TimeOfDay(t) == t;
    assert HourOf(t) == hour && MinuteOf(t) == minute;
    assert HourOfDay(t) == hour;
  }

  lemma FiveInTheAfternoon()
    ensures Format12(17 * MinutesPerHour) == "05:00PM"
  {
  }

  /** JavaScript's string order (by UTF-16 code unit; for this program's
      strings, by character): a is a proper prefix of b, or at the first
      difference a has the smaller character. */
  predicate LexLess(a: string, b: string)
    decreases |a|
  {
    if a == [] then b != []
    else b != [] && (a[0] < b[0] || (a[0] == b[0] && LexLess(a[1..], b[1..])))
  }

  /** Two two-digit texts compare as the numbers they stand for. */
  lemma {:induction false} LexLessPad2(x: nat, y: nat, restX: string, restY: string)
    requires x < 100 && y < 100
    ensures LexLess(Pad2(x) + restX, Pad2(y) + restY) <==> x < y || (x == y && LexLess(restX, restY))
  {
    var a, b := Pad2(x) + restX, Pad2(y) + restY;
    assert a[1..] == [Pad2(x)[1]] + restX;
    assert b[1..] == [Pad2(y)[1]] + restY;
    assert a[1..][1..] == restX;
    assert b[1..][1..] == restY;
  }

  lemma LexLessSameHead(c: char, x: string, y: string)
    ensures LexLess([c] + x, [c] + y) <==> LexLess(x, y)
  {
    assert ([c] + x)[1..] == x;
    assert ([c] + y)[1..] == y;
  }

  /** A time of day is ordered by its hour first, then by its minute. */
  lemma HourMinuteOrder(a: nat, b: nat)
    requires a < MinutesPerDay && b < MinutesPerDay
    ensures a < b <==> HourOfDay(a) < HourOfDay(b)
                       || (HourOfDay(a) == HourOfDay(b) && MinuteOf(TimeOfDay(a)) < MinuteOf(TimeOfDay(b)))
  {
    var ha, hb := HourOfDay(a), HourOfDay(b);
    var ma, mb := MinuteOf(TimeOfDay(a)), MinuteOf(TimeOfDay(b));
    TimeOfDaySplit(a);
    TimeOfDaySplit(b);
    assert TimeOfDay(a) == a && TimeOfDay(b) == b;
    if ha < hb {
      assert ha * MinutesPerHour + MinutesPerHour <= hb * MinutesPerHour;
    } else if hb < ha {
      assert hb * MinutesPerHour + MinutesPerHour <= ha * MinutesPerHour;
    }
  }

  /** Comparing "HH:mm" texts as strings, as the source does, is comparing
      the times of day they print. */
  lemma {:induction false} Format24Order(a: nat, b: nat)
    requires a < MinutesPerDay && b < MinutesPerDay
    ensures LexLess(Format24(a), Format24(b)) <==> a < b
  {
    var minA, minB := Pad2(MinuteOf(TimeOfDay(a))), Pad2(MinuteOf(TimeOfDay(b)));
    assert Format24(a) == Pad2(HourOfDay(a)) + ([':'] + minA);
    assert Format24(b) == Pad2(HourOfDay(b)) + ([':'] + minB);
    LexLessPad2(HourOfDay(a), HourOfDay(b), [':'] + minA, [':'] + minB);
    LexLessSameHead(':', minA, minB);
    assert minA == minA + [];
    assert minB == minB + [];
    LexLessPad2(MinuteOf(TimeOfDay(a)), MinuteOf(TimeOfDay(b)), [], []);
    HourMinuteOrder(a, b);
  }

  lemma Format24Of1600()
    ensures Format24(16 * MinutesPerHour) == "16:00"
  {
    assert HourOf(960) == 16;
    assert Pad2(16) == "16";
    assert Pad2(0) == "00";
  }

  /** Decimal rendering of a natural number, as JavaScript prints an integer. */
  function NatToString(n: nat): (s: string)
    ensures |s| >= 1 && forall i :: 0 <= i < |s| ==> IsDigit(s[i])
    ensures |s| > 1 ==> s[0] != '0'
  {
    if n < 10 then [Digit(n)] else NatToString(n / 10) + [Digit(n % 10)]
  }

  /** Reads a string of digits as a decimal number. */
  function ParseNat(s: string): nat
    requires forall i :: 0 <= i < |s| ==> IsDigit(s[i])
  {
    if s == [] then 0 else 10 * ParseNat(s[..|s| - 1]) + DigitValue(s[|s| - 1])
  }

  lemma {:induction false} ParseNatToString(n: nat)
    ensures ParseNat(NatToString(n)) == n
  {
    if n >= 10 {
      var s := NatToString(n);
      assert s[..|s| - 1] == NatToString(n / 10);
      ParseNatToString(n / 10);
    }
  }
}
