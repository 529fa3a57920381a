/** Calendar dates and the clock reading used for a Report's default
    "Created" attribute, with the PHP date() formats the core uses. */
module Dates {
  import opened Decimal

  type Month = m: nat | 1 <= m <= 12 witness 1
  type Day = d: nat | 1 <= d <= 31 witness 1
  type Hour = h: nat | h < 24
  type Minute = m: nat | m < 60
  /** A UTC offset in minutes, strictly less than a day either way. */
  type Offset = o: int | -1440 < o < 1440

  /** The calendar part of a \DateTime (years before year 0 are not modelled). */
  datatype Date = Date(year: nat, month: Month, day: Day)

  /** A clock reading with its UTC offset. */
  datatype Instant = Instant(date: Date, hour: Hour, minute: Minute, second: Minute, offset: Offset)

  /** date()'s Y: the year with at least four digits. */
  function YearText(year: nat): (s: string)
    ensures |s| >= 4 && AllDigits(s)
  {
    PadLeft(NatToString(year), 4)
  }

  /** date_format($d, 'Y-m-d'), used for Period/Begin, Period/End and ItemDate/Value. */
  function FormatYmd(d: Date): (s: string)
    ensures |s| == |YearText(d.year)| + 6
  {
    YearText(d.year) + (['-'] + TwoDigits(d.month) + (['-'] + TwoDigits(d.day)))
  }

  /** Where the year, month and day stand in the formatted date. */
  lemma FormatYmdParts(d: Date)
    ensures var s, n := FormatYmd(d), |YearText(d.year)|;
      s[..n] == YearText(d.year) && s[n] == '-' && s[n + 3] == '-'
      && s[n + 1] == TwoDigits(d.month)[0] && s[n + 2] == TwoDigits(d.month)[1]
      && s[n + 4] == TwoDigits(d.day)[0] && s[n + 5] == TwoDigits(d.day)[1]
  {
    var y, rest := YearText(d.year), ['-'] + TwoDigits(d.month) + (['-'] + TwoDigits(d.day));
    assert FormatYmd(d) == y + rest;
    assert forall i :: 0 <= i < |rest| ==> (y + rest)[|y| + i] == rest[i];
  }

  /** Distinct years have distinct `Y` texts. */
  lemma YearTextInjective(a: nat, b: nat)
    requires YearText(a) == YearText(b)
    ensures a == b
  {
    PadLeftValue(a, 4);
    PadLeftValue(b, 4);
  }

  /** Formatting a date as Y-m-d loses nothing: dates that format alike are equal. */
  lemma FormatYmdInjective(d: Date, e: Date)
    requires FormatYmd(d) == FormatYmd(e)
    ensures d == e
  {
    FormatYmdParts(d);
    FormatYmdParts(e);
    var n := |YearText(d.year)|;
    assert |YearText(e.year)| == n;
    assert YearText(d.year) == FormatYmd(d)[..n] == YearText(e.year);
    YearTextInjective(d.year, e.year);
    assert TwoDigits(d.month) == TwoDigits(e.month);
    assert TwoDigits(d.day) == TwoDigits(e.day);
    TwoDigitsInjective(d.month, e.month);
    TwoDigitsInjective(d.day, e.day);
  }

  /** date()'s P: "+hh:mm" or "-hh:mm". */
  function OffsetText(o: Offset): (s: string)
    ensures |s| == 6
  {
    var a: nat := if o < 0 then -o else o;
    (if o < 0 then "-" else "+") + TwoDigits(a / 60) + ":" + TwoDigits(a % 60)
  }

  /** date()'s h: the hour on a 12-hour clock, 01 to 12, with no am/pm marker. */
  function Hour12(h: Hour): (r: nat)
    ensures 1 <= r <= 12
  {
    if h % 12 == 0 then 12 else h % 12
  }

  /** date("Y-m-d\T" + hh + ":i:sP") at `t`, for the two-character hour text `hh`. */
  function Stamp(t: Instant, hh: string): (s: string)
    requires |hh| == 2
    ensures |s| == |FormatYmd(t.date)| + 15
  {
    FormatYmd(t.date) + (['T'] + hh + ([':'] + TwoDigits(t.minute) + ([':'] + TwoDigits(t.second) + OffsetText(t.offset))))
  }

  lemma StampHourAt(t: Instant, hh: string)
    requires |hh| == 2
    ensures var k := |FormatYmd(t.date)|;
      Stamp(t, hh)[k] == 'T' && Stamp(t, hh)[k + 1] == hh[0] && Stamp(t, hh)[k + 2] == hh[1]
  {
    var d := FormatYmd(t.date);
    var tail := [':'] + TwoDigits(t.minute) + ([':'] + TwoDigits(t.second) + OffsetText(t.offset));
    var head := ['T'] + hh;
    assert head[0] == 'T' && head[1] == hh[0] && head[2] == hh[1];
    var rest := head + tail;
    assert rest[0] == head[0] && rest[1] == head[1] && rest[2] == head[2];
    assert Stamp(t, hh) == d + rest;
  }

  /** The default Created stamp as Report's constructor writes it: date("Y-m-d\Th:i:sP"). */
  function CreatedStampAsWritten(t: Instant): (s: string)
    ensures s != []
  {
    Stamp(t, TwoDigits(Hour12(t.hour)))
  }

  /** As written, a morning instant and the afternoon instant twelve hours later
      produce the same stamp, so the stamp is not the ISO-8601 time it is meant to be. */
  lemma CreatedStampAsWrittenConflatesHalfDays(t: Instant)
    requires t.hour < 12
    ensures var pm := t.(hour := t.hour + 12);
      pm != t && CreatedStampAsWritten(pm) == CreatedStampAsWritten(t)
  {
    assert Hour12(t.hour + 12) == Hour12(t.hour);
  }

  /** The intended default Created stamp: ISO-8601 with offset, date("Y-m-d\TH:i:sP"). */
  function CreatedStamp(t: Instant): (s: string)
    ensures s != []
  {
    Stamp(t, TwoDigits(t.hour))
  }

  /** The intended stamp keeps the 24-hour hour: instants on the same date that
      differ in the hour give different stamps. */
  lemma CreatedStampKeepsHour(t: Instant, u: Instant)
    requires t.date == u.date && t.hour != u.hour
    ensures CreatedStamp(t) != CreatedStamp(u)
  {
    StampHourAt(t, TwoDigits(t.hour));
    StampHourAt(u, TwoDigits(u.hour));
    if CreatedStamp(t) == CreatedStamp(u) {
      assert TwoDigits(t.hour) == TwoDigits(u.hour);
      TwoDigitsInjective(t.hour, u.hour);
    }
  }
}
