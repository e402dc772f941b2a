/**
  `stringFromDate`: renders the components of a date as an ISO 8601 string by
  appending a year, a date, a time and a time-zone segment, each chosen by the
  configured style.
 */
module Formatter {
  import opened Options
  import opened Decimal
  import opened Styles

  /**
    The components `stringFromDate` reads. All but two come from one calendar
    decomposition of the date; the two week numbers come from different places:
    `isoWeek` is the Monday-first, four-day-minimum week of the date, while
    `calendarWeek` is the decomposition's own week of year.
   */
  datatype DateValues = DateValues(
    year: int,
    month: int,
    day: int,
    weekday: int,            // Sunday = 1 ... Saturday = 7
    dayOfYear: int,
    isoWeek: int,
    calendarWeek: int,
    hour: int,
    minute: int,
    second: int,
    secondsFromGMT: Option<int>)  // None when the decomposition carries no time zone

  /** The ISO (Monday-first) weekday for a Sunday-first weekday: the same day, renumbered. */
  function IsoWeekday(weekday: int): (r: int)
    ensures 1 <= weekday <= 7 ==> 1 <= r <= 7 && (r - (weekday - 1)) % 7 == 0
    ensures weekday == 1 ==> r == 7
  {
    if weekday > 1 then weekday - 1 else 7
  }

  /** Whole hours in a UTC offset, rounded toward zero as Swift's `/` on Int does. */
  function OffsetHours(secondsFromGMT: int): (h: int)
    ensures secondsFromGMT >= 0 ==> h >= 0 && 3600 * h <= secondsFromGMT < 3600 * h + 3600
    ensures secondsFromGMT < 0 ==> h <= 0 && 3600 * h - 3600 < secondsFromGMT <= 3600 * h
  {
    if secondsFromGMT >= 0 then secondsFromGMT / 3600 else -((-secondsFromGMT) / 3600)
  }

  /** The year printed: one less under the week styles whenever the ISO week is 53. */
  function YearShown(cfg: Config, d: DateValues): int {
    if cfg.dateStyle.IsWeek() && d.isoWeek == 53 then d.year - 1 else d.year
  }

  function DateSegment(style: DateStyle, d: DateValues): string {
    match style
    case CalendarLong => "-" + FormatInt(d.month, 2) + "-" + FormatInt(d.day, 2)
    case CalendarShort => FormatInt(d.month, 2) + FormatInt(d.day, 2)
    case OrdinalLong => "-" + FormatInt(d.dayOfYear, 3)
    case OrdinalShort => FormatInt(d.dayOfYear, 3)
    case WeekLong => "-W" + FormatInt(d.isoWeek, 2) + "-" + FormatInt(IsoWeekday(d.weekday), 1)
    case WeekShort => "W" + FormatInt(d.calendarWeek, 2) + FormatInt(IsoWeekday(d.weekday), 1)
  }

  /** Both the long and the short time style print this form. */
  function TimeSegment(d: DateValues): string {
    "T" + FormatInt(d.hour, 2) + ":" + FormatInt(d.minute, 2) + ":" + FormatInt(d.second, 2)
  }

  /**
    A numeric offset: a sign chosen by the whole hours, then the hours printed
    with `%02i` (so a negative hour brings its own minus sign), then a minute
    field that is always the constant 0.
   */
  function OffsetSegment(style: TimeZoneStyle, secondsFromGMT: int): string {
    var hoursOffset := OffsetHours(secondsFromGMT);
    var secondsOffset := 0;
    var sign := if hoursOffset >= 0 then "+" else "-";
    if style == LongZone then sign + FormatInt(hoursOffset, 2) + ":" + FormatInt(secondsOffset, 2)
    else sign + FormatInt(hoursOffset, 2) + FormatInt(secondsOffset, 2)
  }

  /** Empty when the time style is none; otherwise the time, then the zone designator if the date carries a zone. */
  function TimeAndZone(cfg: Config, d: DateValues): string {
    if cfg.timeStyle == NoTime then ""
    else TimeSegment(d) + ZoneSegment(cfg.timeZoneStyle, d.secondsFromGMT)
  }

  function ZoneSegment(style: TimeZoneStyle, secondsFromGMT: Option<int>): string {
    match secondsFromGMT
    case None => ""
    case Some(secs) =>
      match style
      case NoZone => ""
      case UTC => "Z"
      case _ => OffsetSegment(style, secs)
  }

  function StringFromDate(cfg: Config, d: DateValues): Option<string> {
    if d.year < 0 || d.year > 9999 then None
    else Some(FormatInt(YearShown(cfg, d), 4) + DateSegment(cfg.dateStyle, d) + TimeAndZone(cfg, d))
  }

  // ---------------------------------------------------------------------------
  // Properties of the rendering

  /**
    There is a string exactly when the year lies in 0..9999, and it opens with
    four digits spelling the year, or the year before under a week style when
    the ISO week is 53.
   */
  lemma YearSegment(cfg: Config, d: DateValues)
    ensures StringFromDate(cfg, d).None? <==> d.year < 0 || d.year > 9999
    ensures StringFromDate(cfg, d).Some? && !(cfg.dateStyle.IsWeek() && d.isoWeek == 53) ==>
      var r := StringFromDate(cfg, d).value;
      |r| >= 4 && AllDigits(r[..4]) && DigitsValue(r[..4]) == d.year
    ensures StringFromDate(cfg, d).Some? && cfg.dateStyle.IsWeek() && d.isoWeek == 53 && d.year >= 1 ==>
      var r := StringFromDate(cfg, d).value;
      |r| >= 4 && AllDigits(r[..4]) && DigitsValue(r[..4]) == d.year - 1
  {
    if StringFromDate(cfg, d).Some? {
      var y := FormatInt(YearShown(cfg, d), 4);
      var r := StringFromDate(cfg, d).value;
      if YearShown(cfg, d) >= 0 {
        assert |y| == 4;
        assert r[..4] == y;
      }
    }
  }

  /** Year 0 under a week style in ISO week 53 prints the year -1 as "-001". */
  lemma YearZeroInWeekFiftyThree(cfg: Config, d: DateValues)
    requires cfg.dateStyle.IsWeek() && d.isoWeek == 53 && d.year == 0
    ensures StringFromDate(cfg, d).Some? && StringFromDate(cfg, d).value[..4] == "-001"
  {
    var y := FormatInt(-1, 4);
    assert y == "-001" by {
      assert Pad(1, 3) == Zeros(2) + NatDigits(1);
      assert NatDigits(1) == ['1'];
    }
    assert StringFromDate(cfg, d).value[..4] == y;
  }

  /** The date fields a rendering can print faithfully: each fits its printf width. */
  predicate FieldsFit(d: DateValues) {
    && 0 <= d.year <= 9999
    && 0 <= d.month <= 99 && 0 <= d.day <= 99
    && 0 <= d.dayOfYear <= 999
    && 0 <= d.isoWeek <= 99 && 0 <= d.calendarWeek <= 99
    && 1 <= d.weekday <= 7
  }

  /** Without a time style the rendering is the year segment and the date segment alone. */
  lemma {:induction false} DateOnlyLayout(cfg: Config, d: DateValues)
    requires 0 <= d.year <= 9999 && cfg.timeStyle == NoTime
    ensures StringFromDate(cfg, d).Some?
    ensures StringFromDate(cfg, d).value == FormatInt(YearShown(cfg, d), 4) + DateSegment(cfg.dateStyle, d)
    ensures |FormatInt(YearShown(cfg, d), 4)| == 4 || (cfg.dateStyle.IsWeek() && d.isoWeek == 53 && d.year == 0)
  {
    assert StringFromDate(cfg, d).value == FormatInt(YearShown(cfg, d), 4) + DateSegment(cfg.dateStyle, d) + "";
  }

  /** Calendar styles: `-MM-DD` or `MMDD` after the year, the digits spelling month and day. */
  lemma CalendarSegmentLayout(cfg: Config, d: DateValues)
    requires FieldsFit(d) && cfg.timeStyle == NoTime && cfg.dateStyle.IsCalendar()
    ensures StringFromDate(cfg, d).Some?
    ensures var r := StringFromDate(cfg, d).value;
      && (cfg.dateStyle == CalendarLong ==>
            |r| == 10 && r[4] == '-' && r[7] == '-'
            && AllDigits(r[5..7]) && DigitsValue(r[5..7]) == d.month
            && AllDigits(r[8..10]) && DigitsValue(r[8..10]) == d.day)
      && (cfg.dateStyle == CalendarShort ==>
            |r| == 8
            && AllDigits(r[4..6]) && DigitsValue(r[4..6]) == d.month
            && AllDigits(r[6..8]) && DigitsValue(r[6..8]) == d.day)
  {
    DateOnlyLayout(cfg, d);
    var y := FormatInt(YearShown(cfg, d), 4);
    var mm, dd := FormatInt(d.month, 2), FormatInt(d.day, 2);
    assert |y| == 4 && |mm| == 2 && |dd| == 2;
    if cfg.dateStyle == CalendarLong {
      SeparatedDigits(y, "-", mm, "-", dd, d.month, d.day);
    } else {
      AdjacentDigits(y, mm, dd, d.month, d.day);
    }
  }

  /** Ordinal styles: `-DDD` or `DDD` after the year, the digits spelling the day of year. */
  lemma OrdinalSegmentLayout(cfg: Config, d: DateValues)
    requires FieldsFit(d) && cfg.timeStyle == NoTime && cfg.dateStyle.IsOrdinal()
    ensures StringFromDate(cfg, d).Some?
    ensures var r := StringFromDate(cfg, d).value;
      && (cfg.dateStyle == OrdinalLong ==>
            |r| == 8 && r[4] == '-' && AllDigits(r[5..8]) && DigitsValue(r[5..8]) == d.dayOfYear)
      && (cfg.dateStyle == OrdinalShort ==>
            |r| == 7 && AllDigits(r[4..7]) && DigitsValue(r[4..7]) == d.dayOfYear)
  {
    DateOnlyLayout(cfg, d);
    var y := FormatInt(YearShown(cfg, d), 4);
    var ddd := FormatInt(d.dayOfYear, 3);
    assert |y| == 4 && |ddd| == 3;
    if cfg.dateStyle == OrdinalLong {
      LedDigits(y, "-", ddd, d.dayOfYear);
    } else {
      var r := y + ddd;
      assert r[4..7] == ddd;
    }
  }

  /**
    Week styles: `-Www-D` with the ISO week, or `WwwD` with the calendar's own
    week of year, the last digit being the ISO weekday.
   */
  lemma WeekSegmentLayout(cfg: Config, d: DateValues)
    requires FieldsFit(d) && cfg.timeStyle == NoTime && cfg.dateStyle.IsWeek()
    requires d.isoWeek == 53 ==> d.year >= 1
    ensures StringFromDate(cfg, d).Some?
    ensures var r := StringFromDate(cfg, d).value;
      && (cfg.dateStyle == WeekLong ==>
            |r| == 10 && r[4] == '-' && r[5] == 'W' && r[8] == '-'
            && AllDigits(r[6..8]) && DigitsValue(r[6..8]) == d.isoWeek
            && AllDigits(r[9..10]) && DigitsValue(r[9..10]) == IsoWeekday(d.weekday))
      && (cfg.dateStyle == WeekShort ==>
            |r| == 8 && r[4] == 'W'
            && AllDigits(r[5..7]) && DigitsValue(r[5..7]) == d.calendarWeek
            && AllDigits(r[7..8]) && DigitsValue(r[7..8]) == IsoWeekday(d.weekday))
  {
    DateOnlyLayout(cfg, d);
    var r := StringFromDate(cfg, d).value;
    var y := FormatInt(YearShown(cfg, d), 4);
    var wd := FormatInt(IsoWeekday(d.weekday), 1);
    assert |y| == 4 && |wd| == 1;
    if cfg.dateStyle == WeekLong {
      var ww := FormatInt(d.isoWeek, 2);
      assert |ww| == 2;
      WeekLongPieces(r, y, ww, wd, d.isoWeek, IsoWeekday(d.weekday));
    } else {
      var ww := FormatInt(d.calendarWeek, 2);
      assert |ww| == 2;
      WeekShortPieces(r, y, ww, wd, d.calendarWeek, IsoWeekday(d.weekday));
    }
  }

  /** Two digit fields `a` and `b` after a four-character year, the first after `lead` and the second after `sep`. */
  lemma SeparatedDigits(y: string, lead: string, a: string, sep: string, b: string, va: int, vb: int)
    requires |y| == 4 && |a| == 2 && |sep| == 1 && 1 <= |lead| <= 2
    requires AllDigits(a) && DigitsValue(a) == va && AllDigits(b) && DigitsValue(b) == vb
    ensures var r := y + (lead + a + sep + b);
      var i := 4 + |lead|;
      && |r| == i + 3 + |b|
      && r[4..i] == lead && r[i + 2] == sep[0]
      && AllDigits(r[i..i + 2]) && DigitsValue(r[i..i + 2]) == va
      && AllDigits(r[i + 3..]) && DigitsValue(r[i + 3..]) == vb
  {
    var r := y + (lead + a + sep + b);
    var i := 4 + |lead|;
    assert r[4..i] == lead && r[i..i + 2] == a && r[i + 2] == sep[0] && r[i + 3..] == b;
  }

  /** `-Www-D` after a four-character year. */
  lemma WeekLongPieces(r: string, y: string, ww: string, wd: string, week: int, weekday: int)
    requires r == y + ("-W" + ww + "-" + wd) && |y| == 4 && |ww| == 2 && |wd| == 1
    requires AllDigits(ww) && DigitsValue(ww) == week && AllDigits(wd) && DigitsValue(wd) == weekday
    ensures |r| == 10 && r[4] == '-' && r[5] == 'W' && r[8] == '-'
      && AllDigits(r[6..8]) && DigitsValue(r[6..8]) == week
      && AllDigits(r[9..10]) && DigitsValue(r[9..10]) == weekday
  {
    assert r[6..8] == ww && r[9..10] == wd;
  }

  /** `WwwD` after a four-character year. */
  lemma WeekShortPieces(r: string, y: string, ww: string, wd: string, week: int, weekday: int)
    requires r == y + ("W" + ww + wd) && |y| == 4 && |ww| == 2 && |wd| == 1
    requires AllDigits(ww) && DigitsValue(ww) == week && AllDigits(wd) && DigitsValue(wd) == weekday
    ensures |r| == 8 && r[4] == 'W'
      && AllDigits(r[5..7]) && DigitsValue(r[5..7]) == week
      && AllDigits(r[7..8]) && DigitsValue(r[7..8]) == weekday
  {
    assert r[5..7] == ww && r[7..8] == wd;
  }

  /** Two digit fields `a` and `b` straight after a four-character year. */
  lemma AdjacentDigits(y: string, a: string, b: string, va: int, vb: int)
    requires |y| == 4 && |a| == 2
    requires AllDigits(a) && DigitsValue(a) == va && AllDigits(b) && DigitsValue(b) == vb
    ensures var r := y + (a + b);
      && |r| == 6 + |b|
      && AllDigits(r[4..6]) && DigitsValue(r[4..6]) == va
      && AllDigits(r[6..]) && DigitsValue(r[6..]) == vb
  {
    var r := y + (a + b);
    assert r[4..6] == a && r[6..] == b;
  }

  /** One digit field `a` after a four-character year and `lead`. */
  lemma LedDigits(y: string, lead: string, a: string, va: int)
    requires |y| == 4 && |lead| == 1
    requires AllDigits(a) && DigitsValue(a) == va
    ensures var r := y + (lead + a);
      && |r| == 5 + |a| && r[4] == lead[0]
      && AllDigits(r[5..]) && DigitsValue(r[5..]) == va
  {
    var r := y + (lead + a);
    assert r[4] == lead[0] && r[5..] == a;
  }

  /** The long and the short time style render identically. */
  lemma TimeStylesAgree(cfg: Config, d: DateValues)
    ensures StringFromDate(cfg.(timeStyle := LongTime), d) == StringFromDate(cfg.(timeStyle := ShortTime), d)
  {
  }

  /** Without a time style the result holds no time or zone character: only digits, `-` and `W`. */
  lemma DateOnlyCharacters(cfg: Config, d: DateValues)
    requires 0 <= d.year <= 9999 && cfg.timeStyle == NoTime
    ensures StringFromDate(cfg, d).Some?
    ensures var r := StringFromDate(cfg, d).value;
      forall i :: 0 <= i < |r| ==> IsDigit(r[i]) || r[i] == '-' || r[i] == 'W'
  {
    DateOnlyLayout(cfg, d);
    FormatIntDateChars(YearShown(cfg, d), 4);
    DateSegmentCharacters(cfg.dateStyle, d);
    JoinDateChars(FormatInt(YearShown(cfg, d), 4), DateSegment(cfg.dateStyle, d));
  }

  /** `r` is `date`, then `T`, hour, `:`, minute, `:`, second in two digits each, then anything. */
  predicate TimeFollows(r: seq<char>, date: seq<char>, h: int, m: int, sec: int) {
    var k := |date|;
    && |r| >= k + 9 && r[..k] == date
    && r[k] == 'T' && r[k + 3] == ':' && r[k + 6] == ':'
    && AllDigits(r[k + 1..k + 3]) && DigitsValue(r[k + 1..k + 3]) == h
    && AllDigits(r[k + 4..k + 6]) && DigitsValue(r[k + 4..k + 6]) == m
    && AllDigits(r[k + 7..k + 9]) && DigitsValue(r[k + 7..k + 9]) == sec
  }

  /**
    With a time style the rendering continues the date-only rendering with
    `Thh:mm:ss`, the digits spelling the hour, minute and second.
   */
  lemma TimeSegmentLayout(cfg: Config, d: DateValues)
    requires 0 <= d.year <= 9999
    requires 0 <= d.hour <= 99 && 0 <= d.minute <= 99 && 0 <= d.second <= 99
    requires cfg.timeStyle != NoTime
    ensures StringFromDate(cfg, d).Some? && StringFromDate(cfg.(timeStyle := NoTime), d).Some?
    ensures TimeFollows(StringFromDate(cfg, d).value, StringFromDate(cfg.(timeStyle := NoTime), d).value,
      d.hour, d.minute, d.second)
  {
    var bare := cfg.(timeStyle := NoTime);
    assert YearShown(bare, d) == YearShown(cfg, d) && bare.dateStyle == cfg.dateStyle;
    WithTimeLayout(cfg, d);
    DateOnlyLayout(bare, d);
    var date := FormatInt(YearShown(cfg, d), 4) + DateSegment(cfg.dateStyle, d);
    var hh, mi, ss := FormatInt(d.hour, 2), FormatInt(d.minute, 2), FormatInt(d.second, 2);
    assert TimeSegment(d) == "T" + hh + ":" + mi + ":" + ss;
    TimeFieldsAt(date, hh, mi, ss, ZoneSegment(cfg.timeZoneStyle, d.secondsFromGMT), d.hour, d.minute, d.second);
  }

  lemma TimeFieldsAt(date: seq<char>, hh: seq<char>, mi: seq<char>, ss: seq<char>, zone: seq<char>, h: int, m: int, sec: int)
    requires |hh| == 2 && |mi| == 2 && |ss| == 2
    requires AllDigits(hh) && DigitsValue(hh) == h
    requires AllDigits(mi) && DigitsValue(mi) == m
    requires AllDigits(ss) && DigitsValue(ss) == sec
    ensures TimeFollows(date + ("T" + hh + ":" + mi + ":" + ss) + zone, date, h, m, sec)
  {
    var t := "T" + hh + ":" + mi + ":" + ss;
    TimePieces(hh, mi, ss);
    InMiddle(date, t, zone, 1, 3);
    InMiddle(date, t, zone, 4, 6);
    InMiddle(date, t, zone, 7, 9);
    InMiddle(date, t, zone, 0, 1);
    InMiddle(date, t, zone, 3, 4);
    InMiddle(date, t, zone, 6, 7);
    var r, k := date + t + zone, |date|;
    assert r[k] == r[k..k + 1][0] && r[k + 3] == r[k + 3..k + 4][0] && r[k + 6] == r[k + 6..k + 7][0];
  }

  lemma TimePieces(hh: seq<char>, mi: seq<char>, ss: seq<char>)
    requires |hh| == 2 && |mi| == 2 && |ss| == 2
    ensures var t := "T" + hh + ":" + mi + ":" + ss;
      && |t| == 9 && t[0..1] == "T" && t[3..4] == ":" && t[6..7] == ":"
      && t[1..3] == hh && t[4..6] == mi && t[7..9] == ss
  {
  }

  /** A slice of `t` is found again in `date + t + zone`, shifted by the length of `date`. */
  lemma InMiddle(date: seq<char>, t: seq<char>, zone: seq<char>, i: nat, j: nat)
    requires i <= j <= |t|
    ensures var r, k := date + t + zone, |date|;
      |r| == k + |t| + |zone| && r[..k] == date && r[k + i..k + j] == t[i..j]
  {
    var r, k := date + t + zone, |date|;
    assert r[..k + |t|] == date + t;
    assert (date + t)[k + i..k + j] == t[i..j];
  }

  /** A digit field copied into a longer string still spells its number there. */
  lemma SpelledAt(r: seq<char>, i: nat, piece: seq<char>, n: int)
    requires i + |piece| <= |r| && r[i..i + |piece|] == piece
    requires AllDigits(piece) && DigitsValue(piece) == n
    ensures AllDigits(r[i..i + |piece|]) && DigitsValue(r[i..i + |piece|]) == n
  {
  }

  predicate IsDateChar(c: char) {
    IsDigit(c) || c == '-' || c == 'W'
  }

  predicate DateChars(s: seq<char>) {
    forall i :: 0 <= i < |s| ==> IsDateChar(s[i])
  }

  lemma FormatIntDateChars(n: int, w: nat)
    ensures DateChars(FormatInt(n, w))
  {
    forall i | 0 <= i < |FormatInt(n, w)|
      ensures IsDateChar(FormatInt(n, w)[i])
    {
      FormatIntCharacters(n, w, i);
    }
  }

  lemma JoinDateChars(a: seq<char>, b: seq<char>)
    requires DateChars(a) && DateChars(b)
    ensures DateChars(a + b)
  {
    forall i | 0 <= i < |a + b|
      ensures IsDateChar((a + b)[i])
    {
      if i < |a| {
        assert (a + b)[i] == a[i];
      } else {
        assert (a + b)[i] == b[i - |a|];
      }
    }
  }

  lemma {:induction false} DateSegmentCharacters(style: DateStyle, d: DateValues)
    ensures forall i :: 0 <= i < |DateSegment(style, d)| ==> IsDateChar(DateSegment(style, d)[i])
  {
    assert DateChars("-") && DateChars("W") && DateChars("-W");
    match style
    case CalendarLong =>
      var m, dd := FormatInt(d.month, 2), FormatInt(d.day, 2);
      FormatIntDateChars(d.month, 2);
      FormatIntDateChars(d.day, 2);
      JoinDateChars("-", m);
      JoinDateChars("-" + m, "-");
      JoinDateChars("-" + m + "-", dd);
    case CalendarShort =>
      FormatIntDateChars(d.month, 2);
      FormatIntDateChars(d.day, 2);
      JoinDateChars(FormatInt(d.month, 2), FormatInt(d.day, 2));
    case OrdinalLong =>
      FormatIntDateChars(d.dayOfYear, 3);
      JoinDateChars("-", FormatInt(d.dayOfYear, 3));
    case OrdinalShort =>
      FormatIntDateChars(d.dayOfYear, 3);
    case WeekLong =>
      var ww, e := FormatInt(d.isoWeek, 2), FormatInt(IsoWeekday(d.weekday), 1);
      FormatIntDateChars(d.isoWeek, 2);
      FormatIntDateChars(IsoWeekday(d.weekday), 1);
      JoinDateChars("-W", ww);
      JoinDateChars("-W" + ww, "-");
      JoinDateChars("-W" + ww + "-", e);
    case WeekShort =>
      var ww, e := FormatInt(d.calendarWeek, 2), FormatInt(IsoWeekday(d.weekday), 1);
      FormatIntDateChars(d.calendarWeek, 2);
      FormatIntDateChars(IsoWeekday(d.weekday), 1);
      JoinDateChars("W", ww);
      JoinDateChars("W" + ww, e);
  }

  /** The rendering with a time style is the date, the time, then the zone segment. */
  lemma {:induction false} WithTimeLayout(cfg: Config, d: DateValues)
    requires 0 <= d.year <= 9999 && cfg.timeStyle != NoTime
    ensures StringFromDate(cfg, d).Some?
    ensures StringFromDate(cfg, d).value ==
      FormatInt(YearShown(cfg, d), 4) + DateSegment(cfg.dateStyle, d) + TimeSegment(d)
      + ZoneSegment(cfg.timeZoneStyle, d.secondsFromGMT)
  {
    var y, date := FormatInt(YearShown(cfg, d), 4), DateSegment(cfg.dateStyle, d);
    assert TimeAndZone(cfg, d) == TimeSegment(d) + ZoneSegment(cfg.timeZoneStyle, d.secondsFromGMT);
    assert StringFromDate(cfg, d) == Some(y + date + TimeAndZone(cfg, d));
  }

  /** Without a zone, or with the none zone style, nothing follows the time. */
  lemma ZoneAbsent(cfg: Config, d: DateValues)
    requires 0 <= d.year <= 9999 && cfg.timeStyle != NoTime
    requires d.secondsFromGMT.None? || cfg.timeZoneStyle == NoZone
    ensures StringFromDate(cfg, d) == StringFromDate(cfg.(timeZoneStyle := NoZone), d)
  {
  }

  /** With a time style, the zone segment is appended to the rendering without a zone. */
  lemma ZoneAppended(cfg: Config, d: DateValues)
    requires 0 <= d.year <= 9999 && cfg.timeStyle != NoTime
    ensures StringFromDate(cfg, d).Some? && StringFromDate(cfg.(timeZoneStyle := NoZone), d).Some?
    ensures StringFromDate(cfg, d).value ==
      StringFromDate(cfg.(timeZoneStyle := NoZone), d).value + ZoneSegment(cfg.timeZoneStyle, d.secondsFromGMT)
  {
    var bare := cfg.(timeZoneStyle := NoZone);
    assert YearShown(bare, d) == YearShown(cfg, d) && bare.dateStyle == cfg.dateStyle;
    WithTimeLayout(bare, d);
    WithTimeLayout(cfg, d);
    AppendToBare(StringFromDate(cfg, d).value, StringFromDate(bare, d).value,
      FormatInt(YearShown(cfg, d), 4) + DateSegment(cfg.dateStyle, d) + TimeSegment(d),
      ZoneSegment(cfg.timeZoneStyle, d.secondsFromGMT), ZoneSegment(NoZone, d.secondsFromGMT));
  }

  lemma AppendToBare(r: string, bare: string, prefix: string, zone: string, none: string)
    requires r == prefix + zone && bare == prefix + none && none == ""
    ensures r == bare + zone
  {
    assert bare == prefix;
  }

  /** The UTC style appends `Z` to the time, whatever the offset. */
  lemma ZoneUtc(cfg: Config, d: DateValues)
    requires 0 <= d.year <= 9999 && cfg.timeStyle != NoTime
    requires d.secondsFromGMT.Some? && cfg.timeZoneStyle == UTC
    ensures StringFromDate(cfg, d).Some? && StringFromDate(cfg.(timeZoneStyle := NoZone), d).Some?
    ensures StringFromDate(cfg, d).value == StringFromDate(cfg.(timeZoneStyle := NoZone), d).value + "Z"
  {
    ZoneAppended(cfg, d);
    assert ZoneSegment(cfg.timeZoneStyle, d.secondsFromGMT) == "Z";
  }

  /**
    The numeric styles append a sign that is `+` exactly when the whole hours
    are not negative, the hours with `%02i`, a `:` for the long style only, and
    a minute field that always reads `00`.
   */
  lemma ZoneOffset(cfg: Config, d: DateValues)
    requires 0 <= d.year <= 9999 && cfg.timeStyle != NoTime
    requires d.secondsFromGMT.Some? && (cfg.timeZoneStyle == LongZone || cfg.timeZoneStyle == ShortZone)
    ensures StringFromDate(cfg, d).Some? && StringFromDate(cfg.(timeZoneStyle := NoZone), d).Some?
    ensures var h := OffsetHours(d.secondsFromGMT.value);
      StringFromDate(cfg, d).value ==
        StringFromDate(cfg.(timeZoneStyle := NoZone), d).value
        + ([if h >= 0 then '+' else '-'] + FormatInt(h, 2) + (if cfg.timeZoneStyle == LongZone then ":" else "") + "00")
  {
    ZoneAppended(cfg, d);
    OffsetSegmentLayout(cfg.timeZoneStyle, d.secondsFromGMT.value);
    assert d.secondsFromGMT == Some(d.secondsFromGMT.value);
  }

  lemma OffsetSegmentLayout(style: TimeZoneStyle, secs: int)
    requires style == LongZone || style == ShortZone
    ensures var h := OffsetHours(secs);
      ZoneSegment(style, Some(secs)) ==
        [if h >= 0 then '+' else '-'] + FormatInt(h, 2) + (if style == LongZone then ":" else "") + "00"
  {
    assert FormatInt(0, 2) == "00" by {
      assert Pad(0, 2) == Zeros(1) + NatDigits(0);
    }
  }

  /**
    The offset text by position: the sign first; then, for whole hours 0..99,
    two digits spelling them; for -9..-1, a second minus sign (printed by
    `%02i`) and one digit spelling the magnitude; then `:` under the long
    style only, and the minutes `00` last.
   */
  lemma OffsetSegmentFields(style: TimeZoneStyle, secs: int)
    requires style == LongZone || style == ShortZone
    ensures var h, r := OffsetHours(secs), ZoneSegment(style, Some(secs));
      && (-9 <= h <= 99 ==> |r| == if style == LongZone then 6 else 5)
      && r[0] == (if h >= 0 then '+' else '-')
      && (0 <= h <= 99 ==> AllDigits(r[1..3]) && DigitsValue(r[1..3]) == h)
      && (-9 <= h < 0 ==> r[1] == '-' && AllDigits(r[2..3]) && DigitsValue(r[2..3]) == -h)
      && (-9 <= h <= 99 ==> (r[3] == ':' <==> style == LongZone) && r[|r| - 2..] == "00")
      && (-99 <= h <= -10 ==>
            && |r| == (if style == LongZone then 7 else 6) && r[1] == '-'
            && AllDigits(r[2..4]) && DigitsValue(r[2..4]) == -h
            && (r[4] == ':' <==> style == LongZone) && r[|r| - 2..] == "00")
  {
    var h, r := OffsetHours(secs), ZoneSegment(style, Some(secs));
    OffsetSegmentLayout(style, secs);
    var f := FormatInt(h, 2);
    if -9 <= h <= 99 {
      assert Pow10(1) == 10 && Pow10(2) == 100;
      assert |f| == 2;
      OffsetPieces(r, if h >= 0 then '+' else '-', f, if style == LongZone then ":" else "");
      if h < 0 {
        assert r[2..3] == f[1..];
      }
    } else if -99 <= h <= -10 {
      WideWestHours(h);
      WidePieces(r, '-', f, if style == LongZone then ":" else "");
      assert r[2..4] == f[1..];
    }
  }

  /** `%02i` of -99..-10 is three characters: `-` and two digits spelling the magnitude. */
  lemma WideWestHours(h: int)
    requires -99 <= h <= -10
    ensures var f := FormatInt(h, 2);
      |f| == 3 && f[0] == '-' && AllDigits(f[1..]) && DigitsValue(f[1..]) == -h
  {
    var n := -h;
    assert Pow10(2) == 100;
    NatDigitsFit(n, 2);
    assert |NatDigits(n)| == |NatDigits(n / 10)| + 1;
    assert Pad(n, 1) == NatDigits(n);
  }

  /** The pieces of an offset text with three-character hours at their positions. */
  lemma WidePieces(r: string, sign: char, hours: string, colon: string)
    requires r == [sign] + hours + colon + "00" && |hours| == 3 && (colon == ":" || colon == "")
    ensures |r| == 6 + |colon| && r[0] == sign && r[1..4] == hours && r[|r| - 2..] == "00"
    ensures r[4] == ':' <==> colon == ":"
  {
    assert r[1..4] == hours;
  }

  /** The pieces of an offset text at their positions. */
  lemma OffsetPieces(r: string, sign: char, hours: string, colon: string)
    requires r == [sign] + hours + colon + "00" && |hours| == 2 && (colon == ":" || colon == "")
    ensures |r| == 5 + |colon| && r[0] == sign && r[1..3] == hours && r[|r| - 2..] == "00"
    ensures r[3] == ':' <==> colon == ":"
  {
    assert r[1..3] == hours;
  }
}
