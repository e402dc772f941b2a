/**
  Formatting and parsing together: a date rendered by `stringFromDate` and
  read back by `dateFromString` under the same configuration gives back the
  components that were printed, for every date style, the long time style
  or none, and every zone style, as long as each field fits its printf
  width. The short time style and negative offsets do not read back.
 */
module RoundTrip {
  import opened Options
  import opened Decimal
  import opened Styles
  import opened OrdinalDates
  import opened Formatter
  import opened Scanning
  import opened ExtendedForm
  import opened Parser
  import opened Literals

  // ---------------------------------------------------------------------------
  // What reads back

  /** The dates the round trip holds for: every field within its width and its parse range. */
  predicate Printable(cfg: Config, d: DateValues) {
    && FieldsFit(d)
    && d.isoWeek <= 53 && d.calendarWeek <= 53
    && (cfg.dateStyle.IsWeek() && d.isoWeek == 53 ==> d.year >= 1)
    && cfg.timeStyle != ShortTime
    && (cfg.timeStyle == LongTime ==>
          && 0 <= d.hour <= 23 && 0 <= d.minute <= 59 && 0 <= d.second <= 59
          && (cfg.timeZoneStyle == ShortZone ==> d.secondsFromGMT.Some?)
          && (d.secondsFromGMT.Some? && (cfg.timeZoneStyle == LongZone || cfg.timeZoneStyle == ShortZone) ==>
                0 <= OffsetHours(d.secondsFromGMT.value) <= 99))
  }

  /**
    The date fields read back: the year printed, and the style's own fields;
    under the ordinal styles, the month and day the code derives from the
    printed day of the year, not that day itself.
   */
  function Dated(cfg: Config, d: DateValues): DateComponents {
    var y := YearShown(cfg, d);
    var c := YearOnly(y);
    match cfg.dateStyle
    case CalendarLong => c.(month := Some(d.month), day := Some(d.day))
    case CalendarShort => c.(month := Some(d.month), day := Some(d.day))
    case OrdinalLong => c.(month := Some(OrdinalMonth(DaysTable(y), d.dayOfYear)), day := Some(OrdinalDay(DaysTable(y), d.dayOfYear)))
    case OrdinalShort => c.(month := Some(OrdinalMonth(DaysTable(y), d.dayOfYear)), day := Some(OrdinalDay(DaysTable(y), d.dayOfYear)))
    case WeekLong => c.(weekOfYear := Some(d.isoWeek), weekday := Some(IsoWeekday(d.weekday)))
    case WeekShort => c.(weekOfYear := Some(d.calendarWeek), weekday := Some(IsoWeekday(d.weekday)))
  }

  /** The zone read back: UTC as 0, a numeric offset as its whole hours. */
  function ExpectedZone(style: TimeZoneStyle, secondsFromGMT: Option<int>): Option<int> {
    match secondsFromGMT
    case None => None
    case Some(secs) =>
      match style
      case NoZone => None
      case UTC => Some(0)
      case _ => Some(3600 * OffsetHours(secs))
  }

  /** The time fields and the zone read back, under a time style only. */
  function Timed(cfg: Config, d: DateValues, c: DateComponents): DateComponents {
    if cfg.timeStyle == NoTime then c
    else c.(hour := Some(d.hour), minute := Some(d.minute), second := Some(d.second),
            timeZone := ExpectedZone(cfg.timeZoneStyle, d.secondsFromGMT))
  }

  function Expected(cfg: Config, d: DateValues): DateComponents {
    Timed(cfg, d, Dated(cfg, d))
  }

  // ---------------------------------------------------------------------------
  // The rendering after the rewrite into the extended format

  function ExtendedDate(cfg: Config, d: DateValues): string {
    match cfg.dateStyle
    case CalendarLong => "-" + FormatInt(d.month, 2) + "-" + FormatInt(d.day, 2)
    case CalendarShort => "-" + FormatInt(d.month, 2) + "-" + FormatInt(d.day, 2)
    case OrdinalLong => "-" + FormatInt(d.dayOfYear, 3)
    case OrdinalShort => "-" + FormatInt(d.dayOfYear, 3)
    case WeekLong => "-" + ("W" + FormatInt(d.isoWeek, 2)) + "-" + FormatInt(IsoWeekday(d.weekday), 1)
    case WeekShort => "-" + ("W" + FormatInt(d.calendarWeek, 2)) + "-" + FormatInt(IsoWeekday(d.weekday), 1)
  }

  function ExtendedTime(cfg: Config, d: DateValues): string {
    if cfg.timeStyle == NoTime then ""
    else TimeSegment(d) + ZoneSegment(if cfg.timeZoneStyle == ShortZone then LongZone else cfg.timeZoneStyle, d.secondsFromGMT)
  }

  /** The separators the short date styles leave out. */
  function DateInsertions(style: DateStyle): seq<Insertion> {
    match style
    case CalendarShort => [Insertion(6, '-'), Insertion(4, '-')]
    case OrdinalShort => [Insertion(4, '-')]
    case WeekShort => [Insertion(7, '-'), Insertion(4, '-')]
    case _ => []
  }

  /** The width of each date segment when every field fits its digits. */
  function DateWidth(style: DateStyle): nat {
    match style
    case CalendarLong => 6
    case CalendarShort => 4
    case OrdinalLong => 4
    case OrdinalShort => 3
    case WeekLong => 6
    case WeekShort => 4
  }

  lemma DateSegmentWidth(style: DateStyle, d: DateValues)
    requires FieldsFit(d)
    ensures |DateSegment(style, d)| == DateWidth(style)
  {
    match style
    case CalendarLong =>
      assert |FormatInt(d.month, 2)| == 2 && |FormatInt(d.day, 2)| == 2;
    case CalendarShort =>
      assert |FormatInt(d.month, 2)| == 2 && |FormatInt(d.day, 2)| == 2;
    case OrdinalLong =>
      assert |FormatInt(d.dayOfYear, 3)| == 3;
    case OrdinalShort =>
      assert |FormatInt(d.dayOfYear, 3)| == 3;
    case WeekLong =>
      assert |FormatInt(d.isoWeek, 2)| == 2 && |FormatInt(IsoWeekday(d.weekday), 1)| == 1;
    case WeekShort =>
      assert |FormatInt(d.calendarWeek, 2)| == 2 && |FormatInt(IsoWeekday(d.weekday), 1)| == 1;
  }

  lemma InsertionsSplit(cfg: Config, d: DateValues)
    requires FieldsFit(d)
    ensures Insertions(cfg) == TimeInsertions(cfg, 4 + |DateSegment(cfg.dateStyle, d)| + 3) + DateInsertions(cfg.dateStyle)
  {
    DateSegmentWidth(cfg.dateStyle, d);
  }

  /** A `-` after the year and one after the first field, on abstract pieces. */
  lemma DashJoinTwo(y: seq<char>, a: seq<char>, b: seq<char>, rest: seq<char>)
    requires |y| == 4
    ensures Fits(y + (a + b) + rest, [Insertion(4 + |a|, '-'), Insertion(4, '-')])
    ensures Apply(y + (a + b) + rest, [Insertion(4 + |a|, '-'), Insertion(4, '-')]) == y + ("-" + a + "-" + b) + rest
  {
    assert y + (a + b) + rest == y + a + (b + rest);
    InsertTwoJoins(y, a, b + rest, '-', '-');
    assert y + ['-'] + a + ['-'] + (b + rest) == y + ("-" + a + "-" + b) + rest;
  }

  /** A `-` after the year, on abstract pieces. */
  lemma DashJoinOne(y: seq<char>, a: seq<char>, rest: seq<char>)
    requires |y| == 4
    ensures Fits(y + a + rest, [Insertion(4, '-')])
    ensures Apply(y + a + rest, [Insertion(4, '-')]) == y + ("-" + a) + rest
  {
    assert y + a + rest == y + (a + rest);
    InsertAtJoin(y, a + rest, '-');
    ApplyOne(y + a + rest, Insertion(4, '-'));
    assert y + ['-'] + (a + rest) == y + ("-" + a) + rest;
  }

  /** The short date styles get their `-`s back; the long ones are left as they are. */
  lemma DateRewrite(cfg: Config, d: DateValues, y: seq<char>, rest: seq<char>)
    requires |y| == 4 && FieldsFit(d)
    ensures Fits(y + DateSegment(cfg.dateStyle, d) + rest, DateInsertions(cfg.dateStyle))
    ensures Apply(y + DateSegment(cfg.dateStyle, d) + rest, DateInsertions(cfg.dateStyle)) == y + ExtendedDate(cfg, d) + rest
  {
    match cfg.dateStyle
    case CalendarShort =>
      var mm, dd := FormatInt(d.month, 2), FormatInt(d.day, 2);
      assert |mm| == 2;
      assert DateSegment(cfg.dateStyle, d) == mm + dd && DateInsertions(cfg.dateStyle) == [Insertion(6, '-'), Insertion(4, '-')];
      assert ExtendedDate(cfg, d) == "-" + mm + "-" + dd;
      DashJoinTwo(y, mm, dd, rest);
    case OrdinalShort =>
      var ddd := FormatInt(d.dayOfYear, 3);
      assert DateSegment(cfg.dateStyle, d) == ddd && DateInsertions(cfg.dateStyle) == [Insertion(4, '-')];
      assert ExtendedDate(cfg, d) == "-" + ddd;
      DashJoinOne(y, ddd, rest);
    case WeekShort =>
      var ww, wd := "W" + FormatInt(d.calendarWeek, 2), FormatInt(IsoWeekday(d.weekday), 1);
      assert |ww| == 3;
      assert DateSegment(cfg.dateStyle, d) == ww + wd && DateInsertions(cfg.dateStyle) == [Insertion(7, '-'), Insertion(4, '-')];
      assert ExtendedDate(cfg, d) == "-" + ww + "-" + wd;
      DashJoinTwo(y, ww, wd, rest);
    case _ =>
      assert DateInsertions(cfg.dateStyle) == [] && DateSegment(cfg.dateStyle, d) == ExtendedDate(cfg, d);
  }

  /** The `:` of a short offset, on abstract pieces. */
  lemma ZoneJoin(pre: seq<char>, t: seq<char>, c: char, hh: seq<char>)
    requires |t| == 9 && |hh| == 2
    ensures Fits(pre + (t + ([c] + hh + "" + "00")), [Insertion(|pre| + 12, ':')])
    ensures Apply(pre + (t + ([c] + hh + "" + "00")), [Insertion(|pre| + 12, ':')]) == pre + (t + ([c] + hh + ":" + "00"))
  {
    var a := pre + t + [c] + hh;
    ShortZoneShape(pre, t, c, hh);
    InsertAtJoin(a, "00", ':');
    ApplyOne(a + "00", Insertion(|a|, ':'));
    LongZoneShape(pre, t, c, hh);
  }

  lemma ShortZoneShape(pre: seq<char>, t: seq<char>, c: char, hh: seq<char>)
    ensures pre + (t + ([c] + hh + "" + "00")) == pre + t + [c] + hh + "00"
  {
    assert [c] + hh + "" == [c] + hh;
  }

  lemma LongZoneShape(pre: seq<char>, t: seq<char>, c: char, hh: seq<char>)
    ensures pre + t + [c] + hh + [':'] + "00" == pre + (t + ([c] + hh + ":" + "00"))
  {
  }

  /** A short offset gets its `:` back; nothing else in the time changes. */
  lemma TimeRewrite(cfg: Config, d: DateValues, pre: seq<char>)
    requires Printable(cfg, d)
    ensures Fits(pre + TimeAndZone(cfg, d), TimeInsertions(cfg, |pre| + 3))
    ensures Apply(pre + TimeAndZone(cfg, d), TimeInsertions(cfg, |pre| + 3)) == pre + ExtendedTime(cfg, d)
  {
    if cfg.timeStyle == LongTime && cfg.timeZoneStyle == ShortZone {
      ShortZoneRewrite(cfg, d, pre);
    } else {
      assert TimeInsertions(cfg, |pre| + 3) == [];
      assert TimeAndZone(cfg, d) == ExtendedTime(cfg, d);
    }
  }

  lemma ShortZoneRewrite(cfg: Config, d: DateValues, pre: seq<char>)
    requires Printable(cfg, d) && cfg.timeStyle == LongTime && cfg.timeZoneStyle == ShortZone
    ensures TimeInsertions(cfg, |pre| + 3) == [Insertion(|pre| + 12, ':')]
    ensures Fits(pre + TimeAndZone(cfg, d), [Insertion(|pre| + 12, ':')])
    ensures Apply(pre + TimeAndZone(cfg, d), [Insertion(|pre| + 12, ':')]) == pre + ExtendedTime(cfg, d)
  {
    var h := OffsetHours(d.secondsFromGMT.value);
    ShortZonePieces(cfg, d);
    assert |TimeSegment(d)| == 9 && |FormatInt(h, 2)| == 2;
    ZoneJoin(pre, TimeSegment(d), if h >= 0 then '+' else '-', FormatInt(h, 2));
  }

  /** The short and the long zone rendering of the same offset, split into time, sign, hours and minutes. */
  lemma ShortZonePieces(cfg: Config, d: DateValues)
    requires cfg.timeStyle == LongTime && cfg.timeZoneStyle == ShortZone && d.secondsFromGMT.Some?
    ensures var h := OffsetHours(d.secondsFromGMT.value);
      var t, c, hh := TimeSegment(d), if h >= 0 then '+' else '-', FormatInt(h, 2);
      && TimeAndZone(cfg, d) == t + ([c] + hh + "" + "00")
      && ExtendedTime(cfg, d) == t + ([c] + hh + ":" + "00")
  {
    var secs := d.secondsFromGMT.value;
    assert d.secondsFromGMT == Some(secs);
    OffsetSegmentLayout(ShortZone, secs);
    OffsetSegmentLayout(LongZone, secs);
  }

  /** The rewrite turns the rendering into the extended rendering. */
  lemma Rewrite(cfg: Config, d: DateValues)
    requires Printable(cfg, d)
    ensures StringFromDate(cfg, d).Some?
    ensures var r := StringFromDate(cfg, d).value;
      Fits(r, Insertions(cfg)) &&
      BasicToExtended(cfg, r) == FormatInt(YearShown(cfg, d), 4) + ExtendedDate(cfg, d) + ExtendedTime(cfg, d)
  {
    var y := FormatInt(YearShown(cfg, d), 4);
    var ds := DateSegment(cfg.dateStyle, d);
    var r := StringFromDate(cfg, d).value;
    assert |y| == 4;
    assert r == (y + ds) + TimeAndZone(cfg, d);
    InsertionsSplit(cfg, d);
    var ti := TimeInsertions(cfg, |y + ds| + 3);
    TimeRewrite(cfg, d, y + ds);
    DateRewrite(cfg, d, y, ExtendedTime(cfg, d));
    assert (y + ds) + ExtendedTime(cfg, d) == y + ds + ExtendedTime(cfg, d);
    ApplyConcat(r, ti, DateInsertions(cfg.dateStyle));
  }

  // ---------------------------------------------------------------------------
  // Reading the extended rendering back

  /** A field printed with `%0Ni` that fits its width: exactly N digits spelling it. */
  predicate Field(f: seq<char>, n: nat, v: int) {
    |f| == n && AllDigits(f) && DigitsValue(f) == v
  }

  lemma FormatField(v: int, w: nat)
    requires 0 <= v && w >= 1 && v < Pow10(w)
    ensures Field(FormatInt(v, w), w, v)
  {
  }

  /** What may follow the date: nothing, or the time's `T`. */
  predicate StartsTime(tx: seq<char>) {
    |tx| == 0 || tx[0] == 'T'
  }

  lemma CalendarShape(y: seq<char>, mm: seq<char>, dd: seq<char>, tx: seq<char>)
    requires |y| == 4 && |mm| == 2 && |dd| == 2
    ensures var e := y + ("-" + mm + "-" + dd) + tx;
      |e| == 10 + |tx| && e[0..4] == y && e[4] == '-' && e[5..7] == mm && e[7] == '-' && e[8..10] == dd && e[10..] == tx
  {
  }

  lemma OrdinalShape(y: seq<char>, ddd: seq<char>, tx: seq<char>)
    requires |y| == 4 && |ddd| == 3
    ensures var e := y + ("-" + ddd) + tx;
      |e| == 8 + |tx| && e[0..4] == y && e[4] == '-' && e[5..8] == ddd && e[8..] == tx
  {
  }

  lemma WeekShape(y: seq<char>, ww: seq<char>, wd: seq<char>, tx: seq<char>)
    requires |y| == 4 && |ww| == 2 && |wd| == 1
    ensures var e := y + ("-" + ("W" + ww) + "-" + wd) + tx;
      && |e| == 10 + |tx| && e[0..4] == y && e[4] == '-' && e[5] == 'W' && e[6..8] == ww
      && e[8] == '-' && e[9..10] == wd && e[10..] == tx
  {
  }

  lemma CalendarPiecesRead(cfg: Config, y: seq<char>, mm: seq<char>, dd: seq<char>, tx: seq<char>, year: int, month: int, day: int)
    requires cfg.dateStyle.IsCalendar() && StartsTime(tx) && 0 <= year <= 9999
    requires Field(y, 4, year) && Field(mm, 2, month) && Field(dd, 2, day)
    ensures var e := y + ("-" + mm + "-" + dd) + tx;
      ParseExtended(cfg, e) == Some(TimeStage(cfg, e, 10, YearOnly(year).(month := Some(month), day := Some(day))))
  {
    var e := y + ("-" + mm + "-" + dd) + tx;
    CalendarShape(y, mm, dd, tx);
    assert 10 < |e| ==> e[10] == tx[0];
    YearRead(cfg, e, year);
    CalendarDateRead(cfg, e, YearOnly(year), month, day);
  }

  lemma OrdinalPiecesRead(cfg: Config, y: seq<char>, ddd: seq<char>, tx: seq<char>, year: int, n: int)
    requires cfg.dateStyle.IsOrdinal() && StartsTime(tx) && 0 <= year <= 9999
    requires Field(y, 4, year) && Field(ddd, 3, n)
    ensures var e := y + ("-" + ddd) + tx;
      ParseExtended(cfg, e) ==
        Some(TimeStage(cfg, e, 8, YearOnly(year).(month := Some(OrdinalMonth(DaysTable(year), n)),
                                                  day := Some(OrdinalDay(DaysTable(year), n)))))
  {
    var e := y + ("-" + ddd) + tx;
    OrdinalShape(y, ddd, tx);
    assert 8 < |e| ==> e[8] == tx[0];
    YearRead(cfg, e, year);
    OrdinalDateRead(cfg, e, YearOnly(year), n);
  }

  lemma WeekPiecesRead(cfg: Config, y: seq<char>, ww: seq<char>, wd: seq<char>, tx: seq<char>, year: int, week: int, weekday: int)
    requires cfg.dateStyle.IsWeek() && StartsTime(tx) && 0 <= year <= 9999
    requires Field(y, 4, year) && Field(ww, 2, week) && Field(wd, 1, weekday)
    requires week <= 53 && weekday <= 7
    ensures var e := y + ("-" + ("W" + ww) + "-" + wd) + tx;
      ParseExtended(cfg, e) == Some(TimeStage(cfg, e, 10, YearOnly(year).(weekOfYear := Some(week), weekday := Some(weekday))))
  {
    var e := y + ("-" + ("W" + ww) + "-" + wd) + tx;
    WeekShape(y, ww, wd, tx);
    assert 10 < |e| ==> e[10] == tx[0];
    YearRead(cfg, e, year);
    WeekDateRead(cfg, e, YearOnly(year), week, weekday);
  }

  /** The year and the date fields read back, whatever (time) follows. */
  lemma DateRead(cfg: Config, d: DateValues, tx: seq<char>)
    requires Printable(cfg, d) && StartsTime(tx)
    ensures var e := FormatInt(YearShown(cfg, d), 4) + ExtendedDate(cfg, d) + tx;
      && |FormatInt(YearShown(cfg, d), 4) + ExtendedDate(cfg, d)| <= |e|
      && ParseExtended(cfg, e) == Some(TimeStage(cfg, e, |FormatInt(YearShown(cfg, d), 4) + ExtendedDate(cfg, d)|, Dated(cfg, d)))
  {
    FormatField(YearShown(cfg, d), 4);
    if cfg.dateStyle.IsCalendar() {
      CalendarRead(cfg, d, tx);
    } else if cfg.dateStyle.IsOrdinal() {
      OrdinalRead(cfg, d, tx);
    } else {
      WeekRead(cfg, d, tx);
    }
  }

  lemma CalendarRead(cfg: Config, d: DateValues, tx: seq<char>)
    requires Printable(cfg, d) && StartsTime(tx) && cfg.dateStyle.IsCalendar()
    ensures var y, mm, dd := FormatInt(YearShown(cfg, d), 4), FormatInt(d.month, 2), FormatInt(d.day, 2);
      var e := y + ("-" + mm + "-" + dd) + tx;
      && ExtendedDate(cfg, d) == "-" + mm + "-" + dd && |y + ExtendedDate(cfg, d)| == 10
      && ParseExtended(cfg, e) == Some(TimeStage(cfg, e, 10, Dated(cfg, d)))
  {
    var year := YearShown(cfg, d);
    FormatField(year, 4);
    FormatField(d.month, 2);
    FormatField(d.day, 2);
    CalendarPiecesRead(cfg, FormatInt(year, 4), FormatInt(d.month, 2), FormatInt(d.day, 2), tx, year, d.month, d.day);
  }

  lemma OrdinalRead(cfg: Config, d: DateValues, tx: seq<char>)
    requires Printable(cfg, d) && StartsTime(tx) && cfg.dateStyle.IsOrdinal()
    ensures var y, ddd := FormatInt(YearShown(cfg, d), 4), FormatInt(d.dayOfYear, 3);
      var e := y + ("-" + ddd) + tx;
      && ExtendedDate(cfg, d) == "-" + ddd && |y + ExtendedDate(cfg, d)| == 8
      && ParseExtended(cfg, e) == Some(TimeStage(cfg, e, 8, Dated(cfg, d)))
  {
    var year := YearShown(cfg, d);
    FormatField(year, 4);
    FormatField(d.dayOfYear, 3);
    var y, ddd := FormatInt(year, 4), FormatInt(d.dayOfYear, 3);
    assert ExtendedDate(cfg, d) == "-" + ddd;
    assert Dated(cfg, d) == YearOnly(year).(month := Some(OrdinalMonth(DaysTable(year), d.dayOfYear)),
                                            day := Some(OrdinalDay(DaysTable(year), d.dayOfYear)));
    OrdinalPiecesRead(cfg, y, ddd, tx, year, d.dayOfYear);
  }

  lemma WeekRead(cfg: Config, d: DateValues, tx: seq<char>)
    requires Printable(cfg, d) && StartsTime(tx) && cfg.dateStyle.IsWeek()
    ensures var week := if cfg.dateStyle == WeekLong then d.isoWeek else d.calendarWeek;
      var y, ww, wd := FormatInt(YearShown(cfg, d), 4), FormatInt(week, 2), FormatInt(IsoWeekday(d.weekday), 1);
      var e := y + ("-" + ("W" + ww) + "-" + wd) + tx;
      && ExtendedDate(cfg, d) == "-" + ("W" + ww) + "-" + wd && |y + ExtendedDate(cfg, d)| == 10
      && ParseExtended(cfg, e) == Some(TimeStage(cfg, e, 10, Dated(cfg, d)))
  {
    var year := YearShown(cfg, d);
    var week := if cfg.dateStyle == WeekLong then d.isoWeek else d.calendarWeek;
    var weekday := IsoWeekday(d.weekday);
    FormatField(year, 4);
    FormatField(week, 2);
    FormatField(weekday, 1);
    var y, ww, wd := FormatInt(year, 4), FormatInt(week, 2), FormatInt(weekday, 1);
    assert ExtendedDate(cfg, d) == "-" + ("W" + ww) + "-" + wd;
    assert Dated(cfg, d) == YearOnly(year).(weekOfYear := Some(week), weekday := Some(weekday));
    WeekPiecesRead(cfg, y, ww, wd, tx, year, week, weekday);
  }

  lemma TimeShape(pre: seq<char>, hh: seq<char>, mi: seq<char>, ss: seq<char>, zone: seq<char>)
    requires |hh| == 2 && |mi| == 2 && |ss| == 2
    ensures var e, k := pre + (("T" + hh + ":" + mi + ":" + ss) + zone), |pre|;
      && |e| == k + 9 + |zone| && e[k] == 'T' && e[k + 1..k + 3] == hh && e[k + 3] == ':'
      && e[k + 4..k + 6] == mi && e[k + 6] == ':' && e[k + 7..k + 9] == ss && e[k + 9..] == zone
      && e == (pre + ("T" + hh + ":" + mi + ":" + ss)) + zone
  {
  }

  lemma TimePiecesRead(cfg: Config, pre: seq<char>, hh: seq<char>, mi: seq<char>, ss: seq<char>, zone: seq<char>,
                       h: int, m: int, sec: int, c: DateComponents)
    requires Field(hh, 2, h) && Field(mi, 2, m) && Field(ss, 2, sec)
    requires 0 <= h <= 23 && 0 <= m <= 59 && 0 <= sec <= 59
    requires |zone| == 0 || !IsDigit(zone[0])
    ensures var e := pre + (("T" + hh + ":" + mi + ":" + ss) + zone);
      TimeStage(cfg, e, |pre|, c) ==
        ZoneStage(e, |pre| + 9, if cfg.timeStyle == NoTime then c else c.(hour := Some(h), minute := Some(m), second := Some(sec)))
  {
    var e, k := pre + (("T" + hh + ":" + mi + ":" + ss) + zone), |pre|;
    TimeShape(pre, hh, mi, ss, zone);
    assert k + 9 < |e| ==> e[k + 9] == zone[0];
    TimeRead(cfg, e, k, c, h, m, sec);
  }

  lemma OffsetShape(pre: seq<char>, hh: seq<char>)
    requires |hh| == 2
    ensures var e, k := pre + ("+" + hh + ":" + "00"), |pre|;
      && |e| == k + 6 && e[k] == '+' && e[k + 1..k + 3] == hh && e[k + 3] == ':' && e[k + 4..k + 6] == "00"
  {
  }

  lemma OffsetPiecesRead(pre: seq<char>, hh: seq<char>, h: int, c: DateComponents)
    requires Field(hh, 2, h)
    ensures ZoneStage(pre + ("+" + hh + ":" + "00"), |pre|, c) == c.(timeZone := Some(3600 * h))
  {
    var e := pre + ("+" + hh + ":" + "00");
    OffsetShape(pre, hh);
    assert DigitsValue("00") == 0 by {
      assert "00"[..1] == "0";
    }
    ZoneOffsetRead(e, c, h);
  }

  /** The zone read back after the time. */
  lemma ZoneRead(cfg: Config, d: DateValues, pre: seq<char>, c: DateComponents)
    requires Printable(cfg, d) && cfg.timeStyle == LongTime && c.timeZone.None?
    ensures var zone := ZoneSegment(if cfg.timeZoneStyle == ShortZone then LongZone else cfg.timeZoneStyle, d.secondsFromGMT);
      && (|zone| == 0 || !IsDigit(zone[0]))
      && ZoneStage(pre + zone, |pre|, c) == c.(timeZone := ExpectedZone(cfg.timeZoneStyle, d.secondsFromGMT))
  {
    var style := if cfg.timeZoneStyle == ShortZone then LongZone else cfg.timeZoneStyle;
    var zone := ZoneSegment(style, d.secondsFromGMT);
    if d.secondsFromGMT.None? || style == NoZone {
      assert pre + zone == pre;
      ZoneEndRead(pre, c);
    } else if style == UTC {
      ZoneZRead(pre + zone, c);
    } else {
      var secs := d.secondsFromGMT.value;
      var h := OffsetHours(secs);
      assert d.secondsFromGMT == Some(secs);
      OffsetSegmentLayout(LongZone, secs);
      FormatField(h, 2);
      assert zone == "+" + FormatInt(h, 2) + ":" + "00";
      OffsetPiecesRead(pre, FormatInt(h, 2), h, c);
    }
  }

  /** The time fields and the zone read back, under a time style; nothing without one. */
  lemma TimeZoneRead(cfg: Config, d: DateValues, pre: seq<char>, c: DateComponents)
    requires Printable(cfg, d) && c.timeZone.None?
    ensures TimeStage(cfg, pre + ExtendedTime(cfg, d), |pre|, c) == Timed(cfg, d, c)
  {
    if cfg.timeStyle == NoTime {
      assert pre + ExtendedTime(cfg, d) == pre;
      EndRead(cfg, pre, c);
    } else {
      var hh, mi, ss := FormatInt(d.hour, 2), FormatInt(d.minute, 2), FormatInt(d.second, 2);
      FormatField(d.hour, 2);
      FormatField(d.minute, 2);
      FormatField(d.second, 2);
      var zone := ZoneSegment(if cfg.timeZoneStyle == ShortZone then LongZone else cfg.timeZoneStyle, d.secondsFromGMT);
      var t := "T" + hh + ":" + mi + ":" + ss;
      assert ExtendedTime(cfg, d) == t + zone;
      var c' := c.(hour := Some(d.hour), minute := Some(d.minute), second := Some(d.second));
      ZoneRead(cfg, d, pre + t, c');
      TimePiecesRead(cfg, pre, hh, mi, ss, zone, d.hour, d.minute, d.second, c);
      TimeShape(pre, hh, mi, ss, zone);
    }
  }

  // ---------------------------------------------------------------------------
  // The round trip

  /**
    Under the ordinal styles the printed day of the year does not come back
    from the last table entry on (30 November on): the month and the day read
    back are both 0.
   */
  lemma LateOrdinalLost(cfg: Config, d: DateValues)
    requires cfg.dateStyle.IsOrdinal() && d.dayOfYear >= DaysTable(d.year)[11]
    ensures Dated(cfg, d).month == Some(0) && Dated(cfg, d).day == Some(0)
  {
    assert YearShown(cfg, d) == d.year;
    OrdinalDerivation(d.year, d.dayOfYear);
  }

  /** Christmas 2015, day 359, under the long ordinal style reads back as month 0, day 0. */
  lemma ChristmasOrdinal(cfg: Config, d: DateValues)
    requires cfg.dateStyle == OrdinalLong && d.year == 2015 && d.dayOfYear == 359
    ensures Dated(cfg, d).month == Some(0) && Dated(cfg, d).day == Some(0)
  {
    assert !IsLeapYear(2015) && DaysTable(2015)[11] == 334;
    LateOrdinalLost(cfg, d);
  }

  /**
    Parsing a rendering under the same configuration gives back the year
    printed, the style's date fields (for the ordinal styles, the month and
    day derived from the printed day of the year), and under the long time style the
    time and the zone: UTC as 0 and a numeric offset as its whole hours.
   */
  lemma RoundTrip(cfg: Config, d: DateValues)
    requires Printable(cfg, d)
    ensures StringFromDate(cfg, d).Some?
    ensures Fits(StringFromDate(cfg, d).value, Insertions(cfg))
    ensures Parse(cfg, StringFromDate(cfg, d).value) == Some(Expected(cfg, d))
  {
    Rewrite(cfg, d);
    ExtendedRead(cfg, d);
  }

  /** The extended rendering reads back as the expected components. */
  lemma ExtendedRead(cfg: Config, d: DateValues)
    requires Printable(cfg, d)
    ensures ParseExtended(cfg, FormatInt(YearShown(cfg, d), 4) + ExtendedDate(cfg, d) + ExtendedTime(cfg, d)) == Some(Expected(cfg, d))
  {
    var pre := FormatInt(YearShown(cfg, d), 4) + ExtendedDate(cfg, d);
    var tx := ExtendedTime(cfg, d);
    assert StartsTime(tx);
    DateRead(cfg, d, tx);
    TimeZoneRead(cfg, d, pre, Dated(cfg, d));
  }

  // ---------------------------------------------------------------------------
  // Where the round trip fails

  /** 12:34:56 on Tuesday 23 June 2015, day 174, ISO week 26, at the given offset. */
  function Sample(secondsFromGMT: Option<int>): DateValues {
    DateValues(2015, 6, 23, 3, 174, 26, 26, 12, 34, 56, secondsFromGMT)
  }

  lemma SampleDate(cfg: Config, d: DateValues)
    requires cfg.dateStyle == CalendarLong && d.year == 2015 && d.month == 6 && d.day == 23
    ensures DateSegment(CalendarLong, d) == "-06-23"
    ensures FormatInt(YearShown(cfg, d), 4) == "2015"
  {
    SampleNumbers();
  }

  lemma SampleNumbers()
    ensures FormatInt(2015, 4) == "2015" && FormatInt(6, 2) == "06" && FormatInt(23, 2) == "23"
  {
    SampleYearText();
    assert FormatInt(6, 2) == "06";
  }

  lemma SampleYearText()
    ensures FormatInt(2015, 4) == "2015"
  {
  }

  lemma SampleTime(d: DateValues)
    requires d.hour == 12 && d.minute == 34 && d.second == 56
    ensures TimeSegment(d) == "T12:34:56"
  {
  }

  /**
    The short time style prints the same colons as the long one and then
    inserts two more where a basic time would need them, so the minute is lost.
   */
  lemma ShortTimeDoesNotReadBack(cfg: Config)
    requires cfg.dateStyle == CalendarLong && cfg.timeStyle == ShortTime && cfg.timeZoneStyle == NoZone
    ensures StringFromDate(cfg, Sample(None)) == Some("2015-06-23T12:34:56")
    ensures Fits("2015-06-23T12:34:56", Insertions(cfg))
    ensures BasicToExtended(cfg, "2015-06-23T12:34:56") == "2015-06-23T12::3:4:56"
    ensures Parse(cfg, "2015-06-23T12:34:56") == Some(YearOnly(2015).(month := Some(6), day := Some(23), hour := Some(12)))
  {
    SamplePrinted(cfg, None);
    ShortTimeRewrite(cfg);
    ShortTimeRead(cfg);
  }

  lemma ShortTimeRead(cfg: Config)
    requires cfg.dateStyle == CalendarLong && cfg.timeStyle == ShortTime
    ensures ParseExtended(cfg, "2015-06-23T12::3:4:56") ==
      Some(YearOnly(2015).(month := Some(6), day := Some(23), hour := Some(12)))
  {
    var e := "2015-06-23T12::3:4:56";
    SampleDateRead(cfg, e);
    HourOnlyRead(cfg, e, YearOnly(2015).(month := Some(6), day := Some(23)));
  }

  /** The sample without a zone or with a long one. */
  lemma SamplePrinted(cfg: Config, zone: Option<int>)
    requires cfg.dateStyle == CalendarLong && cfg.timeStyle != NoTime
    requires zone.None? || (zone == Some(-18000) && cfg.timeZoneStyle == LongZone)
    ensures StringFromDate(cfg, Sample(zone)) ==
      Some(if zone.None? then "2015-06-23T12:34:56" else "2015-06-23T12:34:56--5:00")
  {
    var d := Sample(zone);
    WithTimeLayout(cfg, d);
    SampleDate(cfg, d);
    SampleTime(d);
    if zone.Some? {
      WestZone();
    }
    SampleText();
  }

  lemma SampleText()
    ensures "2015" + "-06-23" + "T12:34:56" == "2015-06-23T12:34:56"
    ensures "2015-06-23T12:34:56" + "" == "2015-06-23T12:34:56"
    ensures "2015-06-23T12:34:56" + "--5:00" == "2015-06-23T12:34:56--5:00"
  {
  }

  /** Five hours west of UTC, in the long zone style. */
  lemma WestZone()
    ensures ZoneSegment(LongZone, Some(-18000)) == "--5:00"
  {
    assert OffsetHours(-18000) == -5;
    OffsetSegmentLayout(LongZone, -18000);
    assert FormatInt(-5, 2) == "-5";
  }

  lemma ShortTimeRewrite(cfg: Config)
    requires cfg.dateStyle == CalendarLong && cfg.timeStyle == ShortTime && cfg.timeZoneStyle == NoZone
    ensures Fits("2015-06-23T12:34:56", Insertions(cfg))
    ensures BasicToExtended(cfg, "2015-06-23T12:34:56") == "2015-06-23T12::3:4:56"
  {
    var s := "2015-06-23T12:34:56";
    assert Insertions(cfg) == [Insertion(15, ':'), Insertion(13, ':')];
    ApplyTwo(s, Insertion(15, ':'), Insertion(13, ':'));
    InsertAtJoin("2015-06-23T12:3", "4:56", ':');
    InsertAtJoin("2015-06-23T12", ":3:4:56", ':');
  }

  lemma SampleDateRead(cfg: Config, e: seq<char>)
    requires cfg.dateStyle == CalendarLong
    requires |e| >= 11 && e[0] == '2' && e[1] == '0' && e[2] == '1' && e[3] == '5' && e[4] == '-'
    requires e[5] == '0' && e[6] == '6' && e[7] == '-' && e[8] == '2' && e[9] == '3' && e[10] == 'T'
    ensures ParseExtended(cfg, e) == Some(TimeStage(cfg, e, 10, YearOnly(2015).(month := Some(6), day := Some(23))))
  {
    DigitsAtFour(e, 0);
    DigitsAtTwo(e, 5);
    DigitsAtTwo(e, 8);
    YearRead(cfg, e, 2015);
    CalendarDateRead(cfg, e, YearOnly(2015), 6, 23);
  }

  lemma HourOnlyRead(cfg: Config, e: seq<char>, c: DateComponents)
    requires cfg.timeStyle == ShortTime
    requires e == "2015-06-23T12::3:4:56"
    ensures TimeStage(cfg, e, 10, c) == c.(hour := Some(12))
  {
    CharactersAtRun(e, 10, 1, {'T'});
    DigitsAtTwo(e, 11);
    IntegerAtDigits(e, 11, 2, 12);
    MatchesOne(e, 13, ':');
    IntegerAtNothing(e, 14);
  }

  /**
    A negative offset prints its sign twice, `--5:00`, and a run of two signs
    is not read as negative: five hours west reads back as five hours east.
   */
  lemma NegativeOffsetFlips(cfg: Config)
    requires cfg.dateStyle == CalendarLong && cfg.timeStyle == LongTime && cfg.timeZoneStyle == LongZone
    ensures StringFromDate(cfg, Sample(Some(-18000))) == Some("2015-06-23T12:34:56--5:00")
    ensures Parse(cfg, "2015-06-23T12:34:56--5:00") ==
      Some(YearOnly(2015).(month := Some(6), day := Some(23), hour := Some(12), minute := Some(34), second := Some(56),
                           timeZone := Some(18000)))
  {
    SamplePrinted(cfg, Some(-18000));
    NegativeSampleParse(cfg);
  }

  lemma NegativeSampleParse(cfg: Config)
    requires cfg.dateStyle == CalendarLong && cfg.timeStyle == LongTime && cfg.timeZoneStyle == LongZone
    ensures Parse(cfg, "2015-06-23T12:34:56--5:00") ==
      Some(YearOnly(2015).(month := Some(6), day := Some(23), hour := Some(12), minute := Some(34), second := Some(56),
                           timeZone := Some(18000)))
  {
    IdentityCases(cfg);
    var s := "2015-06-23T12:34:56--5:00";
    NegativeSampleChars(s);
    NegativeSampleDigits(s);
    NegativeSampleRead(cfg, s);
  }

  /** The date and the time of the sample, as the stages read them. */
  predicate SampleFields(s: seq<char>) {
    && |s| >= 19 && CalendarDigits(s, 2015, 6, 23)
    && s[10] == 'T' && DigitsAt(s, 11, 2, 12) && s[13] == ':' && DigitsAt(s, 14, 2, 34) && s[16] == ':' && DigitsAt(s, 17, 2, 56)
  }

  /** The doubled sign at the end of the sample, `--5:00`, as the zone stage reads it. */
  predicate DoubleSignFields(s: seq<char>) {
    && |s| == 25 && NoZuluFrom(s, 19) && SignsAt(s, 19, 19, 2) && s[19..21] == "--"
    && DigitsAt(s, 21, 1, 5) && s[22] == ':' && DigitsAt(s, 23, 2, 0)
  }

  lemma NegativeSampleDigits(s: seq<char>)
    requires |s| == 25
    requires s[0] == '2' && s[1] == '0' && s[2] == '1' && s[3] == '5' && s[4] == '-' && s[5] == '0' && s[6] == '6'
    requires s[7] == '-' && s[8] == '2' && s[9] == '3' && s[10] == 'T' && s[11] == '1' && s[12] == '2'
    requires s[13] == ':' && s[14] == '3' && s[15] == '4' && s[16] == ':' && s[17] == '5' && s[18] == '6'
    requires s[19] == '-' && s[20] == '-' && s[21] == '5' && s[22] == ':' && s[23] == '0' && s[24] == '0'
    ensures SampleFields(s) && DoubleSignFields(s)
  {
    DigitsAtFour(s, 0);
    DigitsAtTwo(s, 5);
    DigitsAtTwo(s, 8);
    DigitsAtTwo(s, 11);
    DigitsAtTwo(s, 14);
    DigitsAtTwo(s, 17);
    DigitsAtOne(s, 21);
    DigitsAtTwo(s, 23);
    NoZuluInSix(s, 19);
    forall k | 19 <= k < 21
      ensures s[k] in SIGNS
    {
      assert k == 19 || k == 20;
    }
    assert s[19..21] == "--";
  }

  lemma NegativeSampleRead(cfg: Config, s: seq<char>)
    requires cfg.dateStyle == CalendarLong && cfg.timeStyle == LongTime && SampleFields(s) && DoubleSignFields(s)
    ensures ParseExtended(cfg, s) ==
      Some(YearOnly(2015).(month := Some(6), day := Some(23), hour := Some(12), minute := Some(34), second := Some(56),
                           timeZone := Some(18000)))
  {
    var c := YearOnly(2015).(month := Some(6), day := Some(23), hour := Some(12), minute := Some(34), second := Some(56));
    NegativeSampleTime(cfg, s);
    NegativeSampleZone(s, c);
  }

  lemma NegativeSampleTime(cfg: Config, s: seq<char>)
    requires cfg.dateStyle == CalendarLong && cfg.timeStyle == LongTime && SampleFields(s)
    ensures ParseExtended(cfg, s) ==
      Some(ZoneStage(s, 19, YearOnly(2015).(month := Some(6), day := Some(23), hour := Some(12), minute := Some(34), second := Some(56))))
  {
    CalendarPrefixRead(cfg, s, 2015, 6, 23);
    SampleClockRead(cfg, s, YearOnly(2015).(month := Some(6), day := Some(23)));
  }

  lemma SampleClockRead(cfg: Config, s: seq<char>, c: DateComponents)
    requires cfg.timeStyle == LongTime && SampleFields(s)
    ensures TimeStage(cfg, s, 10, c) == ZoneStage(s, 19, c.(hour := Some(12), minute := Some(34), second := Some(56)))
  {
    TimeRead(cfg, s, 10, c, 12, 34, 56);
  }

  lemma NegativeSampleZone(s: seq<char>, c: DateComponents)
    requires DoubleSignFields(s)
    ensures ZoneStage(s, 19, c) == c.(timeZone := Some(18000))
  {
    ExtendedOffsetRead(s, 19, 2, 1, 5, 0, c);
    assert OffsetSeconds(s[19..21], 5, 0) == 18000;
  }

  /** Six characters at the end, none of them a `Z` in either case. */
  lemma NoZuluInSix(s: seq<char>, p: nat)
    requires |s| == p + 6
    requires !SameIgnoringCase(s[p], 'Z') && !SameIgnoringCase(s[p + 1], 'Z') && !SameIgnoringCase(s[p + 2], 'Z')
    requires !SameIgnoringCase(s[p + 3], 'Z') && !SameIgnoringCase(s[p + 4], 'Z') && !SameIgnoringCase(s[p + 5], 'Z')
    ensures NoZuluFrom(s, p)
  {
    forall k | p <= k < |s|
      ensures !SameIgnoringCase(s[k], 'Z')
    {
      assert k == p || k == p + 1 || k == p + 2 || k == p + 3 || k == p + 4 || k == p + 5;
    }
  }

  /**
    A long time with the short zone style but no zone to print: the colon
    for the zone would go three characters past the end, so the string does
    not parse at all.
   */
  lemma ShortZoneNeedsOffset(cfg: Config, d: DateValues)
    requires cfg.timeStyle == LongTime && cfg.timeZoneStyle == ShortZone && d.secondsFromGMT.None?
    requires FieldsFit(d) && (cfg.dateStyle.IsWeek() && d.isoWeek == 53 ==> d.year >= 1)
    requires 0 <= d.hour <= 99 && 0 <= d.minute <= 99 && 0 <= d.second <= 99
    ensures StringFromDate(cfg, d).Some?
    ensures |Insertions(cfg)| >= 1 && Insertions(cfg)[0] == Insertion(|StringFromDate(cfg, d).value| + 3, ':')
    ensures !Fits(StringFromDate(cfg, d).value, Insertions(cfg))
  {
    WithTimeLayout(cfg, d);
    var y, seg, t := FormatInt(YearShown(cfg, d), 4), DateSegment(cfg.dateStyle, d), TimeSegment(d);
    var r := StringFromDate(cfg, d).value;
    assert r == y + seg + t + "";
    assert |y| == 4 && |t| == 9;
    InsertionsSplit(cfg, d);
    assert TimeInsertions(cfg, 4 + |seg| + 3) == [Insertion(4 + |seg| + 3 + 9, ':')];
    InsertionsDescend(cfg);
    FitsWhenFirstFits(r, Insertions(cfg));
  }
}
