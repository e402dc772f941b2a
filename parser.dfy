/**
  `dateFromString`: rewrites a basic-format string into the extended format,
  then reads it left to right with a scanner, filling in date components as
  it goes. Parsing is fail-soft: after the year, the first piece that is
  missing or out of range ends the scan, and the components read so far are
  the result. Only a missing or out-of-range year gives no result at all.

  The pure functions below are the specification, one per stage of the scan;
  `DateFromString` is the imperative scan and is proved to compute them.
 */
module Parser {
  import opened Options
  import opened Literals
  import opened Decimal
  import opened Styles
  import opened OrdinalDates
  import opened Scanning
  import opened ExtendedForm

  /** The date components the scan fills in; `None` is a component never set. */
  datatype DateComponents = DateComponents(
    year: int,
    month: Option<int>,
    day: Option<int>,
    weekOfYear: Option<int>,
    weekday: Option<int>,
    hour: Option<int>,
    minute: Option<int>,
    second: Option<int>,
    timeZone: Option<int>)   // seconds from GMT

  function YearOnly(year: int): DateComponents {
    DateComponents(year, None, None, None, None, None, None, None, None)
  }

  const SIGNS: set<char> := {'+', '-'}

  /** The offset in seconds: negative only when the sign characters read are exactly `-`. */
  function OffsetSeconds(sign: seq<char>, hours: int, minutes: int): int {
    var total := hours * 60 * 60 + minutes * 60;
    if sign == "-" then -total else total
  }

  // ---------------------------------------------------------------------------
  // The scan, stage by stage, on the extended-format string `s`

  /** A year in 0..9999 first, or no result; then the month or week stage. */
  function ParseExtended(cfg: Config, s: seq<char>): Option<DateComponents> {
    match IntegerAt(s, 0)
    case None => None
    case Some((year, p)) =>
      if year < 0 || year > 9999 then None
      else Some(MonthOrWeek(cfg, s, p, YearOnly(year)))
  }

  /** `-`, then the month, the ordinal day (turned into a month) or `W` and the week number. */
  function MonthOrWeek(cfg: Config, s: seq<char>, p: nat, c: DateComponents): (r: DateComponents)
    requires p <= |s|
    ensures r.(month := c.month, day := c.day, weekOfYear := c.weekOfYear, weekday := c.weekday,
               hour := c.hour, minute := c.minute, second := c.second, timeZone := c.timeZone) == c
  {
    match StringAt(s, p, "-")
    case None => c
    case Some(p1) =>
      if cfg.dateStyle.IsCalendar() then
        match IntegerAt(s, p1)
        case None => c
        case Some((month, p2)) => DayOrWeekday(cfg, s, p2, c.(month := Some(month)), 0)
      else if cfg.dateStyle.IsOrdinal() then
        match IntegerAt(s, p1)
        case None => c
        case Some((ordinalDay, p2)) =>
          DayOrWeekday(cfg, s, p2, c.(month := Some(OrdinalMonth(DaysTable(c.year), ordinalDay))), ordinalDay)
      else
        match StringAt(s, p1, "W")
        case None => c
        case Some(p2) =>
          match IntegerAt(s, p2)
          case None => c
          case Some((week, p3)) =>
            if week < 0 || week > 53 then c
            else DayOrWeekday(cfg, s, p3, c.(weekOfYear := Some(week)), 0)
  }

  /** `-` and the day, the day derived from the ordinal day, or `-` and a weekday in 0..7. */
  function DayOrWeekday(cfg: Config, s: seq<char>, p: nat, c: DateComponents, ordinalDay: int): (r: DateComponents)
    requires p <= |s|
    ensures r.(day := c.day, weekday := c.weekday,
               hour := c.hour, minute := c.minute, second := c.second, timeZone := c.timeZone) == c
  {
    if cfg.dateStyle.IsOrdinal() then
      TimeStage(cfg, s, p, c.(day := Some(OrdinalDay(DaysTable(c.year), ordinalDay))))
    else
      match StringAt(s, p, "-")
      case None => c
      case Some(p1) =>
        match IntegerAt(s, p1)
        case None => c
        case Some((day, p2)) =>
          if cfg.dateStyle.IsCalendar() then TimeStage(cfg, s, p2, c.(day := Some(day)))
          else if day < 0 || day > 7 then c
          else TimeStage(cfg, s, p2, c.(weekday := Some(day)))
  }

  /** One or more `T`s and the hour, kept (and checked to be 0..23) only under a time style. */
  function TimeStage(cfg: Config, s: seq<char>, p: nat, c: DateComponents): (r: DateComponents)
    requires p <= |s|
    ensures r.(hour := c.hour, minute := c.minute, second := c.second, timeZone := c.timeZone) == c
  {
    match CharactersAt(s, p, {'T'})
    case None => c
    case Some((_, p1)) =>
      match IntegerAt(s, p1)
      case None => c
      case Some((hour, p2)) =>
        if cfg.timeStyle == NoTime then MinuteStage(cfg, s, p2, c)
        else if hour < 0 || hour > 23 then c
        else MinuteStage(cfg, s, p2, c.(hour := Some(hour)))
  }

  /** `:` and the minute, kept (and checked to be 0..59) only under a time style. */
  function MinuteStage(cfg: Config, s: seq<char>, p: nat, c: DateComponents): (r: DateComponents)
    requires p <= |s|
    ensures r.(minute := c.minute, second := c.second, timeZone := c.timeZone) == c
  {
    match StringAt(s, p, ":")
    case None => c
    case Some(p1) =>
      match IntegerAt(s, p1)
      case None => c
      case Some((minute, p2)) =>
        if cfg.timeStyle == NoTime then SecondStage(cfg, s, p2, c)
        else if minute < 0 || minute > 59 then c
        else SecondStage(cfg, s, p2, c.(minute := Some(minute)))
  }

  /** An optional `:` and second; without the `:` the scan goes on from the same place. */
  function SecondStage(cfg: Config, s: seq<char>, p: nat, c: DateComponents): (r: DateComponents)
    requires p <= |s|
    ensures r.(second := c.second, timeZone := c.timeZone) == c
  {
    match StringAt(s, p, ":")
    case None => ZoneStage(s, p, c)
    case Some(p1) =>
      match IntegerAt(s, p1)
      case None => c
      case Some((second, p2)) =>
        if cfg.timeStyle == NoTime then ZoneStage(s, p2, c)
        else if second < 0 || second > 59 then c
        else ZoneStage(s, p2, c.(second := Some(second)))
  }

  /** A `Z` anywhere after the time means UTC; otherwise look for a numeric offset from the same place. */
  function ZoneStage(s: seq<char>, p: nat, c: DateComponents): (r: DateComponents)
    requires p <= |s|
    ensures r.(timeZone := c.timeZone) == c
  {
    var q := UpToStringAt(s, p, "Z");
    if StringAt(s, q, "Z").Some? then c.(timeZone := Some(0))
    else OffsetStage(s, p, c)
  }

  /** After the time: the first run of signs, then the offset that follows it. */
  function OffsetStage(s: seq<char>, p: nat, c: DateComponents): (r: DateComponents)
    requires p <= |s|
    ensures r.(timeZone := c.timeZone) == c
  {
    var q := UpToCharactersAt(s, p, SIGNS);
    match CharactersAt(s, q, SIGNS)
    case None => c
    case Some((sign, q1)) => WithOffset(c, OffsetAfterSign(s, q1, sign))
  }

  /**
    The offset after a run of signs: the hours, then either a `:` and the
    minutes, or (when there is no `:` and the hours exceed 14) hours and
    minutes packed as `hhmm`, or an optional minute field. Nothing when no
    integer follows the signs.
   */
  function OffsetAfterSign(s: seq<char>, i: nat, sign: seq<char>): Option<int>
    requires i <= |s|
  {
    match IntegerAt(s, i)
    case None => None
    case Some((h, q2)) =>
      var colon := StringAt(s, q2, ":");
      if colon.None? && h > 14 then
        Some(OffsetSeconds(sign, h / 100, h % 100))
      else
        var q3 := if colon.Some? then colon.value else q2;
        var m := match IntegerAt(s, q3) case None => 0 case Some((v, _)) => v;
        Some(OffsetSeconds(sign, h, m))
  }

  function WithOffset(c: DateComponents, offset: Option<int>): DateComponents {
    match offset
    case None => c
    case Some(secs) => c.(timeZone := Some(secs))
  }

  /** The whole parse: the rewrite into the extended format, then the scan. */
  function Parse(cfg: Config, s: seq<char>): Option<DateComponents>
    requires Fits(s, Insertions(cfg))
  {
    ParseExtended(cfg, BasicToExtended(cfg, s))
  }

  // ---------------------------------------------------------------------------
  // What every result satisfies

  predicate Within(o: Option<int>, lo: int, hi: int) {
    o.None? || lo <= o.value <= hi
  }

  /** The range checks the scan makes: week, weekday, hour, minute and second; month and day are not checked. */
  predicate InRange(c: DateComponents) {
    && 0 <= c.year <= 9999
    && Within(c.weekOfYear, 0, 53) && Within(c.weekday, 0, 7)
    && Within(c.hour, 0, 23) && Within(c.minute, 0, 59) && Within(c.second, 0, 59)
  }

  /** The date fields the style reads are all there. */
  predicate DateComplete(cfg: Config, c: DateComponents) {
    if cfg.dateStyle.IsWeek() then c.weekOfYear.Some? && c.weekday.Some?
    else c.month.Some? && c.day.Some?
  }

  /** A style sets its own date fields only, in order; an ordinal date sets month and day together. */
  predicate StyleFields(cfg: Config, c: DateComponents) {
    if cfg.dateStyle.IsWeek() then
      c.month.None? && c.day.None? && (c.weekday.Some? ==> c.weekOfYear.Some?)
    else
      && c.weekOfYear.None? && c.weekday.None?
      && (c.day.Some? ==> c.month.Some?)
      && (cfg.dateStyle.IsOrdinal() ==> (c.month.Some? <==> c.day.Some?) && Within(c.month, 0, 11))
  }

  /**
    Fail-soft order: a field is there only if every field before it is.
    Without a time style the time fields are never set, though a zone can be.
   */
  predicate FilledInOrder(cfg: Config, c: DateComponents) {
    && (cfg.timeStyle == NoTime ==> c.hour.None? && c.minute.None? && c.second.None?)
    && (c.second.Some? ==> c.minute.Some?)
    && (c.minute.Some? ==> c.hour.Some?)
    && (c.hour.Some? ==> DateComplete(cfg, c))
    && (c.timeZone.Some? ==> DateComplete(cfg, c) && (cfg.timeStyle != NoTime ==> c.minute.Some?))
  }

  predicate WellFormed(cfg: Config, c: DateComponents) {
    InRange(c) && StyleFields(cfg, c) && FilledInOrder(cfg, c)
  }

  lemma ZoneStageWellFormed(cfg: Config, s: seq<char>, p: nat, c: DateComponents)
    requires p <= |s|
    requires WellFormed(cfg, c) && DateComplete(cfg, c) && (cfg.timeStyle != NoTime ==> c.minute.Some?)
    ensures WellFormed(cfg, ZoneStage(s, p, c))
  {
    var r := ZoneStage(s, p, c);
    assert r == c.(timeZone := r.timeZone);
  }

  lemma SecondStageWellFormed(cfg: Config, s: seq<char>, p: nat, c: DateComponents)
    requires p <= |s|
    requires WellFormed(cfg, c) && DateComplete(cfg, c) && (cfg.timeStyle != NoTime ==> c.minute.Some?)
    requires c.second.None? && c.timeZone.None?
    ensures WellFormed(cfg, SecondStage(cfg, s, p, c))
  {
    match StringAt(s, p, ":")
    case None => ZoneStageWellFormed(cfg, s, p, c);
    case Some(p1) =>
      match IntegerAt(s, p1)
      case None =>
      case Some((second, p2)) =>
        if cfg.timeStyle == NoTime {
          ZoneStageWellFormed(cfg, s, p2, c);
        } else if 0 <= second <= 59 {
          ZoneStageWellFormed(cfg, s, p2, c.(second := Some(second)));
        }
  }

  lemma MinuteStageWellFormed(cfg: Config, s: seq<char>, p: nat, c: DateComponents)
    requires p <= |s|
    requires WellFormed(cfg, c) && DateComplete(cfg, c) && (cfg.timeStyle != NoTime ==> c.hour.Some?)
    requires c.minute.None? && c.second.None? && c.timeZone.None?
    ensures WellFormed(cfg, MinuteStage(cfg, s, p, c))
  {
    match StringAt(s, p, ":")
    case None =>
    case Some(p1) =>
      match IntegerAt(s, p1)
      case None =>
      case Some((minute, p2)) =>
        if cfg.timeStyle == NoTime {
          SecondStageWellFormed(cfg, s, p2, c);
        } else if 0 <= minute <= 59 {
          SecondStageWellFormed(cfg, s, p2, c.(minute := Some(minute)));
        }
  }

  lemma TimeStageWellFormed(cfg: Config, s: seq<char>, p: nat, c: DateComponents)
    requires p <= |s|
    requires WellFormed(cfg, c) && DateComplete(cfg, c)
    requires c.hour.None? && c.minute.None? && c.second.None? && c.timeZone.None?
    ensures WellFormed(cfg, TimeStage(cfg, s, p, c))
  {
    match CharactersAt(s, p, {'T'})
    case None =>
    case Some((_, p1)) =>
      match IntegerAt(s, p1)
      case None =>
      case Some((hour, p2)) =>
        if cfg.timeStyle == NoTime {
          MinuteStageWellFormed(cfg, s, p2, c);
        } else if 0 <= hour <= 23 {
          MinuteStageWellFormed(cfg, s, p2, c.(hour := Some(hour)));
        }
  }

  /** Components after a date stage: nothing of the time or the zone yet. */
  predicate NoTimeYet(c: DateComponents) {
    c.hour.None? && c.minute.None? && c.second.None? && c.timeZone.None?
  }

  lemma DayStageWellFormed(cfg: Config, s: seq<char>, p: nat, c: DateComponents, ordinalDay: int)
    requires p <= |s| && 0 <= c.year <= 9999 && NoTimeYet(c)
    requires !cfg.dateStyle.IsWeek() ==> c.month.Some? && c.day.None? && c.weekOfYear.None? && c.weekday.None?
    requires cfg.dateStyle.IsOrdinal() ==> c.month == Some(OrdinalMonth(DaysTable(c.year), ordinalDay))
    requires cfg.dateStyle.IsWeek() ==> c.month.None? && c.day.None? && c.weekday.None? && Within(c.weekOfYear, 0, 53) && c.weekOfYear.Some?
    ensures WellFormed(cfg, DayOrWeekday(cfg, s, p, c, ordinalDay))
  {
    if cfg.dateStyle.IsOrdinal() {
      DaysTableIsCumulative(c.year);
      TimeStageWellFormed(cfg, s, p, c.(day := Some(OrdinalDay(DaysTable(c.year), ordinalDay))));
    } else {
      match StringAt(s, p, "-")
      case None =>
      case Some(p1) =>
        match IntegerAt(s, p1)
        case None =>
        case Some((day, p2)) =>
          if cfg.dateStyle.IsCalendar() {
            TimeStageWellFormed(cfg, s, p2, c.(day := Some(day)));
          } else if 0 <= day <= 7 {
            TimeStageWellFormed(cfg, s, p2, c.(weekday := Some(day)));
          }
    }
  }

  lemma DateStagesWellFormed(cfg: Config, s: seq<char>, p: nat, year: int)
    requires p <= |s| && 0 <= year <= 9999
    ensures WellFormed(cfg, MonthOrWeek(cfg, s, p, YearOnly(year)))
  {
    var c := YearOnly(year);
    match StringAt(s, p, "-")
    case None =>
    case Some(p1) =>
      if cfg.dateStyle.IsCalendar() {
        match IntegerAt(s, p1)
        case None =>
        case Some((month, p2)) =>
          DayStageWellFormed(cfg, s, p2, c.(month := Some(month)), 0);
      } else if cfg.dateStyle.IsOrdinal() {
        match IntegerAt(s, p1)
        case None =>
        case Some((ordinalDay, p2)) =>
          DayStageWellFormed(cfg, s, p2, c.(month := Some(OrdinalMonth(DaysTable(year), ordinalDay))), ordinalDay);
      } else {
        match StringAt(s, p1, "W")
        case None =>
        case Some(p2) =>
          match IntegerAt(s, p2)
          case None =>
          case Some((week, p3)) =>
            if 0 <= week <= 53 {
              DayStageWellFormed(cfg, s, p3, c.(weekOfYear := Some(week)), 0);
            }
      }
  }

  /** There is a result exactly when the string opens with an integer in 0..9999, which is its year. */
  lemma ParseYear(cfg: Config, s: seq<char>)
    ensures ParseExtended(cfg, s).Some? <==> IntegerAt(s, 0).Some? && 0 <= IntegerAt(s, 0).value.0 <= 9999
    ensures ParseExtended(cfg, s).Some? ==> ParseExtended(cfg, s).value.year == IntegerAt(s, 0).value.0
    ensures ParseExtended(cfg, s).Some? && !MatchesAt(s, IntegerAt(s, 0).value.1, "-") ==>
      ParseExtended(cfg, s) == Some(YearOnly(IntegerAt(s, 0).value.0))
  {
    match IntegerAt(s, 0)
    case None =>
    case Some((year, p)) =>
  }

  /**
    Every result keeps to the range checks, sets only its style's date
    fields, and sets fields in scan order; the year alone decides whether
    there is a result at all.
   */
  lemma ParseWellFormed(cfg: Config, s: seq<char>)
    ensures ParseExtended(cfg, s).Some? ==> WellFormed(cfg, ParseExtended(cfg, s).value)
  {
    match IntegerAt(s, 0)
    case None =>
    case Some((year, p)) =>
      if 0 <= year <= 9999 {
        DateStagesWellFormed(cfg, s, p, year);
      }
  }

  // ---------------------------------------------------------------------------
  // The zone

  /**
    A `Z` (either case) anywhere after the time gives UTC whatever surrounds it;
    with none, the numeric offset is read from the end of the time.
   */
  lemma ZuluAnywhere(s: seq<char>, p: nat, c: DateComponents)
    requires p <= |s|
    ensures (exists k :: p <= k < |s| && SameIgnoringCase(s[k], 'Z')) ==> ZoneStage(s, p, c) == c.(timeZone := Some(0))
    ensures (forall k :: p <= k < |s| ==> !SameIgnoringCase(s[k], 'Z')) ==> ZoneStage(s, p, c) == OffsetStage(s, p, c)
  {
    if k :| p <= k < |s| && SameIgnoringCase(s[k], 'Z') {
      ZuluFound(s, p, k, c);
    } else {
      ZuluAbsent(s, p, c);
    }
  }

  lemma ZuluFound(s: seq<char>, p: nat, k: nat, c: DateComponents)
    requires p <= k < |s| && SameIgnoringCase(s[k], 'Z')
    ensures ZoneStage(s, p, c) == c.(timeZone := Some(0))
  {
    var q := UpToStringAt(s, p, "Z");
    UpToStringAtFirst(s, p, "Z");
    MatchesOne(s, q, 'Z');
    MatchesOne(s, k, 'Z');
  }

  lemma ZuluAbsent(s: seq<char>, p: nat, c: DateComponents)
    requires p <= |s| && NoZuluFrom(s, p)
    ensures ZoneStage(s, p, c) == OffsetStage(s, p, c)
  {
    var q := UpToStringAt(s, p, "Z");
    UpToStringAtFirst(s, p, "Z");
    MatchesOne(s, q, 'Z');
  }

  /** The minutes an optional `scanInteger` leaves: 0 when there is no number. */
  function MinutesAt(s: seq<char>, i: nat): int
    requires i <= |s|
  {
    match IntegerAt(s, i) case None => 0 case Some((v, _)) => v
  }

  predicate NoZuluFrom(s: seq<char>, p: nat) {
    forall k :: p <= k < |s| ==> !SameIgnoringCase(s[k], 'Z')
  }

  /** From `p`, the first sign is at `q` and the run of signs there is `r` long. */
  predicate SignsAt(s: seq<char>, p: nat, q: nat, r: nat) {
    && p <= q && q + r <= |s| && r >= 1
    && (forall k :: p <= k < q ==> s[k] !in SIGNS)
    && (forall k :: q <= k < q + r ==> s[k] in SIGNS)
    && (q + r == |s| || s[q + r] !in SIGNS)
  }

  /** With no `Z` after the time, the offset is read after the first run of signs. */
  lemma SignRunRead(s: seq<char>, p: nat, q: nat, r: nat, c: DateComponents)
    requires NoZuluFrom(s, p) && SignsAt(s, p, q, r)
    ensures ZoneStage(s, p, c) == WithOffset(c, OffsetAfterSign(s, q + r, s[q..q + r]))
  {
    ZuluAbsent(s, p, c);
    SignRunOffset(s, p, q, r, c);
  }

  lemma SignRunOffset(s: seq<char>, p: nat, q: nat, r: nat, c: DateComponents)
    requires SignsAt(s, p, q, r)
    ensures OffsetStage(s, p, c) == WithOffset(c, OffsetAfterSign(s, q + r, s[q..q + r]))
  {
    UpToFirstOf(s, p, q, SIGNS);
    CharactersAtRun(s, q, r, SIGNS);
  }

  /** With a `:` after the hours, the minutes are the integer after it, or 0. */
  lemma OffsetWithColon(s: seq<char>, i: nat, n: nat, h: int, sign: seq<char>)
    requires DigitsAt(s, i, n, h) && i + n < |s| && s[i + n] == ':'
    ensures OffsetAfterSign(s, i, sign) == Some(OffsetSeconds(sign, h, MinutesAt(s, i + n + 1)))
  {
    IntegerAtDigits(s, i, n, h);
    MatchesOne(s, i + n, ':');
  }

  /** A run of `r` signs at `p`, `n` hour digits, a `:` and two minute digits, with no `Z` anywhere. */
  lemma ExtendedOffsetRead(s: seq<char>, p: nat, r: nat, n: nat, h: int, m: int, c: DateComponents)
    requires NoZuluFrom(s, p) && SignsAt(s, p, p, r)
    requires DigitsAt(s, p + r, n, h) && p + r + n < |s| && s[p + r + n] == ':'
    requires DigitsAt(s, p + r + n + 1, 2, m)
    ensures ZoneStage(s, p, c) == c.(timeZone := Some(OffsetSeconds(s[p..p + r], h, m)))
  {
    var sign := s[p..p + r];
    SignRunRead(s, p, p, r, c);
    OffsetWithColon(s, p + r, n, h, sign);
    IntegerAtDigits(s, p + r + n + 1, 2, m);
    assert MinutesAt(s, p + r + n + 1) == m;
    assert OffsetAfterSign(s, p + r, sign) == Some(OffsetSeconds(sign, h, m));
  }

  /** A run of `r` signs at `p` and `n` digits to the end, more than 14, read as `hhmm`. */
  lemma PackedOffsetRead(s: seq<char>, p: nat, r: nat, n: nat, h: int, c: DateComponents)
    requires NoZuluFrom(s, p) && SignsAt(s, p, p, r)
    requires DigitsAt(s, p + r, n, h) && p + r + n == |s| && h > 14
    ensures ZoneStage(s, p, c) == c.(timeZone := Some(OffsetSeconds(s[p..p + r], h / 100, h % 100)))
  {
    SignRunRead(s, p, p, r, c);
    OffsetPacked(s, p + r, n, h, s[p..p + r]);
  }

  /** A run of `r` signs at `p` and `n` digits to the end, at most 14, read as whole hours. */
  lemma HoursOffsetRead(s: seq<char>, p: nat, r: nat, n: nat, h: int, c: DateComponents)
    requires NoZuluFrom(s, p) && SignsAt(s, p, p, r)
    requires DigitsAt(s, p + r, n, h) && p + r + n == |s| && h <= 14
    ensures ZoneStage(s, p, c) == c.(timeZone := Some(OffsetSeconds(s[p..p + r], h, 0)))
  {
    SignRunRead(s, p, p, r, c);
    OffsetHoursOnly(s, p + r, n, h, s[p..p + r]);
    IntegerAtNothing(s, p + r + n);
  }

  /** Without a `:`, more than 14 "hours" are hours and minutes packed as `hhmm`. */
  lemma OffsetPacked(s: seq<char>, i: nat, n: nat, h: int, sign: seq<char>)
    requires DigitsAt(s, i, n, h) && (i + n == |s| || s[i + n] != ':') && h > 14
    ensures OffsetAfterSign(s, i, sign) == Some(OffsetSeconds(sign, h / 100, h % 100))
  {
    IntegerAtDigits(s, i, n, h);
    MatchesOne(s, i + n, ':');
  }

  /** Without a `:`, at most 14 hours are hours, and an optional minute field may follow directly. */
  lemma OffsetHoursOnly(s: seq<char>, i: nat, n: nat, h: int, sign: seq<char>)
    requires DigitsAt(s, i, n, h) && (i + n == |s| || s[i + n] != ':') && h <= 14
    ensures OffsetAfterSign(s, i, sign) == Some(OffsetSeconds(sign, h, MinutesAt(s, i + n)))
  {
    IntegerAtDigits(s, i, n, h);
    MatchesOne(s, i + n, ':');
  }

  /** No integer after the signs: no offset at all. */
  lemma OffsetMissing(s: seq<char>, i: nat, sign: seq<char>)
    requires i <= |s| && IntegerAt(s, i).None?
    ensures OffsetAfterSign(s, i, sign).None?
  {
  }

  /** Offsets in seconds: a single `-` negates; any other run of signs, `--` included, does not. */
  lemma OffsetSign(sign: seq<char>, h: int, m: int)
    ensures sign == "-" ==> OffsetSeconds(sign, h, m) == -(3600 * h + 60 * m)
    ensures sign != "-" ==> OffsetSeconds(sign, h, m) == 3600 * h + 60 * m
  {
  }

  // ---------------------------------------------------------------------------
  // Reading the fields of a well-formed extended string, stage by stage

  lemma YearRead(cfg: Config, s: seq<char>, year: int)
    requires DigitsAt(s, 0, 4, year) && 0 <= year <= 9999
    ensures ParseExtended(cfg, s) == Some(MonthOrWeek(cfg, s, 4, YearOnly(year)))
  {
    IntegerAtDigits(s, 0, 4, year);
  }

  /** `-MM-DD` under a calendar style. */
  lemma CalendarDateRead(cfg: Config, s: seq<char>, c: DateComponents, month: int, day: int)
    requires cfg.dateStyle.IsCalendar() && |s| >= 10
    requires s[4] == '-' && DigitsAt(s, 5, 2, month) && s[7] == '-' && DigitsAt(s, 8, 2, day)
    ensures MonthOrWeek(cfg, s, 4, c) == TimeStage(cfg, s, 10, c.(month := Some(month), day := Some(day)))
  {
    MatchesOne(s, 4, '-');
    MatchesOne(s, 7, '-');
    IntegerAtDigits(s, 5, 2, month);
    IntegerAtDigits(s, 8, 2, day);
  }

  /** `yyyy-MM-dd` at the start of `s`. */
  predicate CalendarDigits(s: seq<char>, year: int, month: int, day: int) {
    |s| >= 10 && DigitsAt(s, 0, 4, year) && s[4] == '-' && DigitsAt(s, 5, 2, month) && s[7] == '-' && DigitsAt(s, 8, 2, day)
  }

  /** A calendar date in front: year, month and day are read, and the scan goes on to the time. */
  lemma CalendarPrefixRead(cfg: Config, s: seq<char>, year: int, month: int, day: int)
    requires cfg.dateStyle.IsCalendar() && CalendarDigits(s, year, month, day) && 0 <= year <= 9999
    ensures ParseExtended(cfg, s) == Some(TimeStage(cfg, s, 10, YearOnly(year).(month := Some(month), day := Some(day))))
  {
    YearRead(cfg, s, year);
    CalendarDateRead(cfg, s, YearOnly(year), month, day);
  }

  /** `-DDD` under an ordinal style: month and day come from the table of the year. */
  lemma OrdinalDateRead(cfg: Config, s: seq<char>, c: DateComponents, n: int)
    requires cfg.dateStyle.IsOrdinal() && |s| >= 8
    requires s[4] == '-' && DigitsAt(s, 5, 3, n)
    ensures MonthOrWeek(cfg, s, 4, c) ==
      TimeStage(cfg, s, 8, c.(month := Some(OrdinalMonth(DaysTable(c.year), n)), day := Some(OrdinalDay(DaysTable(c.year), n))))
  {
    MatchesOne(s, 4, '-');
    IntegerAtDigits(s, 5, 3, n);
    var c1 := c.(month := Some(OrdinalMonth(DaysTable(c.year), n)));
    assert c1.year == c.year;
    assert DayOrWeekday(cfg, s, 8, c1, n) == TimeStage(cfg, s, 8, c1.(day := Some(OrdinalDay(DaysTable(c.year), n))));
  }

  /** `-Www-D` under a week style, with the week in 0..53 and the weekday in 0..7. */
  lemma WeekDateRead(cfg: Config, s: seq<char>, c: DateComponents, week: int, weekday: int)
    requires cfg.dateStyle.IsWeek() && |s| >= 10
    requires s[4] == '-' && s[5] == 'W' && DigitsAt(s, 6, 2, week) && s[8] == '-' && DigitsAt(s, 9, 1, weekday)
    requires 0 <= week <= 53 && 0 <= weekday <= 7
    ensures MonthOrWeek(cfg, s, 4, c) == TimeStage(cfg, s, 10, c.(weekOfYear := Some(week), weekday := Some(weekday)))
  {
    MatchesOne(s, 4, '-');
    MatchesOne(s, 5, 'W');
    MatchesOne(s, 8, '-');
    IntegerAtDigits(s, 6, 2, week);
    IntegerAtDigits(s, 9, 1, weekday);
  }

  /** Nothing after the date: the date fields are the result. */
  lemma EndRead(cfg: Config, s: seq<char>, c: DateComponents)
    ensures TimeStage(cfg, s, |s|, c) == c
  {
  }

  /** `Thh:mm:ss`, stored only under a time style. */
  lemma TimeRead(cfg: Config, s: seq<char>, k: nat, c: DateComponents, h: int, m: int, sec: int)
    requires k + 9 <= |s| && s[k] == 'T'
    requires DigitsAt(s, k + 1, 2, h) && s[k + 3] == ':' && DigitsAt(s, k + 4, 2, m) && s[k + 6] == ':' && DigitsAt(s, k + 7, 2, sec)
    requires 0 <= h <= 23 && 0 <= m <= 59 && 0 <= sec <= 59
    ensures TimeStage(cfg, s, k, c) ==
      ZoneStage(s, k + 9, if cfg.timeStyle == NoTime then c else c.(hour := Some(h), minute := Some(m), second := Some(sec)))
  {
    var timed := cfg.timeStyle != NoTime;
    var c1 := if timed then c.(hour := Some(h)) else c;
    var c2 := if timed then c1.(minute := Some(m)) else c1;
    HourRead(cfg, s, k, c, h);
    FieldRead(cfg, s, k + 3, c1, m);
    SecondRead(cfg, s, k + 6, c2, sec);
  }

  /** `T` and an hour in 0..23, read on to the minute. */
  lemma HourRead(cfg: Config, s: seq<char>, k: nat, c: DateComponents, h: int)
    requires k + 3 <= |s| && s[k] == 'T' && DigitsAt(s, k + 1, 2, h) && 0 <= h <= 23
    ensures TimeStage(cfg, s, k, c) == MinuteStage(cfg, s, k + 3, if cfg.timeStyle == NoTime then c else c.(hour := Some(h)))
  {
    assert s[k + 1] == s[k + 1..k + 3][0];
    CharactersAtRun(s, k, 1, {'T'});
    IntegerAtDigits(s, k + 1, 2, h);
  }

  /** `:` and a minute in 0..59, read on to the second. */
  lemma FieldRead(cfg: Config, s: seq<char>, k: nat, c: DateComponents, m: int)
    requires k + 3 <= |s| && s[k] == ':' && DigitsAt(s, k + 1, 2, m) && 0 <= m <= 59
    ensures MinuteStage(cfg, s, k, c) == SecondStage(cfg, s, k + 3, if cfg.timeStyle == NoTime then c else c.(minute := Some(m)))
  {
    MatchesOne(s, k, ':');
    IntegerAtDigits(s, k + 1, 2, m);
  }

  /** `:` and a second in 0..59, read on to the zone. */
  lemma SecondRead(cfg: Config, s: seq<char>, k: nat, c: DateComponents, sec: int)
    requires k + 3 <= |s| && s[k] == ':' && DigitsAt(s, k + 1, 2, sec) && 0 <= sec <= 59
    ensures SecondStage(cfg, s, k, c) == ZoneStage(s, k + 3, if cfg.timeStyle == NoTime then c else c.(second := Some(sec)))
  {
    MatchesOne(s, k, ':');
    IntegerAtDigits(s, k + 1, 2, sec);
  }

  /** No zone designator. */
  lemma ZoneEndRead(s: seq<char>, c: DateComponents)
    ensures ZoneStage(s, |s|, c) == c
  {
    MatchesOne(s, |s|, 'Z');
  }

  /** A final `Z`. */
  lemma ZoneZRead(s: seq<char>, c: DateComponents)
    requires |s| >= 1 && s[|s| - 1] == 'Z'
    ensures ZoneStage(s, |s| - 1, c) == c.(timeZone := Some(0))
  {
    ZuluFound(s, |s| - 1, |s| - 1, c);
  }

  /** A final `+hh:00`. */
  lemma ZoneOffsetRead(s: seq<char>, c: DateComponents, h: int)
    requires |s| >= 6
    requires s[|s| - 6] == '+' && DigitsAt(s, |s| - 5, 2, h) && s[|s| - 3] == ':' && DigitsAt(s, |s| - 2, 2, 0)
    ensures ZoneStage(s, |s| - 6, c) == c.(timeZone := Some(3600 * h))
  {
    var p := |s| - 6;
    NoLetterZInOffset(s, h);
    assert s[p + 1] == s[p + 1..p + 3][0];
    ExtendedOffsetRead(s, p, 1, 2, h, 0, c);
    assert s[p..p + 1] == "+";
  }

  lemma NoLetterZInOffset(s: seq<char>, h: int)
    requires |s| >= 6
    requires s[|s| - 6] == '+' && DigitsAt(s, |s| - 5, 2, h) && s[|s| - 3] == ':' && DigitsAt(s, |s| - 2, 2, 0)
    ensures forall k :: |s| - 6 <= k < |s| ==> !SameIgnoringCase(s[k], 'Z')
  {
    var p := |s| - 6;
    forall k | p <= k < |s|
      ensures !SameIgnoringCase(s[k], 'Z')
    {
      if k == p + 1 || k == p + 2 {
        assert s[k] == s[p + 1..p + 3][k - p - 1];
      } else if k == p + 4 || k == p + 5 {
        assert s[k] == s[p + 4..p + 6][k - p - 4];
      }
    }
  }

  // ---------------------------------------------------------------------------
  // Examples

  /** Month and day are stored as read, without a range check. */
  lemma MonthAndDayUnchecked(cfg: Config)
    requires cfg.dateStyle.IsCalendar()
    ensures ParseExtended(cfg, "2015-13-45") == Some(YearOnly(2015).(month := Some(13), day := Some(45)))
  {
    UncheckedRead(cfg, "2015-13-45");
  }

  lemma UncheckedRead(cfg: Config, s: seq<char>)
    requires cfg.dateStyle.IsCalendar() && s == "2015-13-45"
    ensures ParseExtended(cfg, s) == Some(YearOnly(2015).(month := Some(13), day := Some(45)))
  {
    UncheckedDigits(s);
    CalendarPrefixRead(cfg, s, 2015, 13, 45);
    EndRead(cfg, s, YearOnly(2015).(month := Some(13), day := Some(45)));
  }

  lemma UncheckedDigits(s: seq<char>)
    requires s == "2015-13-45"
    ensures CalendarDigits(s, 2015, 13, 45) && |s| == 10
  {
    DigitsAtFour(s, 0);
    DigitsAtTwo(s, 5);
    DigitsAtTwo(s, 8);
  }

  /** A week past 53 ends the scan: only the year is kept. */
  lemma WeekOutOfRange(cfg: Config)
    requires cfg.dateStyle.IsWeek()
    ensures ParseExtended(cfg, "2015-W54-1") == Some(YearOnly(2015))
  {
    WeekFiftyFourRead(cfg, "2015-W54-1");
  }

  lemma WeekFiftyFourRead(cfg: Config, s: seq<char>)
    requires cfg.dateStyle.IsWeek() && s == "2015-W54-1"
    ensures ParseExtended(cfg, s) == Some(YearOnly(2015))
  {
    DigitsAtFour(s, 0);
    DigitsAtTwo(s, 6);
    YearRead(cfg, s, 2015);
    WeekBeyondRange(cfg, s, YearOnly(2015), 54);
  }

  /** A week number past 53 keeps nothing more. */
  lemma WeekBeyondRange(cfg: Config, s: seq<char>, c: DateComponents, week: int)
    requires cfg.dateStyle.IsWeek() && |s| >= 8
    requires s[4] == '-' && s[5] == 'W' && DigitsAt(s, 6, 2, week) && week > 53
    ensures MonthOrWeek(cfg, s, 4, c) == c
  {
    MatchesOne(s, 4, '-');
    MatchesOne(s, 5, 'W');
    IntegerAtDigits(s, 6, 2, week);
  }

  /**
    Hour 24 ends the scan under a time style. Without one the hour is
    neither checked nor kept, and the scan goes on to the zone.
   */
  lemma HourOutOfRange(cfg: Config)
    requires cfg.dateStyle.IsCalendar()
    ensures ParseExtended(cfg, "2015-06-23T24:00:00Z") == Some(
      if cfg.timeStyle == NoTime then YearOnly(2015).(month := Some(6), day := Some(23), timeZone := Some(0))
      else YearOnly(2015).(month := Some(6), day := Some(23)))
  {
    HourTwentyFourRead(cfg, "2015-06-23T24:00:00Z");
  }

  lemma HourTwentyFourRead(cfg: Config, s: seq<char>)
    requires cfg.dateStyle.IsCalendar() && s == "2015-06-23T24:00:00Z"
    ensures ParseExtended(cfg, s) == Some(
      if cfg.timeStyle == NoTime then YearOnly(2015).(month := Some(6), day := Some(23), timeZone := Some(0))
      else YearOnly(2015).(month := Some(6), day := Some(23)))
  {
    var c := YearOnly(2015).(month := Some(6), day := Some(23));
    HourTwentyFourChars(s);
    HourTwentyFourDigits(s);
    CalendarPrefixRead(cfg, s, 2015, 6, 23);
    HourBeyondRange(cfg, s, 10, c, 24, 0, 0);
    ZoneZRead(s, c);
  }

  lemma HourTwentyFourDigits(s: seq<char>)
    requires |s| == 20
    requires s[0] == '2' && s[1] == '0' && s[2] == '1' && s[3] == '5' && s[4] == '-' && s[5] == '0' && s[6] == '6' && s[7] == '-' && s[8] == '2' && s[9] == '3'
    requires s[10] == 'T' && s[11] == '2' && s[12] == '4' && s[13] == ':' && s[14] == '0' && s[15] == '0' && s[16] == ':' && s[17] == '0' && s[18] == '0' && s[19] == 'Z'
    ensures CalendarDigits(s, 2015, 6, 23) && s[19] == 'Z'
    ensures s[10] == 'T' && s[11] != 'T' && DigitsAt(s, 11, 2, 24)
    ensures s[13] == ':' && DigitsAt(s, 14, 2, 0) && s[16] == ':' && DigitsAt(s, 17, 2, 0)
  {
    DigitsAtFour(s, 0);
    DigitsAtTwo(s, 5);
    DigitsAtTwo(s, 8);
    DigitsAtTwo(s, 11);
    DigitsAtTwo(s, 14);
    DigitsAtTwo(s, 17);
  }

  /** A `T`, an hour past 23 and the minutes and seconds: a time style keeps nothing, a date style reads on to the zone. */
  lemma HourBeyondRange(cfg: Config, s: seq<char>, k: nat, c: DateComponents, h: int, m: int, sec: int)
    requires k + 9 <= |s| && s[k] == 'T' && (k + 1 < |s| ==> s[k + 1] != 'T')
    requires DigitsAt(s, k + 1, 2, h) && s[k + 3] == ':' && DigitsAt(s, k + 4, 2, m) && s[k + 6] == ':' && DigitsAt(s, k + 7, 2, sec)
    requires h > 23
    ensures TimeStage(cfg, s, k, c) == if cfg.timeStyle == NoTime then ZoneStage(s, k + 9, c) else c
  {
    CharactersAtRun(s, k, 1, {'T'});
    IntegerAtDigits(s, k + 1, 2, h);
    MatchesOne(s, k + 3, ':');
    IntegerAtDigits(s, k + 4, 2, m);
    MatchesOne(s, k + 6, ':');
    IntegerAtDigits(s, k + 7, 2, sec);
  }

  /** A `Z` in either case anywhere after the time means UTC, even after an offset. */
  lemma ZuluAfterOffset(c: DateComponents)
    ensures ZoneStage("+05:00Z", 0, c) == c.(timeZone := Some(0))
    ensures ZoneStage("z", 0, c) == c.(timeZone := Some(0))
  {
    ZuluFound("+05:00Z", 0, 6, c);
    ZuluFound("z", 0, 0, c);
  }

  /** `+hh:mm` and `-hh:mm`. */
  lemma OffsetExtendedForm(c: DateComponents)
    ensures ZoneStage("+05:30", 0, c) == c.(timeZone := Some(19800))
  {
    HalfHourRead("+05:30", c);
  }

  lemma HalfHourRead(s: seq<char>, c: DateComponents)
    requires s == "+05:30"
    ensures ZoneStage(s, 0, c) == c.(timeZone := Some(19800))
  {
    NoLetterZ(s, 0);
    DigitsAtTwo(s, 1);
    DigitsAtTwo(s, 4);
    ExtendedOffsetRead(s, 0, 1, 2, 5, 30, c);
    assert s[0..1] == "+";
  }

  lemma NegativeOffsetExtendedForm(c: DateComponents)
    ensures ZoneStage("-05:00", 0, c) == c.(timeZone := Some(-18000))
  {
    FiveHoursRead("-05:00", c);
  }

  /** `-05:00` or `+05:00`, both read as five hours. */
  lemma FiveHoursRead(s: seq<char>, c: DateComponents)
    requires s == "-05:00" || s == "+05:00"
    ensures ZoneStage(s, 0, c) == c.(timeZone := Some(OffsetSeconds(s[0..1], 5, 0)))
  {
    NoLetterZ(s, 0);
    DigitsAtTwo(s, 1);
    DigitsAtTwo(s, 4);
    ExtendedOffsetRead(s, 0, 1, 2, 5, 0, c);
  }

  /** Without a `:`, `hhmm` is split into hours and minutes. */
  lemma OffsetBasicForm(c: DateComponents)
    ensures ZoneStage("+0530", 0, c) == c.(timeZone := Some(19800))
  {
    BasicFormRead("+0530", c);
  }

  lemma NegativeOffsetBasicForm(c: DateComponents)
    ensures ZoneStage("-0530", 0, c) == c.(timeZone := Some(-19800))
  {
    BasicFormRead("-0530", c);
  }

  /** `+0530` or `-0530`, both read as five and a half hours. */
  lemma BasicFormRead(s: seq<char>, c: DateComponents)
    requires s == "+0530" || s == "-0530"
    ensures ZoneStage(s, 0, c) == c.(timeZone := Some(if s[0] == '-' then -19800 else 19800))
  {
    assert s[0..1] == [s[0]];
    NoLetterZ(s, 0);
    DigitsAtFour(s, 1);
    PackedOffsetRead(s, 0, 1, 4, 530, c);
  }

  /** Any hour field above 14 is split the same way: `+15` is 15 minutes. */
  lemma FifteenHoursAreMinutes(c: DateComponents)
    ensures ZoneStage("+15", 0, c) == c.(timeZone := Some(900))
  {
    FifteenRead("+15", c);
  }

  lemma FifteenRead(s: seq<char>, c: DateComponents)
    requires s == "+15"
    ensures ZoneStage(s, 0, c) == c.(timeZone := Some(900))
  {
    NoLetterZ(s, 0);
    DigitsAtTwo(s, 1);
    PackedOffsetRead(s, 0, 1, 2, 15, c);
    assert s[0..1] == "+";
  }

  /** Hours alone, 14 or less: the minutes default to 0. */
  lemma OffsetHoursAlone(c: DateComponents)
    ensures ZoneStage("+05", 0, c) == c.(timeZone := Some(18000))
  {
    HoursAloneRead("+05", c);
  }

  lemma HoursAloneRead(s: seq<char>, c: DateComponents)
    requires s == "+05"
    ensures ZoneStage(s, 0, c) == c.(timeZone := Some(18000))
  {
    NoLetterZ(s, 0);
    DigitsAtTwo(s, 1);
    HoursOffsetRead(s, 0, 1, 2, 5, c);
    assert s[0..1] == "+";
  }

  /** The run of signs `--` is not `-`: the offset comes out positive. */
  lemma DoubleMinusIsPositive(c: DateComponents)
    ensures ZoneStage("--5:00", 0, c) == c.(timeZone := Some(18000))
  {
    DoubleMinusRead("--5:00", c);
  }

  lemma DoubleMinusRead(s: seq<char>, c: DateComponents)
    requires s == "--5:00"
    ensures ZoneStage(s, 0, c) == c.(timeZone := Some(18000))
  {
    NoLetterZ(s, 0);
    DigitsAtOne(s, 2);
    DigitsAtTwo(s, 4);
    ExtendedOffsetRead(s, 0, 2, 1, 5, 0, c);
    assert s[0..2] == "--";
  }

  /** Without a second `:` the scan goes back and reads the zone from where the minutes ended. */
  lemma SecondsOptional(cfg: Config, c: DateComponents)
    ensures SecondStage(cfg, "+05:00", 0, c) == c.(timeZone := Some(18000))
  {
    var s := "+05:00";
    MatchesOne(s, 0, ':');
    FiveHoursRead(s, c);
    assert s[0..1] == "+";
  }

  /**
    A year alone parses only where every insertion fits in four characters:
    not under the short calendar or week styles, a short time style, or a
    long time style with a short zone.
   */
  lemma YearAlone(cfg: Config)
    ensures Fits("2015", Insertions(cfg)) <==>
      && cfg.dateStyle != CalendarShort && cfg.dateStyle != WeekShort
      && (cfg.timeStyle == NoTime || (cfg.timeStyle == LongTime && cfg.timeZoneStyle != ShortZone))
    ensures Fits("2015", Insertions(cfg)) ==> Parse(cfg, "2015") == Some(YearOnly(2015))
  {
    YearAloneFits(cfg);
    if Fits("2015", Insertions(cfg)) {
      YearAloneReads(cfg);
    }
  }

  lemma YearAloneFits(cfg: Config)
    ensures Fits("2015", Insertions(cfg)) <==>
      && cfg.dateStyle != CalendarShort && cfg.dateStyle != WeekShort
      && (cfg.timeStyle == NoTime || (cfg.timeStyle == LongTime && cfg.timeZoneStyle != ShortZone))
  {
    InsertionsDescend(cfg);
    FitsWhenFirstFits("2015", Insertions(cfg));
  }

  lemma YearAloneReads(cfg: Config)
    requires Fits("2015", Insertions(cfg))
    ensures Parse(cfg, "2015") == Some(YearOnly(2015))
  {
    var e := BasicToExtended(cfg, "2015");
    YearAloneRewrite(cfg);
    YearTextRead(cfg, e);
  }

  /** The rewrite leaves `2015` alone, except that the short ordinal style appends the `-` it inserts at 4. */
  lemma YearAloneRewrite(cfg: Config)
    requires Fits("2015", Insertions(cfg))
    ensures var e := BasicToExtended(cfg, "2015");
      |e| >= 4 && e[0] == '2' && e[1] == '0' && e[2] == '1' && e[3] == '5' && (|e| == 4 || (|e| == 5 && e[4] == '-'))
  {
    assert |"2015"| == 4;
    var e := BasicToExtended(cfg, "2015");
    IdentityCases(cfg);
    assert e == "2015" || (cfg.dateStyle == OrdinalShort && e == "2015-") by {
      if cfg.dateStyle == OrdinalShort {
        ApplyConcat("2015", TimeInsertions(cfg, 10), [Insertion(4, '-')]);
        ApplyOne("2015", Insertion(4, '-'));
      }
    }
  }

  /** Four year digits, alone or followed by a `-` and nothing else. */
  lemma YearTextRead(cfg: Config, e: seq<char>)
    requires |e| >= 4 && e[0] == '2' && e[1] == '0' && e[2] == '1' && e[3] == '5' && (|e| == 4 || (|e| == 5 && e[4] == '-'))
    ensures ParseExtended(cfg, e) == Some(YearOnly(2015))
  {
    DigitsAtFour(e, 0);
    YearRead(cfg, e, 2015);
    MatchesOne(e, 4, '-');
    if |e| == 5 {
      IntegerAtNothing(e, 5);
    }
  }

  // ---------------------------------------------------------------------------
  // The scan as the formatter performs it: one method, split at the stage
  // boundaries, each part carrying on with the next from where it stopped

  method DateFromString(cfg: Config, text: seq<char>) returns (r: Option<DateComponents>)
    requires Fits(text, Insertions(cfg))
    ensures r == Parse(cfg, text)
  {
    var str := ConvertBasicToExtended(cfg, text);
    var scanner := new Scanner(str);

    // Year
    var found, year := scanner.ScanInteger();
    if !found || year < 0 || year > 9999 {
      return None;
    }
    var comps := ScanMonthOrWeek(cfg, scanner, YearOnly(year));
    return Some(comps);
  }

  method ScanMonthOrWeek(cfg: Config, scanner: Scanner, c: DateComponents) returns (r: DateComponents)
    requires scanner.Valid()
    modifies scanner
    ensures r == MonthOrWeek(cfg, scanner.text, old(scanner.pos), c)
    ensures scanner.Valid() && old(scanner.pos) <= scanner.pos
  {
    var found := scanner.ScanString("-");
    if !found {
      return c;
    }
    var month, ordinalDay := 0, 0;
    var comps := c;
    if cfg.dateStyle.IsCalendar() {
      found, month := scanner.ScanInteger();
      if !found {
        return c;
      }
      comps := comps.(month := Some(month));
    } else if cfg.dateStyle.IsOrdinal() {
      found, ordinalDay := scanner.ScanInteger();
      if !found {
        return c;
      }
      month := DeriveMonth(DaysTable(c.year), ordinalDay);
      comps := comps.(month := Some(month));
    } else {
      found := scanner.ScanString("W");
      if !found {
        return c;
      }
      var week;
      found, week := scanner.ScanInteger();
      if !found || week < 0 || week > 53 {
        return c;
      }
      comps := comps.(weekOfYear := Some(week));
    }
    r := ScanDayOrWeekday(cfg, scanner, comps, ordinalDay);
  }

  method ScanDayOrWeekday(cfg: Config, scanner: Scanner, c: DateComponents, ordinalDay: int) returns (r: DateComponents)
    requires scanner.Valid()
    modifies scanner
    ensures r == DayOrWeekday(cfg, scanner.text, old(scanner.pos), c, ordinalDay)
    ensures scanner.Valid() && old(scanner.pos) <= scanner.pos
  {
    var comps := c;
    if cfg.dateStyle.IsOrdinal() {
      var theDay := DeriveDay(DaysTable(c.year), ordinalDay);
      comps := comps.(day := Some(theDay));
    } else {
      var found := scanner.ScanString("-");
      if !found {
        return c;
      }
      var day;
      found, day := scanner.ScanInteger();
      if !found {
        return c;
      }
      if cfg.dateStyle.IsCalendar() {
        comps := comps.(day := Some(day));
      } else if day < 0 || day > 7 {
        return c;
      } else {
        comps := comps.(weekday := Some(day));
      }
    }
    r := ScanTime(cfg, scanner, comps);
  }

  method ScanTime(cfg: Config, scanner: Scanner, c: DateComponents) returns (r: DateComponents)
    requires scanner.Valid()
    modifies scanner
    ensures r == TimeStage(cfg, scanner.text, old(scanner.pos), c)
    ensures scanner.Valid() && old(scanner.pos) <= scanner.pos
  {
    var found, run := scanner.ScanCharactersFromSet({'T'});
    if !found {
      return c;
    }
    var hour;
    found, hour := scanner.ScanInteger();
    if !found {
      return c;
    }
    var comps := c;
    if cfg.timeStyle != NoTime {
      if hour < 0 || hour > 23 {
        return c;
      }
      comps := comps.(hour := Some(hour));
    }
    r := ScanMinute(cfg, scanner, comps);
  }

  method ScanMinute(cfg: Config, scanner: Scanner, c: DateComponents) returns (r: DateComponents)
    requires scanner.Valid()
    modifies scanner
    ensures r == MinuteStage(cfg, scanner.text, old(scanner.pos), c)
    ensures scanner.Valid() && old(scanner.pos) <= scanner.pos
  {
    var found := scanner.ScanString(":");
    if !found {
      return c;
    }
    var minute;
    found, minute := scanner.ScanInteger();
    if !found {
      return c;
    }
    var comps := c;
    if cfg.timeStyle != NoTime {
      if minute < 0 || minute > 59 {
        return c;
      }
      comps := comps.(minute := Some(minute));
    }
    r := ScanSecond(cfg, scanner, comps);
  }

  method ScanSecond(cfg: Config, scanner: Scanner, c: DateComponents) returns (r: DateComponents)
    requires scanner.Valid()
    modifies scanner
    ensures r == SecondStage(cfg, scanner.text, old(scanner.pos), c)
    ensures scanner.Valid() && old(scanner.pos) <= scanner.pos
  {
    var comps := c;
    var scannerLocation := scanner.pos;
    var found := scanner.ScanString(":");
    if found {
      var second;
      found, second := scanner.ScanInteger();
      if !found {
        return c;
      }
      if cfg.timeStyle != NoTime {
        if second < 0 || second > 59 {
          return c;
        }
        comps := comps.(second := Some(second));
      }
    } else {
      scanner.pos := scannerLocation;
    }
    r := ScanZone(scanner, comps);
  }

  method ScanZone(scanner: Scanner, c: DateComponents) returns (r: DateComponents)
    requires scanner.Valid()
    modifies scanner
    ensures r == ZoneStage(scanner.text, old(scanner.pos), c)
    ensures scanner.Valid() && old(scanner.pos) <= scanner.pos
  {
    // Zulu
    var scannerLocation := scanner.pos;
    var found := scanner.ScanUpToString("Z");
    found := scanner.ScanString("Z");
    if found {
      return c.(timeZone := Some(0));
    }

    // Back to the end of the time, then look for an offset
    scanner.pos := scannerLocation;
    r := ScanOffset(scanner, c);
  }

  method ScanOffset(scanner: Scanner, c: DateComponents) returns (r: DateComponents)
    requires scanner.Valid()
    modifies scanner
    ensures r == OffsetStage(scanner.text, old(scanner.pos), c)
    ensures scanner.Valid() && old(scanner.pos) <= scanner.pos
  {
    var found := scanner.ScanUpToCharactersFromSet(SIGNS);
    var sign;
    found, sign := scanner.ScanCharactersFromSet(SIGNS);
    if !found {
      return c;
    }
    var offsetHour, offsetMinute := 0, 0;
    found, offsetHour := scanner.ScanInteger();
    if !found {
      return c;
    }
    var colonExists := scanner.ScanString(":");
    if !colonExists && offsetHour > 14 {
      offsetMinute := offsetHour % 100;
      offsetHour := offsetHour / 100;
    } else {
      var minuteFound, value := scanner.ScanInteger();
      if minuteFound {
        offsetMinute := value;
      }
    }
    r := c.(timeZone := Some(OffsetSeconds(sign, offsetHour, offsetMinute)));
  }
}
