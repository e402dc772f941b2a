# ISO8601Formatter in Dafny

A model of `ISO8601Formatter`, a Foundation `NSFormatter` subclass that
converts between decomposed date-times and ISO 8601 strings. It covers
calendar, ordinal and week dates (sections 4.1.2, 4.1.3 and 4.1.4 of
ISO 8601:2004), the time of day and the UTC and offset designators
(sections 4.2.4 and 4.2.5). Three style settings, for the date, the time and the zone, drive both directions.

The model has these modules:

- `Styles`: the style enumerations and the configuration.
- `Decimal`: printf-style `%0Ni` rendering, and the value of a run of digits.
- `Formatter`: `stringFromDate` as a pure function of the date components
  and the configuration.
- `OrdinalDates`: the two cumulative day tables and the inline leap rule.
  It also holds the two `for startDay in daysArray` loops as methods, each
  proved against a specification function.
- `Scanning`: the NSScanner primitives. Each is a pure function of the
  text and a position. A `Scanner` class holds the text and the moving
  `scanLocation`.
- `ExtendedForm`: `convertBasicToExtended` and `checkAndUpdateTimeZone`.
  They are methods on a `MutableString` class that insert separators in
  place. They are proved equal to applying a list of insertions.
- `Parser`: `dateFromString`. It is a chain of pure stage functions, one per
  field, which specify the fail-soft scan. `DateFromString` is the
  imperative scan, split into one method per stage, and is proved to compute
  that chain. Its result is the record of date components the scan fills in.
- `RoundTrip`: formatting and then parsing under the same configuration
  gives back the printed components. Under the ordinal styles, it gives back
  the month and day the code derives from the printed day of the year, which
  are 0 and 0 from 30 November on. This module also shows, with concrete
  dates, where the round trip fails.

Behaviour of the code that the model keeps:

- The year is the only field whose absence gives no result. After the year,
  the first piece that is missing or out of range ends the scan, and the
  fields read so far are returned.
- Calendar months and days are stored unchecked.
- Hour, minute and second are stored only under a time style.
- A `Z` in either case anywhere after the time means UTC.
- An offset field above 14 with no `:` after it is read as `hhmm`.
- An offset is negative only when the run of signs is exactly `-`.
- A negative offset prints its own minus sign after the explicit sign, so
  five hours west is `--5:00`. That string reads back as five hours east.
- The short time style prints `hh:mm:ss` and then inserts two more colons
  before parsing. The minute is lost.
- An ordinal day from the last table entry on (30 November on) gives month
  0 and day 0. The last day of a month comes out as day 0 of the next.
- NSScanner's `scanString` and `scanUpToString` ignore case, as NSScanner
  does by default. This is modelled as ASCII case folding. Character-set
  scans compare exactly.

The string `2015` alone parses only when every insertion of the rewrite to
the extended format fits in four characters. The rewrite inserts separators
at fixed positions before the scan, and `insertString` raises when a
position is past the end of the string. That rules out the short calendar and
week styles, the short time style, and the long time style with the short
zone style. `Parser.YearAlone` states exactly when it fits.

## Model

| member | source | states |
|---|---|---|
| Decimal.FormatInt | ISO8601/ISO8601.swift:90-126 | `%0Ni`: a non-negative number renders as digits whose value is the number, at least N wide and exactly N when it fits. A negative one renders as `-` then the digits of its magnitude, exactly N wide when the magnitude fits in N-1 digits. A rendering wider than N has no leading zero. |
| Decimal.FormatIntCharacters | ISO8601/ISO8601.swift:90-126 | Every character of a `%0Ni` rendering is a digit or `-`. |
| Formatter.StringFromDate | ISO8601/ISO8601.swift:78-155 | Definition of `stringFromDate` on the decomposed components: no result outside years 0..9999, otherwise year, date, time and zone segments. Its properties are the `Formatter` lemmas below and `RoundTrip.RoundTrip`. |
| Formatter.DateSegment | ISO8601/ISO8601.swift:98-119 | Definition of the date segment per style. Its properties are `CalendarSegmentLayout`, `OrdinalSegmentLayout`, `WeekSegmentLayout` and `DateSegmentCharacters`. |
| Formatter.TimeSegment | ISO8601/ISO8601.swift:121-129 | Definition of `T%02i:%02i:%02i`. Its properties are `TimeStylesAgree` and `TimeSegmentLayout`. |
| Formatter.OffsetSegment | ISO8601/ISO8601.swift:138-146 | Definition of the numeric offset text. Its properties are `OffsetSegmentFields` and `ZoneOffset`. |
| Formatter.ZoneSegment | ISO8601/ISO8601.swift:132-152 | Definition of the zone designator. Its properties are `ZoneAbsent`, `ZoneUtc`, `ZoneOffset` and `ZoneAppended`. |
| Formatter.IsoWeekday | ISO8601/ISO8601.swift:108-118 | A Sunday-first weekday 1..7 maps to 1..7 and names the same day. Sunday (1) becomes 7. |
| Formatter.OffsetHours | ISO8601/ISO8601.swift:139 | Whole hours of an offset, truncated toward zero. A non-negative offset lies within the hour it names. |
| Formatter.YearSegment | ISO8601/ISO8601.swift:86-96 | No result exactly when the year is outside 0..9999. Otherwise the result opens with four digits spelling the year, or the year minus one under a week style in ISO week 53. |
| Formatter.YearZeroInWeekFiftyThree | ISO8601/ISO8601.swift:93-95 | Year 0 in ISO week 53 under a week style prints `-001`. |
| Formatter.CalendarSegmentLayout | ISO8601/ISO8601.swift:99-102 | Calendar styles give `YYYY-MM-DD` or `YYYYMMDD`: the length, the separators, and the month and day digits. |
| Formatter.OrdinalSegmentLayout | ISO8601/ISO8601.swift:103-106 | Ordinal styles give `YYYY-DDD` or `YYYYDDD`, with the day of the year in three digits. |
| Formatter.WeekSegmentLayout | ISO8601/ISO8601.swift:107-118 | Week styles give `YYYY-Www-D` with the ISO week, or `YYYYWwwD` with the calendar week. The weekday digit is the Monday-first weekday. |
| Formatter.TimeStylesAgree | ISO8601/ISO8601.swift:122-126 | The long and the short time styles print the same string. |
| Formatter.DateOnlyCharacters | ISO8601/ISO8601.swift:127-128 | Without a time style the result holds only digits, `-` and `W`: no `T` and no zone. |
| Formatter.DateSegmentCharacters | ISO8601/ISO8601.swift:98-119 | Every date segment holds only digits, `-` and `W`. |
| Formatter.TimeSegmentLayout | ISO8601/ISO8601.swift:121-130 | Under a time style, the date-only rendering is followed by `Thh:mm:ss`, with each field in two digits. |
| Formatter.ZoneAppended | ISO8601/ISO8601.swift:130-152 | Under a time style, the rendering is the rendering with no zone followed by the zone segment. |
| Formatter.ZoneAbsent | ISO8601/ISO8601.swift:132-149 | With no zone in the components, or the zone style None, nothing follows the time. |
| Formatter.ZoneUtc | ISO8601/ISO8601.swift:135-136 | The UTC style appends `Z` whatever the offset. |
| Formatter.ZoneOffset | ISO8601/ISO8601.swift:138-146 | The offset styles append a sign, the hours in `%02i`, a `:` for the long style only, and minutes `00`. The sign is `+` exactly when the truncated hours are non-negative. |
| Formatter.OffsetSegmentFields | ISO8601/ISO8601.swift:138-146 | By position: the sign first. For whole hours 0..99, two digits spelling them. For -9..-1, a second `-` and one digit spelling the magnitude. For -99..-10, a second `-` and two digits spelling it. Then `:` exactly under the long style, and `00` last. |
| Formatter.WideWestHours | ISO8601/ISO8601.swift:139-143 | `%02i` of whole hours -99..-10 is a `-` and two digits spelling the magnitude, so the offset text shows two minus signs. |
| OrdinalDates.IsLeapYear | ISO8601/ISO8601.swift:197 | Definition of the inline Gregorian leap rule. Its property is `DaysTableIsCumulative`. |
| OrdinalDates.DaysTable | ISO8601/ISO8601.swift:45-46 | Definition of the table choice: `days366` in leap years, `days365` otherwise. Its properties are `DaysTableIsCumulative` and `TableEnds`. |
| OrdinalDates.OrdinalMonth | ISO8601/ISO8601.swift:202-210 | Definition of the month the first loop derives. Its properties are `DeriveMonth`, `OrdinalDerivation` and `OrdinalAsCalendarDate`. |
| OrdinalDates.OrdinalDay | ISO8601/ISO8601.swift:247-256 | Definition of the day the second loop derives. Its properties are `DeriveDay`, `OrdinalDerivation` and `OrdinalAsCalendarDate`. |
| OrdinalDates.DaysTableIsCumulative | ISO8601/ISO8601.swift:45-46 | The leap table is chosen exactly in leap years. Each entry is the number of days before its month. |
| OrdinalDates.FirstAbove | ISO8601/ISO8601.swift:203-209 | The index at which the scan stops: every earlier boundary is at most the day, and the one at the index exceeds it. |
| OrdinalDates.FirstAboveIs | ISO8601/ISO8601.swift:203-209 | When the entry at k is the first above the day, the scan stops at k. |
| OrdinalDates.DeriveMonth | ISO8601/ISO8601.swift:202-210 | The month loop computes the table month of the ordinal day. |
| OrdinalDates.DeriveDay | ISO8601/ISO8601.swift:247-256 | The day loop computes the day's distance from the last boundary below it. |
| OrdinalDates.OrdinalDerivation | ISO8601/ISO8601.swift:192-256 | Inside the table, the month m has table[m-1] <= n < table[m] and the day is n - table[m-1]. From the last boundary on, both are 0. A negative day gives month 0 and itself as the day. |
| OrdinalDates.TableEnds | ISO8601/ISO8601.swift:45-46 | Both tables have twelve entries, start at 0 and end at their largest entry. |
| OrdinalDates.DerivationOn | ISO8601/ISO8601.swift:192-256 | The derivation of month and day described for `OrdinalDerivation`, for any twelve boundaries that start at 0 and end at their largest. |
| OrdinalDates.OrdinalAsCalendarDate | ISO8601/ISO8601.swift:240-256 | Inside the table, the month is 1..11 and the day lies within that month. Day 0 is the last day of the month before. |
| OrdinalDates.OrdinalThirtyOne | ISO8601/ISO8601.swift:249-251 | Ordinal 31 gives month 2, day 0. |
| OrdinalDates.OrdinalSixtyOneInLeapYear | ISO8601/ISO8601.swift:197-198 | Ordinal 61 of 2016 is 1 March. |
| Scanning.IntegerAt | ISO8601/ISO8601.swift:169 | `scanInteger` consumes at least one character and stays inside the text. |
| Scanning.IntegerAtReads | ISO8601/ISO8601.swift:169 | `scanInteger` succeeds exactly when an optional sign is followed by a digit. It reads the whole run of digits, negated after `-`. |
| Scanning.IntegerAtDigits | ISO8601/ISO8601.swift:169 | A whole unsigned digit field reads as its value and stops right after it. |
| Scanning.DigitRunSpans | ISO8601/ISO8601.swift:169 | The digit run `scanInteger` consumes is all digits and ends at the end of the text or at a non-digit. |
| Scanning.CharacterRunSpans | ISO8601/ISO8601.swift:274 | A run of set characters holds only set characters and ends at the end or at a character outside the set. |
| Scanning.StringAt | ISO8601/ISO8601.swift:179 | `scanString` succeeds exactly when the text matches there ignoring case, and moves past it. |
| Scanning.CharactersAt | ISO8601/ISO8601.swift:274 | `scanCharactersFromSet` returns a non-empty slice of the text starting at the position, and the position after it. It fails exactly at the end or when the next character is not in the set. |
| Scanning.CharactersAtLongest | ISO8601/ISO8601.swift:274 | The run `scanCharactersFromSet` returns is the longest: every character is in the set, and the next one, if any, is not. |
| Scanning.UpToStringAt | ISO8601/ISO8601.swift:328 | `scanUpToString` never moves back and stays inside the text. |
| Scanning.UpToStringAtFirst | ISO8601/ISO8601.swift:328 | `scanUpToString` passes no match and, unless it reached the end, stops at one: the first match or the end. |
| Scanning.UpToCharactersAt | ISO8601/ISO8601.swift:340 | `scanUpToCharactersFromSet` never moves back and stays inside the text. |
| Scanning.UpToCharactersAtFirst | ISO8601/ISO8601.swift:340 | `scanUpToCharactersFromSet` passes no set character and, unless it reached the end, stops at one. |
| Scanning.Scanner.constructor | ISO8601/ISO8601.swift:162-163 | A new scanner starts at position 0 of its text. |
| Scanning.Scanner.ScanInteger | ISO8601/ISO8601.swift:169 | Reports `IntegerAt` and moves past the integer. The position does not move on failure. |
| Scanning.Scanner.ScanString | ISO8601/ISO8601.swift:179 | Reports `StringAt` and moves past the match. The position does not move on failure. |
| Scanning.Scanner.ScanCharactersFromSet | ISO8601/ISO8601.swift:342 | Returns the run `CharactersAt` finds and moves past it. |
| Scanning.Scanner.ScanUpToString | ISO8601/ISO8601.swift:328 | Moves to `UpToStringAt`. |
| Scanning.Scanner.ScanUpToCharactersFromSet | ISO8601/ISO8601.swift:340 | Moves to `UpToCharactersAt`. |
| ExtendedForm.ZoneInsertions | ISO8601/ISO8601.swift:371-377 | Definition of the zone colon insertion, present only under the short zone style. Its property is `CheckAndUpdateTimeZone`. |
| ExtendedForm.TimeInsertions | ISO8601/ISO8601.swift:380-390 | Definition of the time-style insertions, in the order the code makes them. Its property is `CheckAndUpdateTimeStyle`. |
| ExtendedForm.Insertions | ISO8601/ISO8601.swift:392-416 | Definition of the whole insertion list per date style. Its properties are `InsertionsDescend`, `FitsWhenFirstFits`, `MinimumLength` and `IdentityCases`. |
| ExtendedForm.BasicToExtended | ISO8601/ISO8601.swift:379-419 | Definition of the rewrite as the insertions applied in order. Its properties are `ConvertBasicToExtended`, `BasicToExtendedInsertsOnly` and `UnapplyApply`. |
| ExtendedForm.MutableString.InsertString | ISO8601/ISO8601.swift:373 | `insertString` puts the text at the index, which must be within the string. The characters around it are kept. |
| ExtendedForm.Inserted | ISO8601/ISO8601.swift:373 | One insertion adds one character, the separator, at its index. |
| ExtendedForm.CheckAndUpdateTimeZone | ISO8601/ISO8601.swift:371-377 | Inserts `:` at the index exactly under the short zone style. |
| ExtendedForm.CheckAndUpdateTimeStyle | ISO8601/ISO8601.swift:380-390 | Long time: the zone colon at index+9. Short time: the zone colon at index+7, then `:` at index+2 and at index. |
| ExtendedForm.ConvertBasicToExtended | ISO8601/ISO8601.swift:379-419 | The rewritten string is the input with the insertions the date style chooses applied in order. |
| ExtendedForm.InsertionsDescend | ISO8601/ISO8601.swift:392-416 | The insert positions strictly decrease, and every separator is `-` or `:`. |
| ExtendedForm.FitsWhenFirstFits | ISO8601/ISO8601.swift:392-416 | With decreasing positions, every insertion is within the string exactly when the first one is. |
| ExtendedForm.MinimumLength | ISO8601/ISO8601.swift:392-416 | The rewrite does not raise exactly for strings at least as long as its highest insert position. |
| ExtendedForm.ApplyLength | ISO8601/ISO8601.swift:379-419 | Each insertion lengthens the string by one. |
| ExtendedForm.UnapplyApply | ISO8601/ISO8601.swift:379-419 | Deleting the inserted separators, last first, gives back the input. |
| ExtendedForm.BasicToExtendedInsertsOnly | ISO8601/ISO8601.swift:379-419 | The output is longer by the number of separators, and removing them restores the input. |
| ExtendedForm.IdentityCases | ISO8601/ISO8601.swift:379-419 | The rewrite changes nothing exactly for a long date style with no time, or with the long time style and any zone style but the short one. |
| ExtendedForm.CalendarShortTimeShortExample | ISO8601/ISO8601.swift:397-400 | The short calendar and time styles turn `YYYYMMDDThhmmss` into `YYYY-MM-DDThh:mm:ss`. |
| Parser.Parse | ISO8601/ISO8601.swift:157-367 | Definition of `dateFromString`: the rewrite, then the scan of the extended text. Its properties are `ParseWellFormed`, `DateFromString`, `YearAlone` and `RoundTrip.RoundTrip`. |
| Parser.ParseExtended | ISO8601/ISO8601.swift:162-367 | Definition of the scan of the extended text as the chain of stage functions, starting with the year. Its properties are `ParseYear` and the `Read` lemmas below. |
| Parser.OffsetAfterSign | ISO8601/ISO8601.swift:346-364 | Definition of the offset read after the sign run. Its properties are `OffsetWithColon`, `OffsetPacked`, `OffsetHoursOnly` and `OffsetSign`. |
| Parser.MonthOrWeek | ISO8601/ISO8601.swift:178-225 | The month-or-week stage keeps the year and touches no field before it. |
| Parser.DayOrWeekday | ISO8601/ISO8601.swift:227-271 | The day stage keeps the year, month and week. |
| Parser.TimeStage | ISO8601/ISO8601.swift:273-289 | The time stage keeps every date field. |
| Parser.MinuteStage | ISO8601/ISO8601.swift:291-306 | The minute stage changes only the minute, second and zone. |
| Parser.SecondStage | ISO8601/ISO8601.swift:308-324 | The second stage changes only the second and zone. |
| Parser.ZoneStage | ISO8601/ISO8601.swift:326-336 | The zone stage changes only the zone. |
| Parser.OffsetStage | ISO8601/ISO8601.swift:338-366 | The offset stage changes only the zone. |
| Parser.ParseYear | ISO8601/ISO8601.swift:168-181 | There is a result exactly when the text opens with an integer in 0..9999. The result carries that year, and only the year when no `-` follows it. |
| Parser.ParseWellFormed | ISO8601/ISO8601.swift:157-367 | Every result keeps the range checks: week 0..53, weekday 0..7, hour 0..23, minute and second 0..59. It sets only its style's date fields, and time fields only under a time style. It sets fields in scan order. |
| Parser.DateStagesWellFormed | ISO8601/ISO8601.swift:178-225 | The scan after the year gives a well-formed result. |
| Parser.DayStageWellFormed | ISO8601/ISO8601.swift:227-271 | The scan from the day stage on gives a well-formed result. |
| Parser.TimeStageWellFormed | ISO8601/ISO8601.swift:273-289 | The scan from the time stage on gives a well-formed result. |
| Parser.MinuteStageWellFormed | ISO8601/ISO8601.swift:291-306 | The scan from the minute stage on gives a well-formed result. |
| Parser.SecondStageWellFormed | ISO8601/ISO8601.swift:308-324 | The scan from the second stage on gives a well-formed result. |
| Parser.ZoneStageWellFormed | ISO8601/ISO8601.swift:326-366 | The zone stage keeps a result well-formed. |
| Parser.ZuluAnywhere | ISO8601/ISO8601.swift:326-336 | A `Z` in either case anywhere from the end of the time on gives offset 0. With none, the offset is read from the end of the time. |
| Parser.ZuluFound | ISO8601/ISO8601.swift:326-333 | A `Z` in either case at or after the position gives offset 0. |
| Parser.ZuluAbsent | ISO8601/ISO8601.swift:326-336 | With no `Z` in either case from the position on, the scan goes back to the position and looks for an offset. |
| Parser.SignRunRead | ISO8601/ISO8601.swift:335-344 | With no `Z`, the scan skips to the first sign, takes the whole run of signs, and reads the offset after it. |
| Parser.SignRunOffset | ISO8601/ISO8601.swift:338-344 | The offset scan skips to the first sign and takes the whole run of signs. |
| Parser.ExtendedOffsetRead | ISO8601/ISO8601.swift:338-364 | Signs, an hour field, `:` and two minute digits give the signed offset of those hours and minutes. |
| Parser.PackedOffsetRead | ISO8601/ISO8601.swift:338-364 | Signs and a final field above 14 give hours v/100 and minutes v%100, with the sign rule. |
| Parser.HoursOffsetRead | ISO8601/ISO8601.swift:338-364 | Signs and a final field of at most 14 give that many hours and no minutes, with the sign rule. |
| Parser.OffsetWithColon | ISO8601/ISO8601.swift:354-364 | With a `:` after the hours, the minutes are the integer after the colon, or 0 when there is none. |
| Parser.OffsetPacked | ISO8601/ISO8601.swift:355-358 | With no `:` and more than 14 in the hour field, the hours are v/100 and the minutes v%100. |
| Parser.OffsetHoursOnly | ISO8601/ISO8601.swift:359-361 | With no `:` and at most 14, the field is the hours, and an integer right after it, if any, is the minutes. |
| Parser.OffsetSign | ISO8601/ISO8601.swift:363-364 | The offset is -(3600h + 60m) exactly when the sign run is `-`, and +(3600h + 60m) for any other run. |
| Parser.YearRead | ISO8601/ISO8601.swift:168-176 | A four-digit year in range is read and the scan moves on to the month or week. |
| Parser.CalendarPrefixRead | ISO8601/ISO8601.swift:167-276 | Under a calendar style, `YYYY-MM-DD` stores the year, month and day and goes on to the time at position 10. |
| Parser.HourRead | ISO8601/ISO8601.swift:273-289 | `T` and an hour 0..23 in two digits store the hour under a time style only, and go on to the minute. |
| Parser.FieldRead | ISO8601/ISO8601.swift:291-306 | `:` and a minute 0..59 in two digits store the minute under a time style only, and go on to the second. |
| Parser.SecondRead | ISO8601/ISO8601.swift:308-324 | `:` and a second 0..59 in two digits store the second under a time style only, and go on to the zone. |
| Parser.CalendarDateRead | ISO8601/ISO8601.swift:186-238 | `-MM-DD` stores the month and the day as read. |
| Parser.OrdinalDateRead | ISO8601/ISO8601.swift:192-256 | `-DDD` stores the month and the day derived from the year's table. |
| Parser.WeekDateRead | ISO8601/ISO8601.swift:212-270 | `-Www-D` stores the week and the weekday when both are in range. |
| Parser.EndRead | ISO8601/ISO8601.swift:273-276 | Nothing after the date leaves the date fields as the result. |
| Parser.TimeRead | ISO8601/ISO8601.swift:273-321 | `Thh:mm:ss` stores the three fields under a time style and none without one. The scan goes on to the zone. |
| Parser.ZoneEndRead | ISO8601/ISO8601.swift:326-344 | Nothing after the time: no zone. |
| Parser.ZoneZRead | ISO8601/ISO8601.swift:326-333 | A final `Z` gives offset 0. |
| Parser.ZoneOffsetRead | ISO8601/ISO8601.swift:338-364 | A final `+hh:00` gives 3600·hh seconds. |
| Parser.MonthAndDayUnchecked | ISO8601/ISO8601.swift:186-238 | `2015-13-45` parses to month 13, day 45. |
| Parser.WeekOutOfRange | ISO8601/ISO8601.swift:221-223 | `2015-W54-1` keeps only the year. |
| Parser.WeekBeyondRange | ISO8601/ISO8601.swift:212-223 | Under a week style, a week above 53 ends the scan with the fields read before it. |
| Parser.HourOutOfRange | ISO8601/ISO8601.swift:279-289 | Hour 24 ends the scan under a time style. Without one, the hour is not checked and the `Z` after it is still read. |
| Parser.HourBeyondRange | ISO8601/ISO8601.swift:278-324 | An hour above 23 ends the scan under a time style. Without one, the minute and second are skipped unchecked and the zone is read. |
| Parser.ZuluAfterOffset | ISO8601/ISO8601.swift:326-333 | `+05:00Z` and a lower-case `z` both mean UTC. |
| Parser.OffsetExtendedForm | ISO8601/ISO8601.swift:354-364 | `+05:30` is 19800 seconds. |
| Parser.NegativeOffsetExtendedForm | ISO8601/ISO8601.swift:354-364 | `-05:00` is -18000 seconds. |
| Parser.OffsetBasicForm | ISO8601/ISO8601.swift:355-364 | `+0530` is 19800 seconds. |
| Parser.NegativeOffsetBasicForm | ISO8601/ISO8601.swift:355-364 | `-0530` is -19800 seconds. |
| Parser.FifteenHoursAreMinutes | ISO8601/ISO8601.swift:356-358 | `+15` is read as 0 hours 15 minutes, 900 seconds. |
| Parser.OffsetHoursAlone | ISO8601/ISO8601.swift:359-363 | `+05` is five hours. |
| Parser.DoubleMinusIsPositive | ISO8601/ISO8601.swift:342-364 | The sign run `--` gives a positive offset: `--5:00` is +18000. |
| Parser.SecondsOptional | ISO8601/ISO8601.swift:309-324 | Without `:ss`, the zone is read from where the minutes ended. |
| Parser.YearAlone | ISO8601/ISO8601.swift:157-181 | `2015` fits the rewrite exactly when no short date style, short time style, or long time with short zone style is set. When it fits, it parses to the year alone. |
| Parser.YearAloneFits | ISO8601/ISO8601.swift:379-419 | The rewrite of `2015` fits exactly when no short date style, no short time style, and no long time with short zone style is set. |
| Parser.YearAloneReads | ISO8601/ISO8601.swift:157-181 | When the rewrite of `2015` fits, `2015` parses to the year alone. |
| Parser.YearTextRead | ISO8601/ISO8601.swift:167-181 | `2015` or `2015-` with nothing after reads as the year alone. |
| Parser.DateFromString | ISO8601/ISO8601.swift:157-367 | The imperative scan returns what the stage functions specify. |
| Parser.ScanMonthOrWeek | ISO8601/ISO8601.swift:178-225 | The month or week scan, including the ordinal month loop, computes `MonthOrWeek` from the scanner's position. |
| Parser.ScanDayOrWeekday | ISO8601/ISO8601.swift:227-271 | The day scan, including the ordinal day loop, computes `DayOrWeekday`. |
| Parser.ScanTime | ISO8601/ISO8601.swift:273-289 | The time scan computes `TimeStage`. |
| Parser.ScanMinute | ISO8601/ISO8601.swift:291-306 | The minute scan computes `MinuteStage`. |
| Parser.ScanSecond | ISO8601/ISO8601.swift:308-324 | The second scan saves and restores the position, and computes `SecondStage`. |
| Parser.ScanZone | ISO8601/ISO8601.swift:326-336 | The `Z` search saves and restores the position, and computes `ZoneStage`. |
| Parser.ScanOffset | ISO8601/ISO8601.swift:338-366 | The offset scan computes `OffsetStage`. |
| RoundTrip.Rewrite | ISO8601/ISO8601.swift:379-419 | A printed date fits the rewrite, and the rewrite yields its extended form. |
| RoundTrip.DateSegmentWidth | ISO8601/ISO8601.swift:98-119 | For fields within their widths, each date style prints a date segment of a fixed width. |
| RoundTrip.DateRead | ISO8601/ISO8601.swift:168-271 | The extended date reads back as the year printed and the style's date fields. |
| RoundTrip.TimeZoneRead | ISO8601/ISO8601.swift:273-366 | The extended time reads back as the printed hour, minute and second. The zone reads back as UTC 0 or as the whole-hour offset. |
| RoundTrip.ZoneRead | ISO8601/ISO8601.swift:132-149 | The zone segment does not start with a digit, and reads back as UTC 0, the whole-hour offset, or nothing. |
| RoundTrip.ExtendedRead | ISO8601/ISO8601.swift:157-367 | The extended form of a printable date reads back as the printed components. |
| RoundTrip.RoundTrip | ISO8601/ISO8601.swift:78-367 | For every printable date and configuration, parsing the printed string gives back the printed components. Under the ordinal styles these are the month and day derived from the printed day of the year, not that day. |
| RoundTrip.LateOrdinalLost | ISO8601/ISO8601.swift:192-256 | Under the ordinal styles, a printed day of the year from the last table entry on reads back as month 0, day 0. |
| RoundTrip.ChristmasOrdinal | ISO8601/ISO8601.swift:192-256 | Day 359 of 2015 (25 December) under the long ordinal style reads back as month 0, day 0. |
| RoundTrip.ShortTimeDoesNotReadBack | ISO8601/ISO8601.swift:383-386 | Under the short time style, `2015-06-23T12:34:56` becomes `2015-06-23T12::3:4:56` and reads back with the hour only. |
| RoundTrip.ShortTimeRead | ISO8601/ISO8601.swift:273-306 | `2015-06-23T12::3:4:56` reads as the date and the hour only: the second colon gives no minute. |
| RoundTrip.NegativeOffsetFlips | ISO8601/ISO8601.swift:139-143 | An offset of -5 hours prints as `--5:00` and reads back as +18000. |
| RoundTrip.WestZone | ISO8601/ISO8601.swift:139-143 | Five hours west prints as `--5:00` in the long zone style. |
| RoundTrip.SamplePrinted | ISO8601/ISO8601.swift:78-154 | The sample prints as `2015-06-23T12:34:56`, followed by `--5:00` with the five-hours-west zone. |
| RoundTrip.NegativeSampleParse | ISO8601/ISO8601.swift:157-367 | `2015-06-23T12:34:56--5:00` parses to the sample's fields with offset +18000. |
| RoundTrip.NegativeSampleRead | ISO8601/ISO8601.swift:167-367 | Any text with the sample's date and time fields and a `--5:00` tail reads back with offset +18000. |
| RoundTrip.ShortZoneNeedsOffset | ISO8601/ISO8601.swift:382 | Long time, short zone style and no zone: the zone colon would go three characters past the end, so the rewrite raises. |

## Left out

- The NSCalendar, NSDate and NSDateFormatter decomposition (lines 79-83 and 432-447) is a foreign call. The components it produces are the inputs of `Formatter.StringFromDate`: year, month, day, weekday, day of year, ISO week, calendar week, time and an optional offset. The ISO week drives both the year shift and the long week style. The calendar week drives the short week style.
- `gregorian.dateFromComponents` is a foreign call whose normalisation is not visible, for example month 2 day 0 becoming 31 January. The parser returns the raw components instead. Setting `firstWeekday` (line 159) only affects that call, so it is not modelled.
- The initialisers (lines 48-76) only store settings. `Styles.DEFAULT_CONFIG` records the defaults.
- `fractionSeparator` and `fractionDigits` are stored in the configuration but are never read.
- The `isLeapYear` extension on NSDate is not used by the formatter. The inline leap rule is modelled.
- `floor(Double(v) / 100.0)` at line 358 is modelled as integer division. The value is a natural there, so the two agree.
- `scanInteger` overflow and UTF-16 indexing: integers are unbounded, and strings are sequences of characters.
- NSScanner is not part of this model's source. Its primitives are modelled from its documented behaviour, with ASCII case folding for the string matches.
- `DateFromString` is one method in the code. Here it is split at the stage boundaries into one method per stage, and each carries on from the scanner position the previous one left.
- RoundTrip.RoundTrip: holds only for printable dates:
  - every field fits its printf width;
  - weeks are at most 53;
  - the time fields are in their parse ranges;
  - the style is not the short time style;
  - the short zone style comes with a zone;
  - the offset is not negative.

  Outside these, the string does not read back. `ShortTimeDoesNotReadBack`, `NegativeOffsetFlips` and `ShortZoneNeedsOffset` show why.
- RoundTrip.RoundTrip: under the ordinal styles the printed day of the year is not what reads back. The parse derives a month and a day from it, and from 30 November on both are 0, so the day is lost. `LateOrdinalLost` and `ChristmasOrdinal` show this.
- RoundTrip.RoundTrip: the zone reads back as whole hours only, because the formatter always prints the minutes of an offset as `00`.
- There is no concurrency in the formatter.
