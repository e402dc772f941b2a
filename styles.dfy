/** The formatter's configuration: the four style enumerations and the fraction settings. */
module Styles {

  datatype DateStyle =
    | CalendarLong    // YYYY-MM-DD
    | CalendarShort   // YYYYMMDD
    | OrdinalLong     // YYYY-DDD
    | OrdinalShort    // YYYYDDD
    | WeekLong        // YYYY-Www-D
    | WeekShort       // YYYYWwwD
  {
    predicate IsCalendar() { this == CalendarLong || this == CalendarShort }
    predicate IsOrdinal() { this == OrdinalLong || this == OrdinalShort }
    predicate IsWeek() { this == WeekLong || this == WeekShort }
    /** The extended (separated) forms. */
    predicate IsLong() { this == CalendarLong || this == OrdinalLong || this == WeekLong }
  }

  datatype TimeStyle =
    | NoTime          // no time of day
    | LongTime        // hh:mm:ss
    | ShortTime       // printed as hh:mm:ss; parsed from hhmmss

  datatype TimeZoneStyle =
    | NoZone          // no designator
    | UTC             // Z
    | LongZone        // ±hh:mm
    | ShortZone       // ±hhmm

  datatype FractionSeparator = Comma | Dot

  /** The settings an `ISO8601Formatter` holds; neither operation changes them. */
  datatype Config = Config(
    dateStyle: DateStyle,
    timeStyle: TimeStyle,
    fractionSeparator: FractionSeparator,
    timeZoneStyle: TimeZoneStyle,
    fractionDigits: int)

  /** The settings of the formatter's argument-less initialiser. */
  const DEFAULT_CONFIG := Config(CalendarLong, LongTime, Comma, UTC, 6)
}
