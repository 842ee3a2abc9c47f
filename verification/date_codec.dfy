/**
 * Dates as the source handles them: the argument tuple of `Date.UTC`
 * (with a zero-based month), and the instant a JavaScript `Date` holds,
 * in milliseconds since the Unix epoch.
 */
module DateCodec {

  /** The fields passed to `Date.UTC(year, month, day, hour, minute, second)`; `month` is zero-based. */
  datatype DateFields = DateFields(year: int, month: int, day: int, hour: int, minute: int, second: int)

  /**
   * The current instant as `getUTCFullYear`, `getUTCMonth`, `getUTCDate`, ... report it.
   * The source reads the wall clock; the model takes the reading as a parameter.
   */
  predicate ValidNow(now: DateFields) {
    0 <= now.month < 12 && 1 <= now.day <= 31 && 0 <= now.hour < 24
    && 0 <= now.minute < 60 && 0 <= now.second < 60
  }

  /** Months counted from year 0, so that December → January is one step. */
  function MonthIndex(f: DateFields): int {
    f.year * 12 + f.month
  }

  /** Days from 1970-01-01 to the proleptic Gregorian date y-m-d (m in 1..12). */
  function DaysFromCivil(y: int, m: int, d: int): int
    requires 1 <= m <= 12
  {
    var y' := if m <= 2 then y - 1 else y;
    var era := y' / 400;
    var yoe := y' - era * 400;
    var mp := if m > 2 then m - 3 else m + 9;
    var doy := (153 * mp + 2) / 5 + d - 1;
    var doe := yoe * 365 + yoe / 4 - yoe / 100 + doy;
    era * 146097 + doe - 719468
  }

  /**
   * `Date.UTC`: years 0..99 mean 1900..1999, an out-of-range month carries
   * into the year, and day, hour, minute and second overflow linearly.
   */
  function UtcMillis(f: DateFields): int {
    var yr := if 0 <= f.year <= 99 then 1900 + f.year else f.year;
    var ym := yr + f.month / 12;
    var mn := f.month % 12;
    var days := DaysFromCivil(ym, mn + 1, 1) + f.day - 1;
    days * 86400000 + f.hour * 3600000 + f.minute * 60000 + f.second * 1000
  }

  /** Month 12 of one year is January of the next: the explicit rollovers agree with `Date.UTC`. */
  lemma MonthCarry(y: int, day: int, hour: int, minute: int, second: int)
    requires y >= 100
    ensures UtcMillis(DateFields(y, 12, day, hour, minute, second))
         == UtcMillis(DateFields(y + 1, 0, day, hour, minute, second))
  {
  }

  /** The epoch is instant zero, and one minute later is 60000 ms later. */
  lemma Epoch()
    ensures UtcMillis(DateFields(1970, 0, 1, 0, 0, 0)) == 0
    ensures UtcMillis(DateFields(1970, 0, 1, 0, 1, 0)) == 60000
  {
    assert DaysFromCivil(1970, 1, 1) == 0 by {
      assert (1969 / 400) == 4;
      assert (153 * 10 + 2) / 5 == 306;
      assert 369 * 365 + 369 / 4 - 369 / 100 == 134774;
    }
  }
}
