/**
 * The two clock renderings the cache relies on: the month key `%Y-%m` and the
 * row date `%Y-%m-%d`, both zero-padded decimal.
 */
module Dates {

  datatype Date = Date(year: int, month: int, day: int)

  /** Four-digit years, so that `%Y` renders exactly four characters. */
  predicate ValidDate(d: Date) {
    1000 <= d.year <= 9999 && 1 <= d.month <= 12 && 1 <= d.day <= 31
  }

  function Digit(n: int): char
    requires 0 <= n < 10
  {
    ('0' as int + n) as char
  }

  /** The decimal value of a digit character. */
  function DigitValue(c: char): int {
    c as int - '0' as int
  }

  function Pad2(n: int): (s: string)
    requires 0 <= n < 100
  {
    [Digit(n / 10), Digit(n % 10)]
  }

  function Pad4(n: int): (s: string)
    requires 0 <= n < 10000
  {
    Pad2(n / 100) + Pad2(n % 100)
  }

  /** `strftime('%Y-%m')`: the current month string. */
  function MonthKey(d: Date): (s: string)
    requires ValidDate(d)
    ensures |s| == 7 && s[4] == '-'
    ensures forall i :: 0 <= i < 7 && i != 4 ==> '0' <= s[i] <= '9'
    ensures DigitValue(s[0]) * 1000 + DigitValue(s[1]) * 100 + DigitValue(s[2]) * 10 + DigitValue(s[3]) == d.year
    ensures DigitValue(s[5]) * 10 + DigitValue(s[6]) == d.month
  {
    Pad4(d.year) + "-" + Pad2(d.month)
  }

  /** `strftime('%Y-%m-%d')`: the date stamped on every scanned row. */
  function DayStamp(d: Date): (s: string)
    requires ValidDate(d)
    ensures |s| == 10 && s[..7] == MonthKey(d) && s[7] == '-'
    ensures '0' <= s[8] <= '9' && '0' <= s[9] <= '9'
    ensures DigitValue(s[8]) * 10 + DigitValue(s[9]) == d.day
  {
    MonthKey(d) + "-" + Pad2(d.day)
  }

  /** The clock renderings of 3 May 2024 and of June 2024. */
  lemma RenderingExample()
    ensures DayStamp(Date(2024, 5, 3)) == "2024-05-03"
    ensures MonthKey(Date(2024, 6, 1)) == "2024-06"
  {
  }

  /** Python's `str.startswith`. */
  predicate StartsWith(s: string, prefix: string) {
    |prefix| <= |s| && s[..|prefix|] == prefix
  }

  /** Distinct months have distinct keys. */
  lemma MonthKeyInjective(d: Date, e: Date)
    requires ValidDate(d) && ValidDate(e)
    requires MonthKey(d) == MonthKey(e)
    ensures d.year == e.year && d.month == e.month
  {
  }

  /**
   * A row date carries a month key as its prefix exactly when the two were
   * taken in the same calendar month: the day never matters.
   */
  lemma StampInMonthIff(stamped: Date, current: Date)
    requires ValidDate(stamped) && ValidDate(current)
    ensures StartsWith(DayStamp(stamped), MonthKey(current)) <==>
              stamped.year == current.year && stamped.month == current.month
  {
  }
}
