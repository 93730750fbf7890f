/**
 * The monthly result cache: the persisted scan table is reused only while
 * its first row's date lies in the current month.
 */
module ResultCache {
  import opened Wrappers
  import opened Fetcher
  import opened Dates

  /** Name of the cache file; the file is modelled as a value, so this only records the name. */
  const ResultCacheFile := "scan_results_month.csv"

  /** The persisted table, or None when the cache file does not exist. */
  type Stored = Option<seq<StockRow>>

  /** The freshness test; only row 0 is inspected. */
  predicate CacheValid(stored: Stored, currentMonth: string)
    ensures CacheValid(stored, currentMonth) ==>
              stored.Some? && stored.value != [] && |currentMonth| <= |stored.value[0].date|
  {
    stored.Some? && |stored.value| > 0 && StartsWith(stored.value[0].date, currentMonth)
  }

  /**
   * The table the session starts from: the whole cached table when it is
   * fresh, otherwise the empty table (never a part of the cache).
   */
  function LoadIfValid(stored: Stored, currentMonth: string): (table: seq<StockRow>)
    ensures table != [] <==>
              stored.Some? && stored.value != [] && StartsWith(stored.value[0].date, currentMonth)
    ensures table == [] || table == stored.value
  {
    if CacheValid(stored, currentMonth) then stored.value else []
  }

  /**
   * Saving a non-empty table whose rows were stamped at `scanned` and loading
   * it at `later` gives the table back exactly when both instants fall in the
   * same calendar month, and the empty table otherwise.
   */
  lemma SaveThenLoad(table: seq<StockRow>, scanned: Date, later: Date)
    requires ValidDate(scanned) && ValidDate(later)
    requires table != [] && forall k :: 0 <= k < |table| ==> table[k].date == DayStamp(scanned)
    ensures LoadIfValid(Some(table), MonthKey(later)) ==
              if scanned.year == later.year && scanned.month == later.month then table else []
  {
  }

  /**
   * A table from the month before is discarded: "2024-05-03" against "2024-06",
   * the renderings of 3 May 2024 and of June 2024.
   */
  lemma StaleMonthRejected(table: seq<StockRow>)
    requires table != [] && forall k :: 0 <= k < |table| ==> table[k].date == "2024-05-03"
    ensures LoadIfValid(Some(table), "2024-06") == []
  {
    RenderingExample();
    SaveThenLoad(table, Date(2024, 5, 3), Date(2024, 6, 1));
  }

  /**
   * Only row 0 decides: rows after it may carry any date, even one from
   * another month, and the whole table is still accepted.
   */
  lemma OnlyFirstRowInspected(first: StockRow, rest: seq<StockRow>, currentMonth: string)
    requires StartsWith(first.date, currentMonth)
    ensures LoadIfValid(Some([first] + rest), currentMonth) == [first] + rest
  {
  }
}
