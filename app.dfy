/**
 * One run of the dashboard script: reuse the month's cached table, or, when
 * the user asks for it, scan, keep the top rows, save them and rerun; a
 * non-empty table is then filtered by the P/E threshold for display.
 */
module App {
  import opened Wrappers
  import opened Sequences
  import opened Tickers
  import opened Fetcher
  import opened Dates
  import opened ResultCache
  import opened Ranking
  import opened Screen

  datatype Outcome =
      /** The table came from a fresh cache and is shown with its filtered view. */
    | Shown(table: seq<StockRow>, filtered: seq<StockRow>)
      /** No usable table and the scan button was not pressed. */
    | AwaitingScan
      /** A scan produced `saved`, which was written to the cache before the rerun. */
    | Rescanned(saved: seq<StockRow>)
      /** A scan produced no row at all, so sorting by market capitalisation raised. */
    | ScanCrashed

  /** What the cache file holds after a run: only a completed scan overwrites it. */
  function StoreAfter(stored: Stored, o: Outcome): Stored {
    if o.Rescanned? then Some(o.saved) else stored
  }

  /**
   * The top rows of a non-empty scan stamped today are saved as a table that
   * the freshness test accepts this month and that reloads unchanged.
   */
  lemma TopOfTodaysScanIsFresh(scanned: seq<StockRow>, now: Date)
    requires ValidDate(now)
    requires scanned != [] && forall k :: 0 <= k < |scanned| ==> scanned[k].date == DayStamp(now)
    ensures CacheValid(Some(TopRows(scanned)), MonthKey(now))
    ensures LoadIfValid(Some(TopRows(scanned)), MonthKey(now)) == TopRows(scanned)
  {
    var top := TopRows(scanned);
    forall k | 0 <= k < |top| ensures top[k].date == DayStamp(now) {
      assert top[k] in multiset(scanned);
    }
    SaveThenLoad(top, now, now);
  }

  /**
   * `stored` is the cache file, `now` the clock, `pressed` the scan button,
   * `column` the reference page's symbol column and `provider` the market-data
   * lookup; `maxPe` is the slider value.
   */
  method RunScript(stored: Stored, now: Date, pressed: bool, column: Option<seq<string>>,
                   provider: Provider, maxPe: real) returns (o: Outcome)
    requires ValidDate(now)
    ensures CacheValid(stored, MonthKey(now)) ==> o == Shown(stored.value, FilterByPe(stored.value, maxPe))
    ensures !CacheValid(stored, MonthKey(now)) && !pressed ==> o == AwaitingScan
    ensures !CacheValid(stored, MonthKey(now)) && pressed ==>
              var tickers := TickerList(column);
              var scanned := Scan(tickers[..Min(|tickers|, ScanLimit)], provider, DayStamp(now));
              o == if scanned == [] then ScanCrashed else Rescanned(TopRows(scanned))
    ensures o.Rescanned? ==>
              0 < |o.saved| <= TopN && SortedByCapDesc(o.saved) &&
              CacheValid(StoreAfter(stored, o), MonthKey(now)) &&
              LoadIfValid(StoreAfter(stored, o), MonthKey(now)) == o.saved
  {
    var currentMonth := MonthKey(now);
    var finalDf: seq<StockRow> := [];

    if stored.Some? {
      var cacheDf := stored.value;
      if cacheDf != [] && StartsWith(cacheDf[0].date, currentMonth) {
        finalDf := cacheDf;
      }
    }

    if finalDf == [] {
      if !pressed {
        return AwaitingScan;
      }
      var tickers := TickerList(column);
      var allData := FetchStockData(tickers, provider, DayStamp(now));
      if allData == [] {
        return ScanCrashed;
      }
      finalDf := TopRows(allData);
      // Every scanned row carries today's date, so the saved table is fresh for this month.
      TopOfTodaysScanIsFresh(allData, now);
      return Rescanned(finalDf);
    }

    var filteredDf := FilterByPe(finalDf, maxPe);
    return Shown(finalDf, filteredDf);
  }
}
