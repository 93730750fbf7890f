# Monthly large-cap value screener — Dafny model

The repository is a Streamlit dashboard that lists the S&P 500 constituents,
asks a market-data provider about the first 250 symbols of that list, in
list order, for their market capitalisation, trailing P/E and dividend yield,
keeps the 200 largest of those, caches that table in
a CSV file for the rest of the calendar month, and shows the rows whose P/E is
at most a slider value. This project models the logic of `main.py` under the
UI and the network calls:

- **Ticker source** (`tickers.dfy`, module `Tickers`): every `.` in a symbol
  becomes `-`; a failed fetch of the reference page gives the empty list.
- **Metric fetcher** (`fetcher.dfy`, module `Fetcher`): the loop over the first
  250 tickers as an imperative method, `FetchStockData`. It is proved equal to
  the specification function `Scan`, and the scan's properties are lemmas about
  `Scan`. The provider is a parameter `string -> Option<Info>`, and `None` is a
  lookup that raised.
- **Clock formats** (`dates.dfy`, module `Dates`): `%Y-%m` and `%Y-%m-%d` as
  zero-padded digit strings of a `Date` passed in as the clock.
- **Monthly cache** (`cache.dfy`, module `ResultCache`): the stored file is an
  `Option<seq<StockRow>>`, and the freshness test looks only at row 0's date.
- **Top-N selection** (`ranking.dfy`, module `Ranking`): sort by market
  capitalisation, largest first, then keep 200 rows.
- **P/E filter** (`screen.dfy`, module `Screen`).
- **Script run** (`app.dfy`, module `App`): one pass of the top-level script as
  a method that reassigns the final table as the script does. It returns what
  the run ends in: a table shown, waiting for the button, a rescan saved before
  the rerun, or the crash described below.

Points where the code's behaviour may be unexpected, which the model follows:

- A row only needs a non-zero market capitalisation, not a positive one. The
  code tests truthiness, so a negative capitalisation passes.
- When no row is collected, the code builds a table with no market-cap column.
  `sort_values` then raises and nothing is saved. This is the outcome
  `ScanCrashed`; the run does not degrade to an empty table.
- A cache file that cannot be parsed is not treated as absent. `read_csv` has
  no handler, so the model only distinguishes "no file" from "a table".
- Only the first 250 listed symbols are queried, and the ranking covers only
  those. The reference list is not ordered by market capitalisation, so a
  larger company listed after position 250 never reaches the saved table.
- The only filter is the maximum-P/E slider.

## Model

| member | source | states |
|---|---|---|
| Tickers.Normalize | main.py:23 | same length; every `.` becomes `-` and every other character is unchanged; no `.` is left |
| Tickers.NormalizeKeepsDotless | main.py:23 | a symbol without `.` is returned unchanged |
| Tickers.NormalizeIdempotent | main.py:23 | normalising twice equals normalising once |
| Tickers.NormalizeExample | main.py:23 | `BRK.B` is looked up as `BRK-B` |
| Tickers.TickerList | main.py:17-25 | a failed fetch or parse gives `[]`; otherwise one normalised symbol per table entry, in table order, none containing `.` |
| Fetcher.Qualifies | main.py:43 | the inclusion rule, truthiness of both trailing P/E and market cap; a qualifying report has both values present |
| Fetcher.BuildRow | main.py:36-52 | a row exists iff the lookup succeeded and both P/E and market cap are present and non-zero; the row carries the symbol, the date, the provider's P/E and cap, the short name or the symbol, the quote link for the symbol, and a dividend of 0 when the yield is absent or zero (yield × 100 otherwise) |
| Fetcher.Scan | main.py:34-54 | no more rows than symbols scanned |
| Fetcher.ScanAppend | main.py:34-54 | scanning a concatenation equals concatenating the scans: symbols are handled independently, in order |
| Fetcher.SymbolIsolated | main.py:43-54 | a symbol contributes exactly its own row or nothing; a skipped symbol leaves the rows of all other symbols as if it were absent |
| Fetcher.ScanKeepsOrder | main.py:34-44 | the symbols of the rows form a subsequence of the scanned tickers |
| Fetcher.ScanRowsFromProvider | main.py:37-52 | every row comes from a scanned symbol whose successful, qualifying report builds exactly that row |
| Fetcher.ScanCovers | main.py:34-54 | a symbol has a row iff it was scanned and its lookup succeeded with truthy P/E and market cap |
| Fetcher.FetchStockData | main.py:28-56 | the loop returns the scan of the first 250 tickers: at most min(250, count) rows, symbols a subsequence of that prefix, every row with non-zero cap and P/E and today's date, and every row's symbol one of the examined tickers |
| Dates.MonthKey | main.py:59 | the current month string is 7 characters: four decimal digits whose value is the year, `-`, two zero-padded decimal digits whose value is the month |
| Dates.DayStamp | main.py:50 | the row date is 10 characters: the month string of the same instant, `-`, two zero-padded decimal digits whose value is the day |
| Dates.MonthKeyInjective | main.py:59 | distinct calendar months give distinct `%Y-%m` strings |
| Dates.StampInMonthIff | main.py:50-64 | a `%Y-%m-%d` row date starts with a `%Y-%m` month string iff both come from the same year and month |
| ResultCache.CacheValid | main.py:64 | the freshness test on a stored, non-empty table and row 0's date; a table that passes exists, is non-empty and its row 0 date is at least as long as the month string |
| ResultCache.LoadIfValid | main.py:60-65 | the start table is non-empty iff a stored table exists, is non-empty and row 0's date starts with the current month; it is then the whole stored table, otherwise empty |
| ResultCache.SaveThenLoad | main.py:59-73 | a saved non-empty table stamped at one instant reloads unchanged at any instant of the same month, and reloads as empty in any other month |
| ResultCache.StaleMonthRejected | main.py:64 | a table dated `2024-05-03` is rejected for month `2024-06`, derived from the same-month reload property for 3 May and June 2024 |
| Dates.RenderingExample | main.py:50-59 | 3 May 2024 renders as `2024-05-03` and June 2024 as `2024-06` |
| ResultCache.OnlyFirstRowInspected | main.py:64 | rows after row 0 may carry any date and the table is still accepted |
| Ranking.InsertByCap | main.py:72 | inserting into a table sorted by cap, largest first, keeps it sorted and adds exactly the one row |
| Ranking.SortByCap | main.py:72 | the result is sorted by market cap, largest first, and is a permutation of the input |
| Ranking.TopRows | main.py:72 | exactly min(count, 200) rows, sorted by cap largest first, a sub-multiset of the scanned rows, and all of them when there are at most 200 |
| Ranking.TopRowsDominate | main.py:72 | no scanned row left out has a larger market cap than any row kept |
| Screen.FilterByPe | main.py:80 | a row is kept iff it is in the table and its P/E is at most the threshold; never longer than the table |
| Screen.FilterKeepsOrder | main.py:80 | the kept rows are a subsequence of the table, in its order |
| Screen.FilterCounts | main.py:80 | each passing row is kept as many times as it occurs, each failing row zero times |
| Screen.FilterIdempotent | main.py:80 | filtering twice with the same threshold equals filtering once |
| App.TopOfTodaysScanIsFresh | main.py:72-73 | the top 200 of a non-empty scan stamped today pass the freshness test this month and reload unchanged |
| App.RunScript | main.py:58-80 | a fresh cache is shown with its P/E-filtered view; with no fresh cache the run waits for the button; pressing it scans the first 250 normalised tickers, crashes on zero rows, and otherwise saves the top 200. A saved table is non-empty, has at most 200 rows, is sorted by cap and passes the freshness test in the same month, so the rerun shows it |

## Left out

- Streamlit presentation is not modelled, because it only displays results: page setup, title, progress bar and status text, the button widget, the table rendering and the whole detail / business-summary view (main.py:8-9, 30-31, 35, 55, 66, 69, 74, 79, 83-113). The button is a boolean parameter and the slider a real parameter.
- The HTTP request and HTML parsing of the reference page are replaced by an `Option<seq<string>>` parameter, because they are foreign calls. `None` is any exception.
- `yf.Ticker(symbol).info` is replaced by the `Provider` function, because it is a foreign call. Any exception inside the per-symbol body becomes `None`, for example `round` applied to a non-numeric P/E. The `Provider` is total and deterministic, so the model does not capture a lookup that blocks forever (the call has no timeout), nor a symbol listed twice receiving two different answers.
- A missing key and a key whose value is null are both `None`. The model therefore does not capture a present-but-null `shortName`, which the code stores as null rather than falling back to the symbol.
- The `@st.cache_data` memoisation of the ticker list is not modelled, because the framework manages it. Only its 180-day lifetime appears, as a constant.
- CSV writing and reading are modelled as the identity. Text round-trip effects of `to_csv`/`read_csv` are not captured, such as float formatting or a symbol read back as a missing value. A file that exists but cannot be parsed is not modelled; the code does not catch that error.
- Division by 1e9 and rounding to two decimals are not modelled, because they are floating-point numerics. The capitalisation, P/E and yield × 100 are exact reals. So the model does not capture a capitalisation that rounds to 0.00 billion, nor NaN values.
- The wall clock is a `Date` parameter, read once per run for both the row dates and the month key. The code reads the clock per row and once for the month, so a scan that crosses a month boundary is not modelled.
- App.RunScript: requires a clock year from 1000 to 9999. The model renders `%Y` as exactly four digits, and shorter years are platform-dependent.
- Ranking.SortByCap: ties are kept in input order. Pandas' default sort is not stable, so tied rows may come out in another order. Every proved property of `TopRows` holds whatever the order of ties.
- `st.rerun()` is modelled as the end of the run (outcome `Rescanned`) plus the new stored value (`StoreAfter`). The next run is another call of `RunScript`.
- Concurrent sessions writing the cache file are not modelled. Neither is Streamlit's rerun-on-interaction.
