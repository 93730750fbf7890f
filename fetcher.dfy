/**
 * The metric fetcher: walks the first symbols of the ticker list, asks the
 * market-data provider about each, and keeps a row for every symbol whose
 * trailing P/E and market capitalisation are both present and non-zero.
 */
module Fetcher {
  import opened Wrappers
  import opened Sequences

  /** Number of symbols examined per scan (over-samples the top 200). */
  const ScanLimit := 250

  const QuoteUrlPrefix := "https://finance.yahoo.com/quote/"

  /**
   * What the provider reports for one symbol. A key that is absent and a key
   * whose value is null are both None.
   */
  datatype Info = Info(
    marketCap: Option<real>,
    trailingPE: Option<real>,
    dividendYield: Option<real>,
    shortName: Option<string>)

  /** One row of the scan table. */
  datatype StockRow = StockRow(
    symbol: string,
    name: string,
    marketCap: real,
    pe: real,
    dividendPct: real,
    date: string,
    link: string)

  /** The provider's per-symbol lookup; None stands for a lookup that raised. */
  type Provider = string -> Option<Info>

  /** Python truthiness of an optional number: present and non-zero. */
  predicate Truthy(x: Option<real>) {
    x.Some? && x.value != 0.0
  }

  /** The inclusion rule: both P/E and market capitalisation are truthy. */
  predicate Qualifies(info: Info)
    ensures Qualifies(info) ==> info.trailingPE.Some? && info.marketCap.Some?
  {
    Truthy(info.trailingPE) && Truthy(info.marketCap)
  }

  /** The row for a symbol whose lookup succeeded, or None when it is skipped. */
  function BuildRow(symbol: string, looked: Option<Info>, today: string): (r: Option<StockRow>)
    ensures r.Some? <==> looked.Some? && Qualifies(looked.value)
    ensures r.Some? ==> r.value.symbol == symbol && r.value.date == today
    ensures r.Some? ==> r.value.marketCap == looked.value.marketCap.value != 0.0
    ensures r.Some? ==> r.value.pe == looked.value.trailingPE.value != 0.0
    ensures r.Some? ==> r.value.name == looked.value.shortName.GetOr(symbol)
    ensures r.Some? ==> r.value.link == QuoteUrlPrefix + symbol
    ensures r.Some? && !Truthy(looked.value.dividendYield) ==> r.value.dividendPct == 0.0
    ensures r.Some? && Truthy(looked.value.dividendYield) ==>
              r.value.dividendPct == looked.value.dividendYield.value * 100.0
  {
    match looked
    case None => None
    case Some(info) =>
      if Qualifies(info) then
        Some(StockRow(symbol, info.shortName.GetOr(symbol), info.marketCap.value, info.trailingPE.value,
                      if Truthy(info.dividendYield) then info.dividendYield.value * 100.0 else 0.0,
                      today, QuoteUrlPrefix + symbol))
      else None
  }

  /** The rows one symbol contributes: none or one. */
  function RowsFor(symbol: string, provider: Provider, today: string): seq<StockRow> {
    match BuildRow(symbol, provider(symbol), today)
    case None => []
    case Some(row) => [row]
  }

  /** The specification of the scan over the given symbols, in their order. */
  function Scan(symbols: seq<string>, provider: Provider, today: string): (rows: seq<StockRow>)
    ensures |rows| <= |symbols|
  {
    if symbols == [] then []
    else RowsFor(symbols[0], provider, today) + Scan(symbols[1..], provider, today)
  }

  function Symbols(rows: seq<StockRow>): (syms: seq<string>)
    ensures |syms| == |rows|
    ensures forall k :: 0 <= k < |rows| ==> syms[k] == rows[k].symbol
  {
    if rows == [] then [] else [rows[0].symbol] + Symbols(rows[1..])
  }

  /** Scanning two lists one after the other is scanning their concatenation. */
  lemma {:induction false} ScanAppend(a: seq<string>, b: seq<string>, provider: Provider, today: string)
    ensures Scan(a + b, provider, today) == Scan(a, provider, today) + Scan(b, provider, today)
  {
    if a != [] {
      assert (a + b)[0] == a[0];
      assert (a + b)[1..] == a[1..] + b;
      ScanAppend(a[1..], b, provider, today);
    } else {
      assert a + b == b;
    }
  }

  /**
   * A symbol contributes exactly its own row, or nothing if it is skipped,
   * and the symbols around it are scanned as if it were not there.
   */
  lemma SymbolIsolated(before: seq<string>, symbol: string, after: seq<string>, provider: Provider, today: string)
    ensures Scan(before + [symbol] + after, provider, today)
         == Scan(before, provider, today) + RowsFor(symbol, provider, today) + Scan(after, provider, today)
    ensures BuildRow(symbol, provider(symbol), today).None? ==>
              Scan(before + [symbol] + after, provider, today) == Scan(before + after, provider, today)
  {
    var rows := RowsFor(symbol, provider, today);
    ScanAppend(before + [symbol], after, provider, today);
    ScanAppend(before, [symbol], provider, today);
    ScanAppend(before, after, provider, today);
    assert [symbol][1..] == [];
    assert Scan([symbol], provider, today) == rows;
    assert Scan(before + [symbol], provider, today) == Scan(before, provider, today) + rows;
    if rows == [] {
      assert Scan(before, provider, today) + rows == Scan(before, provider, today);
    }
  }

  /** The symbols of the rows appear in the input, in input order. */
  lemma {:induction false} ScanKeepsOrder(symbols: seq<string>, provider: Provider, today: string)
    ensures IsSubsequence(Symbols(Scan(symbols, provider, today)), symbols)
  {
    if symbols != [] {
      var rest := Scan(symbols[1..], provider, today);
      ScanKeepsOrder(symbols[1..], provider, today);
      var rows := Scan(symbols, provider, today);
      if BuildRow(symbols[0], provider(symbols[0]), today).Some? {
        assert rows == [rows[0]] + rest;
        assert Symbols(rows)[1..] == Symbols(rest);
      } else {
        assert rows == rest;
      }
    }
  }

  /**
   * Every row is the provider's report for its own symbol: the lookup
   * succeeded, P/E and market capitalisation were truthy, and the row holds
   * what BuildRow makes of the report.
   */
  lemma {:induction false} ScanRowsFromProvider(symbols: seq<string>, provider: Provider, today: string)
    ensures forall r :: r in Scan(symbols, provider, today) ==>
              r.symbol in symbols && BuildRow(r.symbol, provider(r.symbol), today) == Some(r)
  {
    if symbols != [] {
      ScanRowsFromProvider(symbols[1..], provider, today);
    }
  }

  /**
   * A symbol of the input has a row exactly when its lookup succeeds and
   * qualifies; no qualifying symbol is lost.
   */
  lemma {:induction false} ScanCovers(symbols: seq<string>, provider: Provider, today: string, symbol: string)
    ensures symbol in Symbols(Scan(symbols, provider, today)) <==>
              symbol in symbols && provider(symbol).Some? && Qualifies(provider(symbol).value)
  {
    if symbols != [] {
      ScanCovers(symbols[1..], provider, today, symbol);
      var rest := Scan(symbols[1..], provider, today);
      var rows := Scan(symbols, provider, today);
      assert symbol in symbols <==> symbol == symbols[0] || symbol in symbols[1..];
      if BuildRow(symbols[0], provider(symbols[0]), today).Some? {
        assert rows == [rows[0]] + rest;
        assert Symbols(rows) == [symbols[0]] + Symbols(rest);
      } else {
        assert rows == rest;
      }
    }
  }

  /**
   * The fetch loop: examines the first ScanLimit tickers in order and appends
   * a row for each one that qualifies; a lookup that fails skips the symbol.
   */
  method FetchStockData(tickers: seq<string>, provider: Provider, today: string) returns (results: seq<StockRow>)
    ensures results == Scan(tickers[..Min(|tickers|, ScanLimit)], provider, today)
    ensures |results| <= Min(|tickers|, ScanLimit)
    ensures IsSubsequence(Symbols(results), tickers[..Min(|tickers|, ScanLimit)])
    ensures forall k :: 0 <= k < |results| ==>
              results[k].marketCap != 0.0 && results[k].pe != 0.0 && results[k].date == today
    ensures forall k :: 0 <= k < |results| ==> results[k].symbol in tickers[..Min(|tickers|, ScanLimit)]
  {
    var total := ScanLimit;
    var batch := tickers[..Min(|tickers|, total)];
    results := [];
    var i := 0;
    while i < |batch|
      invariant 0 <= i <= |batch|
      invariant results == Scan(batch[..i], provider, today)
    {
      var symbol := batch[i];
      var looked := provider(symbol);
      if looked.Some? {
        var info := looked.value;
        var mktCap := info.marketCap;
        var pe := info.trailingPE;
        var div := info.dividendYield;
        if Truthy(pe) && Truthy(mktCap) {
          results := results + [StockRow(
            symbol,
            info.shortName.GetOr(symbol),
            mktCap.value,
            pe.value,
            if Truthy(div) then div.value * 100.0 else 0.0,
            today,
            QuoteUrlPrefix + symbol)];
        }
      }
      assert batch[..i + 1] == batch[..i] + [symbol];
      ScanAppend(batch[..i], [symbol], provider, today);
      assert Scan([symbol], provider, today) == RowsFor(symbol, provider, today) + Scan([], provider, today);
      i := i + 1;
    }
    assert batch[..i] == batch;
    ScanKeepsOrder(batch, provider, today);
    SubsequenceBounds(Symbols(results), batch);
    forall k | 0 <= k < |results| ensures results[k].symbol in batch {
      assert Symbols(results)[k] in Symbols(results);
    }
    ScanRowsFromProvider(batch, provider, today);
    forall k | 0 <= k < |results|
      ensures results[k].marketCap != 0.0 && results[k].pe != 0.0 && results[k].date == today
    {
      assert results[k] in results;
    }
  }
}
