/** Top-N selection: the scanned rows ordered by market capitalisation, largest first, cut to 200. */
module Ranking {
  import opened Sequences
  import opened Fetcher

  const TopN := 200

  predicate SortedByCapDesc(s: seq<StockRow>) {
    forall i, j :: 0 <= i < j < |s| ==> s[j].marketCap <= s[i].marketCap
  }

  /** Inserts `r` in front of the first row whose capitalisation is not above it. */
  function InsertByCap(r: StockRow, s: seq<StockRow>): (t: seq<StockRow>)
    requires SortedByCapDesc(s)
    ensures SortedByCapDesc(t)
    ensures multiset(t) == multiset(s) + multiset{r}
    ensures |t| == |s| + 1
    ensures t[0] == r || (s != [] && t[0] == s[0])
  {
    if s == [] || s[0].marketCap <= r.marketCap then [r] + s
    else
      var rest := InsertByCap(r, s[1..]);
      assert s == [s[0]] + s[1..];
      assert rest[0].marketCap <= s[0].marketCap;
      [s[0]] + rest
  }

  /** `sort_values(by=market cap, ascending=False)`, ties kept in input order. */
  function SortByCap(s: seq<StockRow>): (t: seq<StockRow>)
    ensures SortedByCapDesc(t)
    ensures multiset(t) == multiset(s)
    ensures |t| == |s|
  {
    if s == [] then []
    else
      assert s == [s[0]] + s[1..];
      InsertByCap(s[0], SortByCap(s[1..]))
  }

  /** `.head(200)` of the sorted table. */
  function TopRows(rows: seq<StockRow>): (top: seq<StockRow>)
    ensures |top| == Min(|rows|, TopN)
    ensures SortedByCapDesc(top)
    ensures multiset(top) <= multiset(rows)
    ensures |rows| <= TopN ==> multiset(top) == multiset(rows)
  {
    var sorted := SortByCap(rows);
    var n := Min(|rows|, TopN);
    assert sorted == sorted[..n] + sorted[n..];
    sorted[..n]
  }

  /** In a table sorted by capitalisation, every row after position n is at most every row before it. */
  lemma SplitDominates(sorted: seq<StockRow>, n: nat)
    requires SortedByCapDesc(sorted) && n <= |sorted|
    ensures forall dropped, kept :: dropped in sorted[n..] && kept in sorted[..n] ==>
              dropped.marketCap <= kept.marketCap
  {
  }

  /** No row left out of the top table has a larger capitalisation than a row kept in it. */
  lemma TopRowsDominate(rows: seq<StockRow>)
    ensures forall dropped, kept ::
              dropped in multiset(rows) - multiset(TopRows(rows)) && kept in TopRows(rows) ==>
                dropped.marketCap <= kept.marketCap
  {
    var sorted := SortByCap(rows);
    var n := Min(|rows|, TopN);
    assert TopRows(rows) == sorted[..n];
    assert sorted == sorted[..n] + sorted[n..];
    assert multiset(rows) - multiset(sorted[..n]) == multiset(sorted[n..]);
    SplitDominates(sorted, n);
  }
}
