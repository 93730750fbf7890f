/** The P/E threshold filter applied to the table before it is shown. */
module Screen {
  import opened Sequences
  import opened Fetcher

  /**
   * Bounds and default of the sidebar slider that supplies the threshold. They only
   * record the program's values: the filter is defined for every threshold.
   */
  const MaxPeSliderLow := 5.0
  const MaxPeSliderHigh := 30.0
  const MaxPeSliderDefault := 20.0

  /** `table[table['PE'] <= max_pe]`: the rows at or below the threshold. */
  function FilterByPe(rows: seq<StockRow>, maxPe: real): (kept: seq<StockRow>)
    ensures |kept| <= |rows|
    ensures forall r :: r in kept <==> r in rows && r.pe <= maxPe
  {
    if rows == [] then []
    else (if rows[0].pe <= maxPe then [rows[0]] else []) + FilterByPe(rows[1..], maxPe)
  }

  /** The kept rows appear in the table's own order. */
  lemma {:induction false} FilterKeepsOrder(rows: seq<StockRow>, maxPe: real)
    ensures IsSubsequence(FilterByPe(rows, maxPe), rows)
  {
    if rows != [] {
      FilterKeepsOrder(rows[1..], maxPe);
      var kept := FilterByPe(rows, maxPe);
      if rows[0].pe <= maxPe {
        assert kept[0] == rows[0] && kept[1..] == FilterByPe(rows[1..], maxPe);
      } else {
        assert kept == FilterByPe(rows[1..], maxPe);
      }
    }
  }

  /** Every passing row is kept as often as it occurs; every failing row is dropped. */
  lemma {:induction false} FilterCounts(rows: seq<StockRow>, maxPe: real, r: StockRow)
    ensures multiset(FilterByPe(rows, maxPe))[r] == if r.pe <= maxPe then multiset(rows)[r] else 0
  {
    if rows != [] {
      FilterCounts(rows[1..], maxPe, r);
      assert rows == [rows[0]] + rows[1..];
    }
  }

  /** Filtering again with the same threshold changes nothing. */
  lemma {:induction false} FilterIdempotent(rows: seq<StockRow>, maxPe: real)
    ensures FilterByPe(FilterByPe(rows, maxPe), maxPe) == FilterByPe(rows, maxPe)
  {
    if rows != [] {
      FilterIdempotent(rows[1..], maxPe);
      if rows[0].pe <= maxPe {
        var kept := FilterByPe(rows, maxPe);
        assert kept[0] == rows[0] && kept[1..] == FilterByPe(rows[1..], maxPe);
      } else {
        assert FilterByPe(rows, maxPe) == FilterByPe(rows[1..], maxPe);
      }
    }
  }
}
