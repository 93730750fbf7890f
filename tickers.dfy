/**
 * The ticker source: the symbol column of the reference table, with each
 * symbol rewritten to the market-data provider's convention.
 */
module Tickers {
  import opened Wrappers

  /**
   * Lifetime of the memoised ticker list, in days and in seconds. The memoisation
   * itself is not modelled; these only record the program's values.
   */
  const TickerExpiryDays := 180
  const TickerTtlSeconds := TickerExpiryDays * 86400

  /**
   * Replaces every '.' by '-' (a literal, non-regex replace of all occurrences),
   * e.g. "BRK.B" becomes "BRK-B".
   */
  function Normalize(s: string): (r: string)
    ensures |r| == |s|
    ensures forall i :: 0 <= i < |s| ==> r[i] == (if s[i] == '.' then '-' else s[i])
    ensures '.' !in r
  {
    if s == [] then []
    else [if s[0] == '.' then '-' else s[0]] + Normalize(s[1..])
  }

  /** A symbol without dots is already in the provider's convention. */
  lemma NormalizeKeepsDotless(s: string)
    requires '.' !in s
    ensures Normalize(s) == s
  {
  }

  /** Normalising twice is normalising once. */
  lemma NormalizeIdempotent(s: string)
    ensures Normalize(Normalize(s)) == Normalize(s)
  {
  }

  /** The class-B Berkshire share is looked up under its dashed name. */
  lemma NormalizeExample()
    ensures Normalize("BRK.B") == "BRK-B"
  {
  }

  /**
   * The ticker list: `column` is the symbol column of the first table of the
   * reference page, or None when the request, the parse or the column lookup
   * failed, in which case the list is empty.
   */
  function TickerList(column: Option<seq<string>>): (tickers: seq<string>)
    ensures column.None? ==> tickers == []
    ensures column.Some? ==> |tickers| == |column.value|
    ensures column.Some? ==> forall i :: 0 <= i < |tickers| ==> tickers[i] == Normalize(column.value[i])
    ensures forall i :: 0 <= i < |tickers| ==> '.' !in tickers[i]
  {
    match column
    case None => []
    case Some(symbols) => seq(|symbols|, i requires 0 <= i < |symbols| => Normalize(symbols[i]))
  }
}
