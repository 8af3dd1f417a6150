/** `analyze_coins` of simple_scanner.py: the five coins with the largest 24h change among
    those traded above a million dollars. */
module SimpleScanner {
  import opened Common

  /** A CoinGecko market record as `analyze_coins` reads it: `change24h` is None for a null
      change, `totalVolume` None for a record without a `total_volume` key. */
  datatype MarketCoin = MarketCoin(name: string, symbol: string, currentPrice: real,
                                   totalVolume: Option<real>, change24h: Option<real>)

  const MIN_VOLUME: real := 1000000.0
  const TOP_N: int := 5

  /** The sort key `price_change_percentage_24h or 0`. */
  function ChangeKey(c: MarketCoin): real
  {
    if c.change24h.Some? then c.change24h.value else 0.0
  }

  /** `coin.get('total_volume', 0) > 1000000`. */
  predicate HighVolume(c: MarketCoin)
  {
    (if c.totalVolume.Some? then c.totalVolume.value else 0.0) > MIN_VOLUME
  }

  /** `analyze_coins`: nothing for a missing or empty list; otherwise sort by 24h change,
      largest first, keep the high-volume coins and take the first five. */
  function AnalyzeCoins(coins: Option<seq<MarketCoin>>): seq<MarketCoin>
  {
    if coins.None? || coins.value == [] then []
    else SliceTo(Filter(SortDesc(coins.value, ChangeKey), HighVolume), TOP_N)
  }

  /** The high-volume coins of the input. */
  function Eligible(coins: Option<seq<MarketCoin>>): seq<MarketCoin>
  {
    if coins.None? then [] else Filter(coins.value, HighVolume)
  }

  /** Filtering after the sort is sorting after the filter: the result is the head of the
      stable sort of the eligible coins. */
  lemma AnalyzeCoinsIsTopEligible(coins: Option<seq<MarketCoin>>)
    ensures AnalyzeCoins(coins) == SliceTo(SortDesc(Eligible(coins), ChangeKey), TOP_N)
  {
    if coins.Some? {
      FilterSortDesc(coins.value, ChangeKey, HighVolume);
    }
  }

  /** At most five coins, each an eligible coin of the input, in non-increasing order of
      24h change (a null change counting as 0), and as many as there are eligible coins up
      to five; no eligible coin left out has a larger change than one returned. */
  lemma AnalyzeCoinsSpec(coins: Option<seq<MarketCoin>>)
    ensures coins.None? || coins == Some([]) ==> AnalyzeCoins(coins) == []
    ensures |AnalyzeCoins(coins)| == Min(TOP_N, |Eligible(coins)|)
    ensures forall c :: c in AnalyzeCoins(coins) ==> c in coins.value && HighVolume(c)
    ensures SortedDesc(AnalyzeCoins(coins), ChangeKey)
    ensures forall x, y :: x in Eligible(coins) && x !in AnalyzeCoins(coins) && y in AnalyzeCoins(coins)
              ==> ChangeKey(y) >= ChangeKey(x)
  {
    AnalyzeCoinsIsTopEligible(coins);
    var e := Eligible(coins);
    SortDescPermutes(e, ChangeKey);
    assert |SortDesc(e, ChangeKey)| == |e| by {
      assert |multiset(SortDesc(e, ChangeKey))| == |multiset(e)|;
    }
    TopOfSortDesc(e, ChangeKey, TOP_N);
  }

  /** Ties keep input order: the coins returned with one change value k are a prefix of the
      eligible coins with that change, in input order. */
  lemma AnalyzeCoinsStable(coins: Option<seq<MarketCoin>>, k: real)
    ensures Filter(AnalyzeCoins(coins), c => ChangeKey(c) == k)
            <= Filter(Eligible(coins), c => ChangeKey(c) == k)
  {
    AnalyzeCoinsIsTopEligible(coins);
    var q := SortDesc(Eligible(coins), ChangeKey);
    var r := AnalyzeCoins(coins);
    var tie := (c: MarketCoin) => ChangeKey(c) == k;
    SortDescStable(Eligible(coins), ChangeKey, tie, k);
    assert q == r + q[|r|..];
    FilterConcat(r, q[|r|..], tie);
  }
}
