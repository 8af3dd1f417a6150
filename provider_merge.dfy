/** How AdvancedCryptoScanner merges the token lists of its two market-data providers:
    CoinGecko records go into a dictionary keyed by symbol (a later record with the
    same symbol overwrites an earlier one but keeps its position), CoinMarketCap records
    are added only for symbols not yet present, and the dictionary's values, in
    insertion order, are sorted by 24h volume, largest first. */
module ProviderMerge {
  import opened Common

  /** One market record as the providers' fetchers return it. A provider may leave the
      price and the market cap undefined (CoinMarketCap's `quote.get(...)`). */
  datatype TokenRecord = TokenRecord(
    symbol: string, name: string,
    price: Option<real>, volume: real, marketCap: Option<real>,
    change1h: real, change24h: real, change7d: real,
    source: string)

  /** The symbols of a list of records, in order. */
  function Symbols(s: seq<TokenRecord>): (r: seq<string>)
    ensures |r| == |s|
    ensures forall j :: 0 <= j < |s| ==> r[j] == s[j].symbol
  {
    if s == [] then [] else Symbols(s[..|s| - 1]) + [s[|s| - 1].symbol]
  }

  /** Keys in first-insertion order: a Python dict's key order after inserting s. */
  function Dedup(s: seq<string>): (d: seq<string>)
    ensures forall k :: k in d <==> k in s
    ensures forall a, b :: 0 <= a < b < |d| ==> d[a] != d[b]
  {
    if s == [] then []
    else
      var d := Dedup(s[..|s| - 1]);
      if s[|s| - 1] in d then d else d + [s[|s| - 1]]
  }

  /** The last record of s with symbol k: what the dictionary holds after inserting all of s. */
  function LastWith(s: seq<TokenRecord>, k: string): (r: Option<TokenRecord>)
    ensures r.Some? <==> k in Symbols(s)
    ensures r.Some? ==> r.value in s && r.value.symbol == k
  {
    if s == [] then None
    else if s[|s| - 1].symbol == k then Some(s[|s| - 1])
    else LastWith(s[..|s| - 1], k)
  }

  /** The first record of s with symbol k: what an insert-if-absent loop keeps. */
  function FirstWith(s: seq<TokenRecord>, k: string): (r: Option<TokenRecord>)
    ensures r.Some? <==> k in Symbols(s)
    ensures r.Some? ==> r.value in s && r.value.symbol == k
  {
    if s == [] then None
    else
      var f := FirstWith(s[..|s| - 1], k);
      if f.Some? then f
      else if s[|s| - 1].symbol == k then Some(s[|s| - 1])
      else None
  }

  /** The record kept for symbol k: CoinGecko's last one if it has any, else CoinMarketCap's first. */
  function Winner(cg: seq<TokenRecord>, cmc: seq<TokenRecord>, k: string): (r: Option<TokenRecord>)
    ensures r.Some? <==> k in Symbols(cg) || k in Symbols(cmc)
  {
    if k in Symbols(cg) then LastWith(cg, k) else FirstWith(cmc, k)
  }

  /** The winners of the given symbols, in the order of `keys`. */
  function Winners(cg: seq<TokenRecord>, cmc: seq<TokenRecord>, keys: seq<string>): (r: seq<TokenRecord>)
    requires forall k :: k in keys ==> k in Symbols(cg) || k in Symbols(cmc)
    ensures |r| == |keys|
    ensures forall j :: 0 <= j < |keys| ==> Some(r[j]) == Winner(cg, cmc, keys[j])
  {
    if keys == [] then []
    else Winners(cg, cmc, keys[..|keys| - 1]) + [Winner(cg, cmc, keys[|keys| - 1]).value]
  }

  /** The dictionary's values in insertion order, before sorting. */
  function Merged(cg: seq<TokenRecord>, cmc: seq<TokenRecord>): seq<TokenRecord>
  {
    Winners(cg, cmc, Dedup(Symbols(cg) + Symbols(cmc)))
  }

  // One-step facts the merge loops use.

  lemma WinnersSnoc(cg: seq<TokenRecord>, cmc: seq<TokenRecord>, keys: seq<string>, n: nat)
    requires n < |keys|
    requires forall k :: k in keys ==> k in Symbols(cg) || k in Symbols(cmc)
    ensures forall k :: k in keys[..n + 1] ==> k in Symbols(cg) || k in Symbols(cmc)
    ensures Winners(cg, cmc, keys[..n + 1])
         == Winners(cg, cmc, keys[..n]) + [Winner(cg, cmc, keys[n]).value]
  {
    assert keys[..n + 1][..n] == keys[..n];
  }

  lemma SymbolsSnoc(s: seq<TokenRecord>, t: TokenRecord)
    ensures Symbols(s + [t]) == Symbols(s) + [t.symbol]
  {
    assert (s + [t])[..|s|] == s;
  }

  lemma DedupSnoc(s: seq<string>, x: string)
    ensures Dedup(s + [x]) == if x in Dedup(s) then Dedup(s) else Dedup(s) + [x]
  {
    assert (s + [x])[..|s|] == s;
  }

  lemma LastWithSnoc(s: seq<TokenRecord>, t: TokenRecord)
    ensures forall k :: LastWith(s + [t], k) == if t.symbol == k then Some(t) else LastWith(s, k)
  {
    assert (s + [t])[..|s|] == s;
  }

  lemma FirstWithSnoc(s: seq<TokenRecord>, t: TokenRecord)
    ensures forall k :: FirstWith(s + [t], k)
                        == if FirstWith(s, k).Some? then FirstWith(s, k) else if t.symbol == k then Some(t) else None
  {
    assert (s + [t])[..|s|] == s;
  }

  /** The dictionary, as its key order and its contents, after `all_tokens[t.symbol] = t`
      for every record t of s in turn. */
  function PutAll(keys: seq<string>, dict: map<string, TokenRecord>, s: seq<TokenRecord>)
    : (seq<string>, map<string, TokenRecord>)
  {
    if s == [] then (keys, dict)
    else
      var (k, d) := PutAll(keys, dict, s[..|s| - 1]);
      var t := s[|s| - 1];
      (if t.symbol in d then k else k + [t.symbol], d[t.symbol := t])
  }

  /** The dictionary after inserting every record of s whose symbol is not yet present. */
  function PutMissing(keys: seq<string>, dict: map<string, TokenRecord>, s: seq<TokenRecord>)
    : (seq<string>, map<string, TokenRecord>)
  {
    if s == [] then (keys, dict)
    else
      var (k, d) := PutMissing(keys, dict, s[..|s| - 1]);
      var t := s[|s| - 1];
      if t.symbol in d then (k, d) else (k + [t.symbol], d[t.symbol := t])
  }

  /** Inserting CoinGecko's records into an empty dictionary leaves the symbols in
      first-seen order, each holding its last record. */
  lemma {:induction false} PutAllIsLastWins(s: seq<TokenRecord>)
    ensures PutAll([], map[], s).0 == Dedup(Symbols(s))
    ensures forall k :: k in PutAll([], map[], s).1 <==> k in Symbols(s)
    ensures forall k :: k in PutAll([], map[], s).1 ==> Some(PutAll([], map[], s).1[k]) == LastWith(s, k)
  {
    if s != [] {
      var s', t := s[..|s| - 1], s[|s| - 1];
      assert s == s' + [t];
      PutAllIsLastWins(s');
      SymbolsSnoc(s', t);
      DedupSnoc(Symbols(s'), t.symbol);
      LastWithSnoc(s', t);
    }
  }

  /** Then inserting CoinMarketCap's missing records leaves every symbol of either list in
      first-seen order, each holding its winner. */
  lemma {:induction false} PutMissingIsWinner(cg: seq<TokenRecord>, s: seq<TokenRecord>)
    ensures var (k0, d0) := PutAll([], map[], cg);
      var (k, d) := PutMissing(k0, d0, s);
      k == Dedup(Symbols(cg) + Symbols(s))
      && (forall x :: x in d <==> x in Symbols(cg) || x in Symbols(s))
      && (forall x :: x in d ==> Some(d[x]) == Winner(cg, s, x))
  {
    PutAllIsLastWins(cg);
    if s == [] {
      assert Symbols(cg) + Symbols(s) == Symbols(cg);
    } else {
      var s', t := s[..|s| - 1], s[|s| - 1];
      assert s == s' + [t];
      PutMissingIsWinner(cg, s');
      SymbolsSnoc(s', t);
      assert Symbols(cg) + Symbols(s) == (Symbols(cg) + Symbols(s')) + [t.symbol];
      DedupSnoc(Symbols(cg) + Symbols(s'), t.symbol);
      FirstWithSnoc(s', t);
    }
  }

  function VolumeKey(t: TokenRecord): real { t.volume }

  /** The merged list `fetch_real_crypto_data` returns. */
  function MergeProviders(cg: seq<TokenRecord>, cmc: seq<TokenRecord>): seq<TokenRecord>
  {
    SortDesc(Merged(cg, cmc), VolumeKey)
  }

  function SymbolOf(t: TokenRecord): string { t.symbol }

  /** The merged list, before sorting, lists the winners of its symbols in key order. */
  lemma MergedSymbols(cg: seq<TokenRecord>, cmc: seq<TokenRecord>)
    ensures |Merged(cg, cmc)| == |Dedup(Symbols(cg) + Symbols(cmc))|
    ensures forall j :: 0 <= j < |Merged(cg, cmc)|
              ==> Merged(cg, cmc)[j].symbol == Dedup(Symbols(cg) + Symbols(cmc))[j]
  {
    var keys := Dedup(Symbols(cg) + Symbols(cmc));
    var m := Merged(cg, cmc);
    forall j | 0 <= j < |m| ensures m[j].symbol == keys[j] {
      WinnerSymbol(cg, cmc, keys[j]);
    }
  }

  /** One record per symbol. */
  lemma MergeDistinctSymbols(cg: seq<TokenRecord>, cmc: seq<TokenRecord>)
    ensures forall a, b :: 0 <= a < b < |MergeProviders(cg, cmc)|
              ==> MergeProviders(cg, cmc)[a].symbol != MergeProviders(cg, cmc)[b].symbol
  {
    MergedSymbols(cg, cmc);
    assert DistinctBy(Merged(cg, cmc), SymbolOf);
    SortDescDistinctBy(Merged(cg, cmc), VolumeKey, SymbolOf);
  }

  /** The record kept for a symbol CoinGecko reported is CoinGecko's last one, whatever
      CoinMarketCap says; for any other symbol it is CoinMarketCap's first one. */
  lemma MergeKeepsWinners(cg: seq<TokenRecord>, cmc: seq<TokenRecord>)
    ensures forall t :: t in MergeProviders(cg, cmc) ==> Some(t) == Winner(cg, cmc, t.symbol)
  {
    var m := Merged(cg, cmc);
    MergedSymbols(cg, cmc);
    SortDescPermutes(m, VolumeKey);
    forall t | t in MergeProviders(cg, cmc) ensures Some(t) == Winner(cg, cmc, t.symbol) {
      assert t in multiset(MergeProviders(cg, cmc));
      assert t in multiset(m);
      var j :| 0 <= j < |m| && m[j] == t;
    }
  }

  /** Every symbol either provider reported is in the merged list. */
  lemma MergeCoversBoth(cg: seq<TokenRecord>, cmc: seq<TokenRecord>)
    ensures forall k :: k in Symbols(cg) || k in Symbols(cmc)
              ==> Winner(cg, cmc, k).value in MergeProviders(cg, cmc)
  {
    var keys := Dedup(Symbols(cg) + Symbols(cmc));
    var m := Merged(cg, cmc);
    SortDescPermutes(m, VolumeKey);
    forall k | k in Symbols(cg) || k in Symbols(cmc)
      ensures Winner(cg, cmc, k).value in MergeProviders(cg, cmc)
    {
      assert k in Symbols(cg) + Symbols(cmc);
      assert k in keys;
      var j :| 0 <= j < |keys| && keys[j] == k;
      assert Some(m[j]) == Winner(cg, cmc, k);
      assert m[j] in multiset(m);
      assert multiset(m) == multiset(MergeProviders(cg, cmc));
    }
  }

  lemma WinnerSymbol(cg: seq<TokenRecord>, cmc: seq<TokenRecord>, k: string)
    requires k in Symbols(cg) || k in Symbols(cmc)
    ensures Winner(cg, cmc, k).value.symbol == k
  {
  }

  /** The merged list is ordered by volume, largest first, and records of equal volume
      stay in dictionary order. */
  lemma MergeSortedByVolume(cg: seq<TokenRecord>, cmc: seq<TokenRecord>, v: real)
    ensures forall a, b :: 0 <= a < b < |MergeProviders(cg, cmc)|
              ==> MergeProviders(cg, cmc)[a].volume >= MergeProviders(cg, cmc)[b].volume
    ensures Filter(MergeProviders(cg, cmc), (t: TokenRecord) => t.volume == v) == Filter(Merged(cg, cmc), (t: TokenRecord) => t.volume == v)
  {
    SortDescSorted(Merged(cg, cmc), VolumeKey);
    SortDescStable(Merged(cg, cmc), VolumeKey, (t: TokenRecord) => t.volume == v, v);
  }

  /** Without CoinMarketCap data, the merge is CoinGecko's list with duplicates collapsed
      onto their last record. */
  lemma OnlyCoinGecko(cg: seq<TokenRecord>)
    ensures forall t :: t in MergeProviders(cg, []) ==> Some(t) == LastWith(cg, t.symbol)
  {
    MergeKeepsWinners(cg, []);
    assert Symbols([]) == [];
  }
}
