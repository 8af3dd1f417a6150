/** MultiAPIScanner of scanner/multi_api.py: the fixed-delay retry of `fetch_coingecko`,
    the selection loop of `best_coin_signal`, the inclusion rule of `detect_holder_growth`
    and the signal classification of `aggregate_signals`. HTTP replies are inputs. */
module MultiApi {
  import opened Common

  // ---------------------------------------------------------------------------
  // fetch_coingecko
  // ---------------------------------------------------------------------------

  /** What one attempt gives: a reply with a status code and its decoded JSON body, a 200
      reply whose body `r.json()` rejects, or an exception from `requests.get` (SSL,
      connection or any other error). The last two both land in the handlers. */
  datatype Reply<B> = Answered(status: int, body: B) | Undecodable | Raised

  const TRIES: nat := 3
  const RETRY_PAUSE: int := 10

  predicate Succeeds<B>(r: Reply<B>) { r.Answered? && r.status == 200 }

  /** The attempts from `attempt` on: the first 200 body, or None (the empty dict `{}`)
      when every remaining attempt fails, with the pauses slept along the way. */
  function FetchFrom<B>(net: nat -> Reply<B>, attempt: nat): (Option<B>, seq<int>)
    requires attempt <= TRIES
    decreases TRIES - attempt
  {
    if attempt == TRIES then (None, [])
    else if Succeeds(net(attempt)) then (Some(net(attempt).body), [])
    else
      var rest := FetchFrom(net, attempt + 1);
      (rest.0, (if attempt < TRIES - 1 then [RETRY_PAUSE] else []) + rest.1)
  }

  /** `fetch_coingecko`: up to three attempts, returning the first 200 body, sleeping ten
      seconds after each failed attempt except the last. */
  method FetchCoingecko<B>(net: nat -> Reply<B>) returns (body: Option<B>, pauses: seq<int>)
    ensures (body, pauses) == FetchFrom(net, 0)
  {
    pauses := [];
    var attempt: nat := 0;
    while attempt < TRIES
      invariant attempt <= TRIES
      invariant FetchFrom(net, 0).0 == FetchFrom(net, attempt).0
      invariant FetchFrom(net, 0).1 == pauses + FetchFrom(net, attempt).1
    {
      var r := net(attempt);
      if r.Answered? && r.status == 200 {
        assert pauses + FetchFrom(net, attempt).1 == pauses;
        return Some(r.body), pauses;
      }
      if attempt < TRIES - 1 {
        pauses := pauses + [RETRY_PAUSE];
      }
      attempt := attempt + 1;
    }
    assert pauses + FetchFrom(net, attempt).1 == pauses;
    body := None;
  }

  /** Attempt k is the first of those from `from` on that succeeds. */
  predicate FirstSuccessFrom<B>(net: nat -> Reply<B>, from: nat, k: nat)
  {
    from <= k < TRIES && Succeeds(net(k)) && forall j: nat :: from <= j < k ==> !Succeeds(net(j))
  }

  /** From attempt `from` on: a body comes back iff some attempt succeeds, and it is the
      body of the first that does, after one ten-second pause per failed attempt before
      it; otherwise `{}` after a pause between each two of the remaining attempts. */
  lemma {:induction false} FetchFromSpec<B>(net: nat -> Reply<B>, from: nat)
    requires from <= TRIES
    ensures forall p :: p in FetchFrom(net, from).1 ==> p == RETRY_PAUSE
    ensures FetchFrom(net, from).0.Some? ==>
              exists k: nat :: FirstSuccessFrom(net, from, k)
                               && FetchFrom(net, from).0 == Some(net(k).body)
                               && |FetchFrom(net, from).1| == k - from
    ensures FetchFrom(net, from).0.None? ==>
              (forall k: nat :: from <= k < TRIES ==> !Succeeds(net(k)))
              && |FetchFrom(net, from).1| == Max(0, TRIES - 1 - from)
    decreases TRIES - from
  {
    if from < TRIES && !Succeeds(net(from)) {
      FetchFromSpec(net, from + 1);
      if FetchFrom(net, from).0.Some? {
        var k: nat :| FirstSuccessFrom(net, from + 1, k)
                      && FetchFrom(net, from + 1).0 == Some(net(k).body)
                      && |FetchFrom(net, from + 1).1| == k - (from + 1);
        assert FirstSuccessFrom(net, from, k);
      }
    } else if from < TRIES {
      assert FirstSuccessFrom(net, from, from);
    }
  }

  /** The whole call: at most two pauses of ten seconds; a body iff one of the three
      attempts answers 200 with a JSON body, the first such. */
  lemma FetchCoingeckoSpec<B>(net: nat -> Reply<B>)
    ensures |FetchFrom(net, 0).1| <= TRIES - 1
    ensures FetchFrom(net, 0).0.Some? <==> exists k: nat :: k < TRIES && Succeeds(net(k))
    ensures FetchFrom(net, 0).0.Some? ==>
              exists k: nat :: FirstSuccessFrom(net, 0, k) && FetchFrom(net, 0).0 == Some(net(k).body)
  {
    FetchFromSpec(net, 0);
  }

  /** A 200 reply whose body is not JSON is handled like an exception: the attempt counts
      as failed, a pause follows unless it was the last, and the next attempt decides. */
  lemma UndecodableIsRetried<B>(net: nat -> Reply<B>, attempt: nat)
    requires attempt < TRIES && net(attempt).Undecodable?
    ensures FetchFrom(net, attempt).0 == FetchFrom(net, attempt + 1).0
    ensures FetchFrom(net, attempt).1
         == (if attempt < TRIES - 1 then [RETRY_PAUSE] else []) + FetchFrom(net, attempt + 1).1
  {
  }

  // ---------------------------------------------------------------------------
  // best_coin_signal
  // ---------------------------------------------------------------------------

  /** One entry of the `all` list (the rounded score included; the on-chain transaction
      counts are as fetched). */
  datatype CoinReport = CoinReport(name: string, symbol: string, price: Option<real>,
                                   cgChange: Option<real>, cgVolume: Option<real>,
                                   cmcPrice: Option<real>, cmcChange: Option<real>,
                                   cmcVolume: Option<real>, ethTx: nat, bscTx: nat,
                                   roundedScore: real)

  /** A coin's report with the unrounded score the loop compares. */
  datatype Candidate = Candidate(report: CoinReport, score: real)

  function ReportOf(c: Candidate): CoinReport { c.report }

  /** Index i holds the first maximal score. */
  ghost predicate IsFirstMax(cs: seq<Candidate>, i: int)
  {
    0 <= i < |cs|
    && (forall j :: 0 <= j < |cs| ==> cs[j].score <= cs[i].score)
    && (forall j :: 0 <= j < i ==> cs[j].score < cs[i].score)
  }

  /** `best_coin_signal`'s loop: append every report to `all`, and replace `best` whenever a
      score is strictly above the best so far (which starts at minus infinity). */
  method BestCoinSignal(coins: seq<Candidate>) returns (best: Option<CoinReport>, all: seq<CoinReport>)
    ensures all == MapSeq(coins, ReportOf)
    ensures best.None? <==> coins == []
    ensures best.Some? ==> exists i :: IsFirstMax(coins, i) && best.value == coins[i].report
  {
    best := None;
    var bestScore: real := 0.0;  // meaningful only once best is set
    ghost var bi := -1;
    all := [];
    var n := 0;
    while n < |coins|
      invariant 0 <= n <= |coins|
      invariant all == MapSeq(coins[..n], ReportOf)
      invariant best.None? <==> n == 0
      invariant best.Some? ==> IsFirstMax(coins[..n], bi) && best.value == coins[bi].report
                               && bestScore == coins[bi].score
    {
      var coin := coins[n];
      MapSeqConcat(coins[..n], [coin], ReportOf);
      assert coins[..n + 1] == coins[..n] + [coin];
      all := all + [coin.report];
      if best.None? || coin.score > bestScore {
        best, bestScore, bi := Some(coin.report), coin.score, n;
      }
      n := n + 1;
    }
    assert coins[..n] == coins;
  }

  // ---------------------------------------------------------------------------
  // detect_holder_growth
  // ---------------------------------------------------------------------------

  /** What `detect_holder_growth` learns about one market coin. `listedDaysAgo` is the whole
      days since its genesis date (computed against the clock), None when the detail has no
      genesis date, an empty one or one not in YYYY-MM-DD form. A contract is the empty
      string when the platform is missing or empty. The holder counts are those the
      Etherscan and BscScan calls give (now and a day ago), None on a failed call. */
  datatype HolderProbe = HolderProbe(name: string, symbol: string, price: Option<real>,
                                     listedDaysAgo: Option<int>,
                                     ethContract: string, bscContract: string,
                                     ethHoldersNow: Option<int>, ethHoldersBefore: Option<int>,
                                     bscHoldersNow: Option<int>, bscHoldersBefore: Option<int>)

  /** A row of the result. */
  datatype GrowthRow = GrowthRow(name: string, symbol: string, price: Option<real>,
                                 holderGrowth: int, holdersNow: int, listedDaysAgo: int)

  /** The holder counts consulted: Ethereum's when there is an Ethereum contract, else
      BSC's when there is a BSC contract, else none. */
  function HolderCounts(p: HolderProbe): (Option<int>, Option<int>)
  {
    if p.ethContract != "" then (p.ethHoldersNow, p.ethHoldersBefore)
    else if p.bscContract != "" then (p.bscHoldersNow, p.bscHoldersBefore)
    else (None, None)
  }

  /** The inclusion rule: listed at most `days` ago, both holder counts known, and holder
      growth of at least `minGrowth`. */
  predicate Included(p: HolderProbe, days: int, minGrowth: int)
  {
    p.listedDaysAgo.Some? && p.listedDaysAgo.value <= days
    && HolderCounts(p).0.Some? && HolderCounts(p).1.Some?
    && HolderCounts(p).0.value - HolderCounts(p).1.value >= minGrowth
  }

  function RowOf(p: HolderProbe): GrowthRow
  {
    var counts := HolderCounts(p);
    GrowthRow(p.name, p.symbol, p.price,
              (if counts.0.Some? then counts.0.value else 0) - (if counts.1.Some? then counts.1.value else 0),
              if counts.0.Some? then counts.0.value else 0,
              if p.listedDaysAgo.Some? then p.listedDaysAgo.value else 0)
  }

  /** `detect_holder_growth`: `coins` is None when the market listing does not answer 200.
      For each coin, skip it unless every condition holds, else append its row. */
  method DetectHolderGrowth(coins: Option<seq<HolderProbe>>, days: int, minGrowth: int)
    returns (result: seq<GrowthRow>)
    ensures coins.None? ==> result == []
    ensures coins.Some? ==> result == MapSeq(Filter(coins.value, p => Included(p, days, minGrowth)), RowOf)
  {
    if coins.None? {
      return [];
    }
    var ps := coins.value;
    result := [];
    var i := 0;
    while i < |ps|
      invariant 0 <= i <= |ps|
      invariant result == MapSeq(Filter(ps[..i], p => Included(p, days, minGrowth)), RowOf)
    {
      var coin := ps[i];
      GrowthRowsSnoc(ps, i, days, minGrowth);
      i := i + 1;
      if coin.listedDaysAgo.None? {
        continue;
      }
      var daysSince := coin.listedDaysAgo.value;
      if daysSince > days {
        continue;
      }
      var holdersNow: Option<int> := None;
      var holdersBefore: Option<int> := None;
      if coin.ethContract != "" {
        holdersNow, holdersBefore := coin.ethHoldersNow, coin.ethHoldersBefore;
      } else if coin.bscContract != "" {
        holdersNow, holdersBefore := coin.bscHoldersNow, coin.bscHoldersBefore;
      }
      if holdersNow.Some? && holdersBefore.Some? {
        var growth := holdersNow.value - holdersBefore.value;
        if growth >= minGrowth {
          result := result + [GrowthRow(coin.name, coin.symbol, coin.price, growth, holdersNow.value, daysSince)];
        }
      }
    }
    assert ps[..i] == ps;
  }

  lemma GrowthRowsSnoc(ps: seq<HolderProbe>, i: nat, days: int, minGrowth: int)
    requires i < |ps|
    ensures MapSeq(Filter(ps[..i + 1], p => Included(p, days, minGrowth)), RowOf)
            == MapSeq(Filter(ps[..i], p => Included(p, days, minGrowth)), RowOf)
               + (if Included(ps[i], days, minGrowth) then [RowOf(ps[i])] else [])
  {
    assert ps[..i + 1] == ps[..i] + [ps[i]];
    FilterConcat(ps[..i], [ps[i]], p => Included(p, days, minGrowth));
    MapSeqConcat(Filter(ps[..i], p => Included(p, days, minGrowth)),
                 Filter([ps[i]], p => Included(p, days, minGrowth)), RowOf);
  }

  /** Every row is one included coin: listed within `days`, with growth of at least
      `minGrowth` equal to holders now minus holders a day ago on the chain consulted; and
      every included coin has its row. */
  lemma HolderGrowthRows(ps: seq<HolderProbe>, days: int, minGrowth: int)
    ensures forall r :: r in MapSeq(Filter(ps, p => Included(p, days, minGrowth)), RowOf) ==>
              r.holderGrowth >= minGrowth && r.listedDaysAgo <= days
              && exists p :: p in ps && Included(p, days, minGrowth) && r == RowOf(p)
    ensures forall p :: p in ps && Included(p, days, minGrowth) ==>
              RowOf(p) in MapSeq(Filter(ps, p => Included(p, days, minGrowth)), RowOf)
  {
    var f := Filter(ps, p => Included(p, days, minGrowth));
    forall r | r in MapSeq(f, RowOf)
      ensures exists p :: p in ps && Included(p, days, minGrowth) && r == RowOf(p)
    {
      var i :| 0 <= i < |f| && MapSeq(f, RowOf)[i] == r;
      assert f[i] in f;
    }
    forall p | p in ps && Included(p, days, minGrowth)
      ensures RowOf(p) in MapSeq(f, RowOf)
    {
      var i :| 0 <= i < |f| && f[i] == p;
      assert MapSeq(f, RowOf)[i] == RowOf(p);
    }
  }

  /** An Ethereum contract decides the chain: the BSC counts are then never consulted, so
      a coin with an Ethereum contract whose counts fail is skipped even when BSC has
      counts. A coin with neither contract is never included. */
  lemma EthereumFirst(p: HolderProbe, days: int, minGrowth: int)
    ensures p.ethContract != "" ==>
              Included(p, days, minGrowth) == Included(p.(bscHoldersNow := None, bscHoldersBefore := None), days, minGrowth)
    ensures p.ethContract != "" && p.ethHoldersNow.None? ==> !Included(p, days, minGrowth)
    ensures p.ethContract == "" && p.bscContract == "" ==> !Included(p, days, minGrowth)
  {
  }

  // ---------------------------------------------------------------------------
  // aggregate_signals
  // ---------------------------------------------------------------------------

  /** A non-empty CoinGecko detail reply; a field is None when its key is missing or its
      value does not convert with `float`. */
  datatype CgDetail = CgDetail(price: Option<real>, change: Option<real>, volume: Option<real>)

  /** A non-empty CoinMarketCap quote reply, read at `data[symbol].quote.USD`. */
  datatype CmcQuote = CmcQuote(price: Option<real>, change: Option<real>)

  datatype Signal = StrongBuy | StrongSell | Neutral

  /** The five extracted values and the signal. */
  datatype Aggregate = Aggregate(cgPrice: Option<real>, cmcPrice: Option<real>,
                                 cgChange: Option<real>, cmcChange: Option<real>,
                                 volume: Option<real>, signal: Signal)

  /** Python truthiness of an optional number: present and non-zero. */
  predicate Truthy(x: Option<real>) { x.Some? && x.value != 0.0 }

  /** The if/elif/else of `aggregate_signals`. */
  function Classify(cgChange: Option<real>, cmcChange: Option<real>, volume: Option<real>): Signal
  {
    if Truthy(cgChange) && Truthy(cmcChange) && cgChange.value > 2.0 && cmcChange.value > 2.0
       && Truthy(volume) && volume.value > 1000000.0 then StrongBuy
    else if Truthy(cgChange) && Truthy(cmcChange) && cgChange.value < -2.0 && cmcChange.value < -2.0 then StrongSell
    else Neutral
  }

  /** `aggregate_signals` on the two replies (None is the empty dict a failed fetch gives):
      an empty reply gives None for its values; a missing or unconvertible field in a
      non-empty reply raises, and the handler sets all five values to None. */
  function AggregateSignals(cg: Option<CgDetail>, cmc: Option<CmcQuote>): Aggregate
  {
    var parseFails := (cg.Some? && (cg.value.price.None? || cg.value.change.None? || cg.value.volume.None?))
                      || (cmc.Some? && (cmc.value.price.None? || cmc.value.change.None?));
    if parseFails then Aggregate(None, None, None, None, None, Classify(None, None, None))
    else
      var cgPrice := if cg.Some? then cg.value.price else None;
      var cmcPrice := if cmc.Some? then cmc.value.price else None;
      var cgChange := if cg.Some? then cg.value.change else None;
      var cmcChange := if cmc.Some? then cmc.value.change else None;
      var volume := if cg.Some? then cg.value.volume else None;
      Aggregate(cgPrice, cmcPrice, cgChange, cmcChange, volume, Classify(cgChange, cmcChange, volume))
  }

  /** Strong buy iff both replies parse with both 24h changes above 2% and a volume above a
      million; strong sell iff both parse with both changes below -2%; neutral otherwise. */
  lemma AggregateSignalRule(cg: Option<CgDetail>, cmc: Option<CmcQuote>)
    ensures AggregateSignals(cg, cmc).signal == StrongBuy <==>
              cg.Some? && cmc.Some? && cg.value.price.Some? && cmc.value.price.Some?
              && cg.value.change.Some? && cmc.value.change.Some? && cg.value.volume.Some?
              && cg.value.change.value > 2.0 && cmc.value.change.value > 2.0
              && cg.value.volume.value > 1000000.0
    ensures AggregateSignals(cg, cmc).signal == StrongSell <==>
              cg.Some? && cmc.Some? && cg.value.price.Some? && cmc.value.price.Some?
              && cg.value.change.Some? && cmc.value.change.Some? && cg.value.volume.Some?
              && cg.value.change.value < -2.0 && cmc.value.change.value < -2.0
  {
  }

  /** A parse failure in either reply blanks every value and forces the neutral signal, and
      so does a failed fetch of either provider. */
  lemma ParseFailureIsNeutral(cg: Option<CgDetail>, cmc: Option<CmcQuote>)
    ensures (cg.Some? && (cg.value.price.None? || cg.value.change.None? || cg.value.volume.None?))
            || (cmc.Some? && (cmc.value.price.None? || cmc.value.change.None?)) ==>
              AggregateSignals(cg, cmc) == Aggregate(None, None, None, None, None, Neutral)
    ensures cg.None? || cmc.None? ==> AggregateSignals(cg, cmc).signal == Neutral
  {
  }
}
