/** The older, module-level scorer of crypto_scanner.py: `calculate_coin_score`, a sum of
    tier points over momentum, liquidity, rank and breakout capped at 100, and
    `find_best_coins`, which pre-filters, keeps the tokens scoring at least 30, sorts them
    best first and keeps the first top_n. */
module LegacyScorer {
  import opened Common

  /** The explanatory factors, one per tier that reports itself. */
  datatype Factor =
    | StrongMomentum1h | ModerateMomentum1h
    | ExceptionalGrowth24h | StrongGrowth24h | ModerateGrowth24h
    | ExcellentWeeklyTrend
    | ExceptionalLiquidity | ExcellentLiquidity | GoodLiquidity
    | HighTradingVolume
    | TopCoin | ReputableCoin | KnownCoin
    | NewBreakout
    | WhaleActivity

  /** The tier that reports a factor, numbered in evaluation order: 0 the 1h change,
      1 the 24h change, 2 the 7d change, 3 the volume/market-cap percentage, 4 the volume,
      5 the rank, 6 the breakout test, 7 the whale test. */
  function GroupOf(f: Factor): nat
  {
    match f
    case StrongMomentum1h | ModerateMomentum1h => 0
    case ExceptionalGrowth24h | StrongGrowth24h | ModerateGrowth24h => 1
    case ExcellentWeeklyTrend => 2
    case ExceptionalLiquidity | ExcellentLiquidity | GoodLiquidity => 3
    case HighTradingVolume => 4
    case TopCoin | ReputableCoin | KnownCoin => 5
    case NewBreakout => 6
    case WhaleActivity => 7
  }

  function Momentum1h(c: real): (t: Tier<Factor>)
    ensures 0 <= t.points <= 15
    ensures t.factor.Some? ==> GroupOf(t.factor.value) == 0
  {
    if c > 3.0 then Tier(15, Some(StrongMomentum1h))
    else if c > 1.0 then Tier(8, Some(ModerateMomentum1h))
    else if c > 0.0 then Tier(3, None)
    else Tier(0, None)
  }

  function Growth24h(c: real): (t: Tier<Factor>)
    ensures 0 <= t.points <= 15
    ensures t.factor.Some? ==> GroupOf(t.factor.value) == 1
  {
    if c > 10.0 then Tier(15, Some(ExceptionalGrowth24h))
    else if c > 5.0 then Tier(10, Some(StrongGrowth24h))
    else if c > 2.0 then Tier(5, Some(ModerateGrowth24h))
    else if c > 0.0 then Tier(2, None)
    else Tier(0, None)
  }

  function Weekly7d(c: real): (t: Tier<Factor>)
    ensures 0 <= t.points <= 5
    ensures t.factor.Some? ==> GroupOf(t.factor.value) == 2
  {
    if c > 20.0 then Tier(5, Some(ExcellentWeeklyTrend))
    else if c > 0.0 then Tier(2, None)
    else Tier(0, None)
  }

  function LiquidityRatio(volumeToCap: real): (t: Tier<Factor>)
    ensures 0 <= t.points <= 15
    ensures t.factor.Some? ==> GroupOf(t.factor.value) == 3
  {
    if volumeToCap > 30.0 then Tier(15, Some(ExceptionalLiquidity))
    else if volumeToCap > 15.0 then Tier(10, Some(ExcellentLiquidity))
    else if volumeToCap > 5.0 then Tier(5, Some(GoodLiquidity))
    else Tier(0, None)
  }

  function TradingVolume(volume: real): (t: Tier<Factor>)
    ensures 0 <= t.points <= 10
    ensures t.factor.Some? ==> GroupOf(t.factor.value) == 4
  {
    if volume > 500000000.0 then Tier(10, Some(HighTradingVolume))
    else if volume > 100000000.0 then Tier(5, None)
    else Tier(0, None)
  }

  function RankTier(rank: int): (t: Tier<Factor>)
    ensures 0 <= t.points <= 20
    ensures t.factor.Some? ==> GroupOf(t.factor.value) == 5
  {
    if rank <= 10 then Tier(20, Some(TopCoin))
    else if rank <= 30 then Tier(15, Some(ReputableCoin))
    else if rank <= 50 then Tier(10, Some(KnownCoin))
    else if rank <= 100 then Tier(5, None)
    else Tier(0, None)
  }

  /** A fresh move: the 1h change beats three times the average hourly 24h change. */
  function Breakout(change1h: real, change24h: real): (t: Tier<Factor>)
    ensures 0 <= t.points <= 10
    ensures t.factor.Some? ==> GroupOf(t.factor.value) == 6
  {
    if change1h > change24h / 24.0 * 3.0 then Tier(10, Some(NewBreakout)) else Tier(0, None)
  }

  /** Whale activity: a day's volume above half (strong) or a fifth of the market cap. */
  function Whale(volume: real, marketCap: real): (t: Tier<Factor>)
    ensures 0 <= t.points <= 10
    ensures t.factor.Some? ==> GroupOf(t.factor.value) == 7
  {
    if volume > marketCap * 0.5 then Tier(10, Some(WhaleActivity))
    else if volume > marketCap * 0.2 then Tier(5, None)
    else Tier(0, None)
  }

  /** The tiers in evaluation order. */
  function Tiers(c: Coin): (ts: seq<Tier<Factor>>)
    ensures |ts| == 8
    ensures forall k :: 0 <= k < 8 && ts[k].factor.Some? ==> GroupOf(ts[k].factor.value) == k
  {
    [Momentum1h(c.change1h), Growth24h(c.change24h), Weekly7d(c.change7d),
     LiquidityRatio(c.volumeToCap), TradingVolume(c.volume), RankTier(c.rank),
     Breakout(c.change1h, c.change24h), Whale(c.volume, c.marketCap)]
  }

  /** The uncapped sum of the tier points. */
  function RawPoints(c: Coin): (p: nat)
    ensures p <= 100
  {
    var ts := Tiers(c);
    ts[0].points + ts[1].points + ts[2].points + ts[3].points
    + ts[4].points + ts[5].points + ts[6].points + ts[7].points
  }

  /** The factors `calculate_coin_score` reports, in evaluation order. */
  function Factors(c: Coin): seq<Factor>
  {
    Emits(Tiers(c))
  }

  /** `calculate_coin_score`: the score, `min(score, 100)`, and the factors. */
  function CoinScore(c: Coin): (int, seq<Factor>)
  {
    (Min(RawPoints(c), 100), Factors(c))
  }

  /** The tier maxima are 15 + 15 + 5 + 15 + 10 + 20 + 10 + 10 = 100 (RawPoints), so the
      score is the plain sum of the tier points and the cap at 100 never binds. */
  lemma CapNeverBinds(c: Coin)
    ensures CoinScore(c).0 == RawPoints(c)
    ensures 0 <= CoinScore(c).0 <= 100
  {
  }

  /** The bound is reached: a top-10 coin rising on every horizon, with heavy volume,
      scores exactly 100. */
  lemma FullScoreReachable()
    ensures CoinScore(Coin("Bitcoin", "BTC", 1.0, 600000000.0, 20.0, 20.0, 30.0,
                           1000000000.0, 1, 60.0)).0 == 100
  {
  }

  /** A factor is reported iff the one tier that can report it fired with it. */
  lemma FactorFromItsTier(c: Coin, f: Factor)
    ensures GroupOf(f) < 8
    ensures f in Factors(c) <==> Tiers(c)[GroupOf(f)].factor == Some(f)
  {
    var ts := Tiers(c);
    if f in Factors(c) {
      var k :| 0 <= k < 8 && ts[k].factor == Some(f);
      assert GroupOf(f) == k;
    }
  }

  /** The top-coin factor appears iff the rank is at most 10 (ranks up to 100 still add
      points, and ranks 11 to 50 report other factors). */
  lemma TopCoinRule(c: Coin)
    ensures TopCoin in Factors(c) <==> c.rank <= 10
  {
    FactorFromItsTier(c, TopCoin);
  }

  /** The breakout factor appears iff the 1h change beats three hourly averages of the
      24h change. */
  lemma BreakoutRule(c: Coin)
    ensures NewBreakout in Factors(c) <==> c.change1h > c.change24h / 24.0 * 3.0
  {
    FactorFromItsTier(c, NewBreakout);
  }

  /** The whale factor appears iff the volume exceeds half the market cap (above a fifth
      still adds 5 points, silently). */
  lemma WhaleRule(c: Coin)
    ensures WhaleActivity in Factors(c) <==> c.volume > c.marketCap * 0.5
  {
    FactorFromItsTier(c, WhaleActivity);
  }

  // ---------------------------------------------------------------------------
  // find_best_coins
  // ---------------------------------------------------------------------------

  const SCORE_FLOOR: int := 30

  /** The dictionary `find_best_coins` keeps for one token. */
  datatype ScoredCoin = ScoredCoin(token: Coin, score: int, factors: seq<Factor>)

  function Scored(c: Coin): ScoredCoin
  {
    var (s, fs) := CoinScore(c);
    ScoredCoin(c, s, fs)
  }

  predicate Qualifies(sc: ScoredCoin)
  {
    Tradable(sc.token) && sc.score >= SCORE_FLOOR
  }

  /** `scored_coins` after the loop: the qualifying tokens, scored, in input order. */
  function Qualified(tokens: seq<Coin>): seq<ScoredCoin>
  {
    Filter(MapSeq(tokens, Scored), Qualifies)
  }

  function ScoreKey(sc: ScoredCoin): real { sc.score as real }

  /** What `find_best_coins` returns. */
  function BestCoins(tokens: seq<Coin>, topN: int): seq<ScoredCoin>
  {
    SliceTo(SortDesc(Qualified(tokens), ScoreKey), topN)
  }

  /** `find_best_coins`: score the tradable tokens one by one, keep those at or above the
      floor, then sort best first and keep top_n. */
  method FindBestCoins(tokens: seq<Coin>, topN: int) returns (best: seq<ScoredCoin>)
    ensures best == BestCoins(tokens, topN)
  {
    var scoredCoins: seq<ScoredCoin> := [];
    var i := 0;
    while i < |tokens|
      invariant 0 <= i <= |tokens|
      invariant scoredCoins == Filter(MapSeq(tokens[..i], Scored), Qualifies)
    {
      var token := tokens[i];
      QualifiedSnoc(tokens, i);
      if token.volume < TRADABLE_VOLUME || token.price <= 0.0 {
        i := i + 1;
        continue;
      }
      var (score, factors) := CoinScore(token);
      assert Scored(token) == ScoredCoin(token, score, factors);
      if score >= SCORE_FLOOR {
        scoredCoins := scoredCoins + [ScoredCoin(token, score, factors)];
      }
      i := i + 1;
    }
    assert tokens[..|tokens|] == tokens;
    best := SliceTo(SortDesc(scoredCoins, ScoreKey), topN);
  }

  lemma QualifiedSnoc(tokens: seq<Coin>, i: nat)
    requires i < |tokens|
    ensures Filter(MapSeq(tokens[..i + 1], Scored), Qualifies)
         == Filter(MapSeq(tokens[..i], Scored), Qualifies)
            + (if Qualifies(Scored(tokens[i])) then [Scored(tokens[i])] else [])
  {
    assert tokens[..i + 1] == tokens[..i] + [tokens[i]];
    MapSeqConcat(tokens[..i], [tokens[i]], Scored);
    FilterConcat(MapSeq(tokens[..i], Scored), [Scored(tokens[i])], Qualifies);
  }

  /** A scored entry is qualifying exactly when it is the score of a tradable input token
      reaching the floor. */
  lemma QualifiedMembers(tokens: seq<Coin>, sc: ScoredCoin)
    ensures sc in Qualified(tokens) <==>
              sc.token in tokens && sc == Scored(sc.token) && Tradable(sc.token) && sc.score >= SCORE_FLOOR
  {
    var m := MapSeq(tokens, Scored);
    if sc in m {
      var j :| 0 <= j < |m| && m[j] == sc;
      assert tokens[j] == sc.token;
    }
    if sc.token in tokens && sc == Scored(sc.token) {
      var j :| 0 <= j < |tokens| && tokens[j] == sc.token;
      assert m[j] == sc;
    }
  }

  /** The result holds at most top_n entries, each a tradable input token with its own
      score at or above 30, best first; every qualifying token left out scores no higher
      than any token kept. */
  lemma BestCoinsRanking(tokens: seq<Coin>, topN: int)
    ensures topN >= 0 ==> |BestCoins(tokens, topN)| == Min(topN, |Qualified(tokens)|)
    ensures forall sc :: sc in BestCoins(tokens, topN) ==>
              sc.token in tokens && sc == Scored(sc.token) && Tradable(sc.token) && sc.score >= SCORE_FLOOR
    ensures forall x, y :: 0 <= x < y < |BestCoins(tokens, topN)| ==>
              BestCoins(tokens, topN)[x].score >= BestCoins(tokens, topN)[y].score
    ensures forall c, sc :: c in tokens && Tradable(c) && CoinScore(c).0 >= SCORE_FLOOR
              && Scored(c) !in BestCoins(tokens, topN) && sc in BestCoins(tokens, topN)
              ==> sc.score >= CoinScore(c).0
  {
    var q := Qualified(tokens);
    var r := BestCoins(tokens, topN);
    TopOfSortDesc(q, ScoreKey, topN);
    forall sc | sc in r
      ensures sc.token in tokens && sc == Scored(sc.token) && Tradable(sc.token) && sc.score >= SCORE_FLOOR
    {
      QualifiedMembers(tokens, sc);
    }
    forall x, y | 0 <= x < y < |r| ensures r[x].score >= r[y].score {
      assert ScoreKey(r[x]) >= ScoreKey(r[y]);
    }
    forall c, sc | c in tokens && Tradable(c) && CoinScore(c).0 >= SCORE_FLOOR && Scored(c) !in r && sc in r
      ensures sc.score >= CoinScore(c).0
    {
      QualifiedMembers(tokens, Scored(c));
      assert ScoreKey(sc) >= ScoreKey(Scored(c));
    }
  }

  /** Ties keep input order: the entries with one score appear as they came. */
  lemma BestCoinsStable(tokens: seq<Coin>, v: int)
    ensures Filter(SortDesc(Qualified(tokens), ScoreKey), (sc: ScoredCoin) => sc.score == v)
         == Filter(Qualified(tokens), (sc: ScoredCoin) => sc.score == v)
  {
    SortDescStable(Qualified(tokens), ScoreKey, (sc: ScoredCoin) => sc.score == v, v as real);
  }
}
