/** GrowthPotentialScanner of growth_scanner.py: a growth-potential score over price
    trend, trading volume, rank and breakout signs, and the scan that keeps every
    tradable coin reaching the scanner's threshold, best first. */
module GrowthScanner {
  import opened Common

  /** The explanatory factors, one per tier that reports itself. */
  datatype Factor =
    | PositiveTrend1h
    | StrongGrowth24h | ModerateGrowth24h
    | PositiveWeeklyTrend
    | HighTradingVolume | GoodTradingVolume
    | TopCoin | ReputableCoin
    | NewMomentum
    | WhaleActivity

  /** The tier that reports a factor, numbered in evaluation order: 0 the 1h change,
      1 the 24h change, 2 the 7d change, 3 the volume/market-cap percentage, 4 the rank,
      5 the momentum test, 6 the whale test. */
  function GroupOf(f: Factor): nat
  {
    match f
    case PositiveTrend1h => 0
    case StrongGrowth24h | ModerateGrowth24h => 1
    case PositiveWeeklyTrend => 2
    case HighTradingVolume | GoodTradingVolume => 3
    case TopCoin | ReputableCoin => 4
    case NewMomentum => 5
    case WhaleActivity => 6
  }

  function Trend1h(c: real): (t: Tier<Factor>)
    ensures 0 <= t.points <= 15
    ensures t.factor.Some? ==> GroupOf(t.factor.value) == 0
  {
    if c > 2.0 then Tier(15, Some(PositiveTrend1h))
    else if c > 0.0 then Tier(8, None)
    else Tier(0, None)
  }

  function Growth24h(c: real): (t: Tier<Factor>)
    ensures 0 <= t.points <= 15
    ensures t.factor.Some? ==> GroupOf(t.factor.value) == 1
  {
    if c > 5.0 then Tier(15, Some(StrongGrowth24h))
    else if c > 1.0 then Tier(10, Some(ModerateGrowth24h))
    else if c > 0.0 then Tier(5, None)
    else Tier(0, None)
  }

  function Weekly7d(c: real): (t: Tier<Factor>)
    ensures 0 <= t.points <= 10
    ensures t.factor.Some? ==> GroupOf(t.factor.value) == 2
  {
    if c > 10.0 then Tier(10, Some(PositiveWeeklyTrend))
    else if c > 0.0 then Tier(5, None)
    else Tier(0, None)
  }

  function TradingVolume(volumeToCap: real): (t: Tier<Factor>)
    ensures 0 <= t.points <= 15
    ensures t.factor.Some? ==> GroupOf(t.factor.value) == 3
  {
    if volumeToCap > 20.0 then Tier(15, Some(HighTradingVolume))
    else if volumeToCap > 10.0 then Tier(10, Some(GoodTradingVolume))
    else if volumeToCap > 5.0 then Tier(5, None)
    else Tier(0, None)
  }

  function RankTier(rank: int): (t: Tier<Factor>)
    ensures 0 <= t.points <= 15
    ensures t.factor.Some? ==> GroupOf(t.factor.value) == 4
  {
    if rank <= 20 then Tier(15, Some(TopCoin))
    else if rank <= 50 then Tier(10, Some(ReputableCoin))
    else if rank <= 100 then Tier(5, None)
    else Tier(0, None)
  }

  /** New momentum: the 1h change beats twice the average hourly 24h change. */
  function Momentum(change1h: real, change24h: real): (t: Tier<Factor>)
    ensures 0 <= t.points <= 10
    ensures t.factor.Some? ==> GroupOf(t.factor.value) == 5
  {
    if change1h > change24h / 24.0 * 2.0 then Tier(10, Some(NewMomentum)) else Tier(0, None)
  }

  /** Whale activity: more than 100 million of volume (more than 50 million adds 5). */
  function Whale(volume: real): (t: Tier<Factor>)
    ensures 0 <= t.points <= 10
    ensures t.factor.Some? ==> GroupOf(t.factor.value) == 6
  {
    if volume > 100000000.0 then Tier(10, Some(WhaleActivity))
    else if volume > 50000000.0 then Tier(5, None)
    else Tier(0, None)
  }

  /** The tiers of `calculate_growth_potential`, one per if/elif chain, in evaluation order. */
  function Tiers(c: Coin): (ts: seq<Tier<Factor>>)
    ensures |ts| == 7
    ensures forall k :: 0 <= k < 7 && ts[k].factor.Some? ==> GroupOf(ts[k].factor.value) == k
  {
    [Trend1h(c.change1h), Growth24h(c.change24h), Weekly7d(c.change7d),
     TradingVolume(c.volumeToCap), RankTier(c.rank),
     Momentum(c.change1h, c.change24h), Whale(c.volume)]
  }

  /** The uncapped sum of the tier points: at most 15 + 15 + 10 + 15 + 15 + 10 + 10 = 90. */
  function RawPoints(c: Coin): (p: nat)
    ensures p <= 90
  {
    var ts := Tiers(c);
    ts[0].points + ts[1].points + ts[2].points + ts[3].points + ts[4].points + ts[5].points + ts[6].points
  }

  function Factors(c: Coin): seq<Factor>
  {
    Emits(Tiers(c))
  }

  /** `calculate_growth_potential`: `min(score, 100)` and the factors. */
  function GrowthPotential(c: Coin): (int, seq<Factor>)
  {
    (Min(RawPoints(c), 100), Factors(c))
  }

  /** The score is the plain sum of the tier points, never above 90: the cap at 100 never
      binds, and no coin reaches the "🔥" band of 90 unless every tier is at its maximum. */
  lemma GrowthBounds(c: Coin)
    ensures GrowthPotential(c).0 == RawPoints(c)
    ensures 0 <= GrowthPotential(c).0 <= 90
    ensures GrowthPotential(c).0 >= 90 ==>
              Tiers(c)[0].points == 15 && Tiers(c)[1].points == 15 && Tiers(c)[2].points == 10
              && Tiers(c)[3].points == 15 && Tiers(c)[4].points == 15 && Tiers(c)[5].points == 10
              && Tiers(c)[6].points == 10
  {
  }

  /** The bound is reached. */
  lemma GrowthMaximumReachable()
    ensures GrowthPotential(Coin("Ether", "ETH", 1.0, 200000000.0, 3.0, 6.0, 11.0,
                                 1000000000.0, 2, 21.0)).0 == 90
  {
  }

  /** A factor is reported iff the one tier that can report it fired with it. */
  lemma FactorFromItsTier(c: Coin, f: Factor)
    ensures GroupOf(f) < 7
    ensures f in Factors(c) <==> Tiers(c)[GroupOf(f)].factor == Some(f)
  {
    var ts := Tiers(c);
    if f in Factors(c) {
      var k :| 0 <= k < 7 && ts[k].factor == Some(f);
      assert GroupOf(f) == k;
    }
  }

  /** The momentum bonus: its factor appears iff the 1h change exceeds twice the average
      hourly 24h change, and then it adds 10 points. */
  lemma MomentumRule(c: Coin)
    ensures NewMomentum in Factors(c) <==> c.change1h > c.change24h / 24.0 * 2.0
    ensures NewMomentum in Factors(c) ==> Tiers(c)[5].points == 10
  {
    FactorFromItsTier(c, NewMomentum);
  }

  /** Within one if/elif chain at most one branch counts: the 1h trend adds 15 above 2%,
      8 for any smaller rise, and nothing otherwise. */
  lemma OneHourRule(c: Coin)
    ensures Tiers(c)[0].points == 15 <==> c.change1h > 2.0
    ensures Tiers(c)[0].points == 8 <==> 0.0 < c.change1h <= 2.0
    ensures Tiers(c)[0].points == 0 <==> c.change1h <= 0.0
    ensures PositiveTrend1h in Factors(c) <==> c.change1h > 2.0
  {
    FactorFromItsTier(c, PositiveTrend1h);
  }

  // ---------------------------------------------------------------------------
  // analyze_growth_potential
  // ---------------------------------------------------------------------------

  /** The dictionary kept for a coin with growth potential (its timestamp is not modelled). */
  datatype GrowthCoin = GrowthCoin(token: Coin, score: int, factors: seq<Factor>)

  function Scored(c: Coin): GrowthCoin
  {
    GrowthCoin(c, GrowthPotential(c).0, GrowthPotential(c).1)
  }

  function ScoreKey(g: GrowthCoin): real { g.score as real }

  /** The coins the loop keeps, scored, in input order. */
  function Qualified(tokens: seq<Coin>, threshold: int): seq<GrowthCoin>
  {
    Filter(MapSeq(tokens, Scored), (g: GrowthCoin) => Tradable(g.token) && g.score >= threshold)
  }

  /** What `analyze_growth_potential` returns: every kept coin, best first, not truncated. */
  function GrowthRanking(tokens: seq<Coin>, threshold: int): seq<GrowthCoin>
  {
    SortDesc(Qualified(tokens, threshold), ScoreKey)
  }

  lemma QualifiedSnoc(tokens: seq<Coin>, i: nat, threshold: int)
    requires i < |tokens|
    ensures Qualified(tokens[..i + 1], threshold)
         == Qualified(tokens[..i], threshold)
            + (if Tradable(tokens[i]) && Scored(tokens[i]).score >= threshold then [Scored(tokens[i])] else [])
  {
    assert tokens[..i + 1] == tokens[..i] + [tokens[i]];
    MapSeqConcat(tokens[..i], [tokens[i]], Scored);
    FilterConcat(MapSeq(tokens[..i], Scored), [Scored(tokens[i])],
                 (g: GrowthCoin) => Tradable(g.token) && g.score >= threshold);
  }

  /** A scored entry is kept exactly when it is the score of a tradable input coin
      reaching the threshold. */
  lemma QualifiedMembers(tokens: seq<Coin>, threshold: int, g: GrowthCoin)
    ensures g in Qualified(tokens, threshold) <==>
              g.token in tokens && g == Scored(g.token) && Tradable(g.token) && g.score >= threshold
  {
    var m := MapSeq(tokens, Scored);
    if g in m {
      var j :| 0 <= j < |m| && m[j] == g;
      assert tokens[j] == g.token;
    }
    if g.token in tokens && g == Scored(g.token) {
      var j :| 0 <= j < |tokens| && tokens[j] == g.token;
      assert m[j] == g;
    }
  }

  /** The ranking holds exactly the tradable coins scoring at least the threshold, each
      once per occurrence in the input, in non-increasing score order; a threshold above
      90 leaves it empty. */
  lemma GrowthRankingSpec(tokens: seq<Coin>, threshold: int)
    ensures multiset(GrowthRanking(tokens, threshold)) == multiset(Qualified(tokens, threshold))
    ensures forall g :: g in GrowthRanking(tokens, threshold) <==>
              g.token in tokens && g == Scored(g.token) && Tradable(g.token) && g.score >= threshold
    ensures SortedDesc(GrowthRanking(tokens, threshold), ScoreKey)
    ensures threshold > 90 ==> GrowthRanking(tokens, threshold) == []
  {
    var q := Qualified(tokens, threshold);
    SortDescPermutes(q, ScoreKey);
    SortDescSorted(q, ScoreKey);
    forall g ensures g in GrowthRanking(tokens, threshold) <==> g in q {
      assert g in GrowthRanking(tokens, threshold) <==> g in multiset(GrowthRanking(tokens, threshold));
    }
    forall g ensures g in q <==>
        g.token in tokens && g == Scored(g.token) && Tradable(g.token) && g.score >= threshold {
      QualifiedMembers(tokens, threshold, g);
    }
    if threshold > 90 && q != [] {
      GrowthBounds(q[0].token);
      assert false;
    }
  }

  /** Ties keep input order. */
  lemma GrowthRankingStable(tokens: seq<Coin>, threshold: int, v: int)
    ensures Filter(GrowthRanking(tokens, threshold), (g: GrowthCoin) => g.score == v)
         == Filter(Qualified(tokens, threshold), (g: GrowthCoin) => g.score == v)
  {
    SortDescStable(Qualified(tokens, threshold), ScoreKey, (g: GrowthCoin) => g.score == v, v as real);
  }

  /** The scanner; its threshold is fixed when it is built. */
  class GrowthPotentialScanner {
    const growthThreshold: int

    constructor ()
      ensures growthThreshold == 70
    {
      growthThreshold := 70;
    }

    /** `analyze_growth_potential`: score the tradable coins one by one, keep those at or
        above the threshold, then sort the list in place, best first. */
    method AnalyzeGrowthPotential(tokens: seq<Coin>) returns (growthCoins: seq<GrowthCoin>)
      ensures growthCoins == GrowthRanking(tokens, growthThreshold)
    {
      growthCoins := [];
      var i := 0;
      while i < |tokens|
        invariant 0 <= i <= |tokens|
        invariant growthCoins == Qualified(tokens[..i], growthThreshold)
      {
        var token := tokens[i];
        QualifiedSnoc(tokens, i, growthThreshold);
        if token.volume < TRADABLE_VOLUME || token.price <= 0.0 {
          i := i + 1;
          continue;
        }
        var (score, factors) := GrowthPotential(token);
        if score >= growthThreshold {
          growthCoins := growthCoins + [GrowthCoin(token, score, factors)];
        }
        i := i + 1;
      }
      assert tokens[..|tokens|] == tokens;
      growthCoins := SortDesc(growthCoins, ScoreKey);
    }
  }
}
