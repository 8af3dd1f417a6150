/** What AdvancedCryptoScanner computes about one token: the eligibility gate, the
    indicator signals, the four-part capped score with its factor list, and the
    risk tier. The imperative methods of AdvancedScanner are proved against these. */
module TokenScoring {
  import opened Common

  // SETTINGS of the scanner ('min_liquidity' is configured but never read).
  const MIN_VOLUME: real := 1000000.0
  const MAX_VOLATILITY: real := 20.0
  const RSI_OVERBOUGHT: real := 70.0
  const RSI_OVERSOLD: real := 30.0
  const MAX_DRAWDOWN: real := 15.0
  const MIN_MARKET_CAP: real := 10000000.0
  const MAX_MARKET_CAP: real := 10000000000.0

  /** The explanatory factors, one per scoring tier that reports itself. */
  datatype Factor =
    | StrongGrowth1h | ModerateGrowth1h
    | ExplosiveGrowth24h | StrongGrowth24h | ModerateGrowth24h
    | StrongWeeklyUptrend | WeeklyUptrend
    | ExceptionalLiquidity | HighLiquidity | AdequateLiquidity
    | VeryHighVolume | HighVolume
    | RsiOversoldFactor | RsiOverboughtFactor | MacdPositive
    | SharpDrop

  /** The qualitative signals, independent of the score. */
  datatype Signal =
    | HighVolatility(change24h: real)
    | Overbought(rsi: real) | Oversold(rsi: real)
    | MacdBullishCross | MacdBearishCross
    | NearUpperBand | NearLowerBand

  /** Risk tiers: "کم" (low), "متوسط" (medium), "زیاد" (high). */
  datatype RiskLevel = Low | Medium | High

  /** The tier that reports a factor, numbered in evaluation order: 0 the 1h change,
      1 the 24h change, 2 the 7d change, 3 the volume/market-cap ratio, 4 the volume,
      5 the RSI, 6 the MACD, 7 the drawdown. */
  function TierOf(f: Factor): (k: nat)
    ensures k < 8
  {
    match f
    case StrongGrowth1h | ModerateGrowth1h => 0
    case ExplosiveGrowth24h | StrongGrowth24h | ModerateGrowth24h => 1
    case StrongWeeklyUptrend | WeeklyUptrend => 2
    case ExceptionalLiquidity | HighLiquidity | AdequateLiquidity => 3
    case VeryHighVolume | HighVolume => 4
    case RsiOversoldFactor | RsiOverboughtFactor => 5
    case MacdPositive => 6
    case SharpDrop => 7
  }

  /** The group a factor belongs to, in evaluation order:
      0 momentum, 1 liquidity, 2 technical analysis, 3 risk. */
  function FactorGroup(f: Factor): nat
  {
    var k := TierOf(f);
    if k <= 2 then 0 else if k <= 4 then 1 else if k <= 6 then 2 else 3
  }

  // ---------------------------------------------------------------------------
  // Eligibility gate
  // ---------------------------------------------------------------------------

  /** A token is scored only with enough volume and a market cap inside the band;
      both bounds of the band are inclusive. */
  predicate Eligible(volume: real, marketCap: real)
  {
    volume >= MIN_VOLUME && MIN_MARKET_CAP <= marketCap <= MAX_MARKET_CAP
  }

  /** `_validate_token`'s verdict on a token: Some(true) accepts it, Some(false) rejects
      it, and None is the TypeError an undefined market cap raises once the volume test
      has passed. Both bounds of the market-cap band are inclusive. */
  function Validate(volume: real, marketCap: Option<real>): (r: Option<bool>)
    ensures r == Some(true) <==> marketCap.Some? && Eligible(volume, marketCap.value)
    ensures r.None? <==> volume >= MIN_VOLUME && marketCap.None?
    ensures r == Some(false) <==>
              (volume < MIN_VOLUME
               || (marketCap.Some? && (marketCap.value < MIN_MARKET_CAP || marketCap.value > MAX_MARKET_CAP)))
  {
    if volume < MIN_VOLUME then Some(false)
    else if marketCap.None? then None
    else if marketCap.value < MIN_MARKET_CAP then Some(false)
    else if marketCap.value > MAX_MARKET_CAP then Some(false)
    else Some(true)
  }

  /** The warning signal the gate adds for a token it accepts: only a 24h move beyond
      the volatility bound, and never a rejection. */
  function VolatilityWarning(change24h: real): (w: seq<Signal>)
    ensures |w| <= 1
    ensures w != [] <==> change24h > MAX_VOLATILITY || change24h < -MAX_VOLATILITY
  {
    if Abs(change24h) > MAX_VOLATILITY then [HighVolatility(change24h)] else []
  }

  function Abs(x: real): real { if x < 0.0 then -x else x }

  // ---------------------------------------------------------------------------
  // Indicator signals
  // ---------------------------------------------------------------------------

  /** The last two rows of the indicator frame of one symbol. An absent value stands for
      an indicator that is not yet defined (NaN), for which every comparison is false. */
  datatype IndicatorTail = IndicatorTail(
    rsi: Option<real>,
    macd: Option<real>, macdSignal: Option<real>,
    prevMacd: Option<real>, prevMacdSignal: Option<real>,
    bbHigh: Option<real>, bbLow: Option<real>)

  /** `a > b` on possibly-undefined values. */
  predicate Above(a: Option<real>, b: Option<real>)
  {
    a.Some? && b.Some? && a.value > b.value
  }

  /** `a <= b` on possibly-undefined values. */
  predicate AtMost(a: Option<real>, b: Option<real>)
  {
    a.Some? && b.Some? && a.value <= b.value
  }

  function RsiSignals(rsi: Option<real>): seq<Signal>
  {
    if rsi.Some? && rsi.value > RSI_OVERBOUGHT then [Overbought(rsi.value)]
    else if rsi.Some? && rsi.value < RSI_OVERSOLD then [Oversold(rsi.value)]
    else []
  }

  /** A crossover needs the trend line and its signal line defined at both of the last two points. */
  function CrossSignals(t: IndicatorTail): seq<Signal>
  {
    if Above(t.macd, t.macdSignal) && AtMost(t.prevMacd, t.prevMacdSignal) then [MacdBullishCross]
    else if Above(t.macdSignal, t.macd) && AtMost(t.prevMacdSignal, t.prevMacd) then [MacdBearishCross]
    else []
  }

  function BandSignals(price: real, t: IndicatorTail): seq<Signal>
  {
    if t.bbHigh.Some? && price >= t.bbHigh.value then [NearUpperBand]
    else if t.bbLow.Some? && price <= t.bbLow.value then [NearLowerBand]
    else []
  }

  /** The signals `_calculate_technical_indicators` appends, in order. */
  function IndicatorSignals(price: real, t: IndicatorTail): seq<Signal>
  {
    RsiSignals(t.rsi) + CrossSignals(t) + BandSignals(price, t)
  }

  /** A bullish crossover is reported exactly when the trend line moved from at or below
      its signal line to strictly above it, both points being defined; the two
      crossovers never come together, and there is at most one signal per indicator. */
  lemma CrossoverRule(price: real, t: IndicatorTail)
    ensures MacdBullishCross in IndicatorSignals(price, t)
        <==> t.macd.Some? && t.macdSignal.Some? && t.prevMacd.Some? && t.prevMacdSignal.Some?
             && t.macd.value > t.macdSignal.value && t.prevMacd.value <= t.prevMacdSignal.value
    ensures MacdBearishCross in IndicatorSignals(price, t)
        <==> t.macd.Some? && t.macdSignal.Some? && t.prevMacd.Some? && t.prevMacdSignal.Some?
             && t.macd.value < t.macdSignal.value && t.prevMacd.value >= t.prevMacdSignal.value
    ensures !(MacdBullishCross in IndicatorSignals(price, t) && MacdBearishCross in IndicatorSignals(price, t))
    ensures |IndicatorSignals(price, t)| <= 3
  {
    var s := IndicatorSignals(price, t);
    assert s == RsiSignals(t.rsi) + CrossSignals(t) + BandSignals(price, t);
    assert MacdBullishCross !in RsiSignals(t.rsi) && MacdBullishCross !in BandSignals(price, t);
    assert MacdBearishCross !in RsiSignals(t.rsi) && MacdBearishCross !in BandSignals(price, t);
  }

  /** An undefined indicator never produces a signal and never changes the score. */
  lemma UndefinedIndicatorsAreSilent(price: real, t: IndicatorTail)
    requires t.rsi.None? && t.macd.None? && t.bbHigh.None? && t.bbLow.None?
    ensures IndicatorSignals(price, t) == []
  {
  }

  // ---------------------------------------------------------------------------
  // The four-part score
  // ---------------------------------------------------------------------------

  /** The fields of a token that the score reads. */
  datatype ScoreInput = ScoreInput(change1h: real, change24h: real, change7d: real,
                                   volume: real, marketCap: real,
                                   rsi: Option<real>, macd: Option<real>)

  function Change1hTier(c: real): (t: Tier<Factor>)
    ensures t.factor.Some? ==> TierOf(t.factor.value) == 0
  {
    if c > 5.0 then Tier(12, Some(StrongGrowth1h))
    else if c > 2.0 then Tier(8, Some(ModerateGrowth1h))
    else if c > 0.0 then Tier(3, None)
    else Tier(0, None)
  }

  function Change24hTier(c: real): (t: Tier<Factor>)
    ensures t.factor.Some? ==> TierOf(t.factor.value) == 1
  {
    if c > 15.0 then Tier(12, Some(ExplosiveGrowth24h))
    else if c > 7.0 then Tier(8, Some(StrongGrowth24h))
    else if c > 3.0 then Tier(4, Some(ModerateGrowth24h))
    else Tier(0, None)
  }

  function Change7dTier(c: real): (t: Tier<Factor>)
    ensures t.factor.Some? ==> TierOf(t.factor.value) == 2
  {
    if c > 30.0 then Tier(6, Some(StrongWeeklyUptrend))
    else if c > 15.0 then Tier(4, Some(WeeklyUptrend))
    else if c > 0.0 then Tier(2, None)
    else Tier(0, None)
  }

  /** Volume over market cap, taken as 0 when the market cap is not positive. */
  function VolumeToMarketCap(volume: real, marketCap: real): (r: real)
    ensures marketCap <= 0.0 ==> r == 0.0
  {
    if marketCap > 0.0 then volume / marketCap else 0.0
  }

  /** The ratio times the market cap gives back the volume. */
  lemma VolumeToMarketCapRatio(volume: real, marketCap: real)
    requires marketCap > 0.0
    ensures VolumeToMarketCap(volume, marketCap) * marketCap == volume
  {
  }

  function RatioTier(ratio: real): (t: Tier<Factor>)
    ensures t.factor.Some? ==> TierOf(t.factor.value) == 3
  {
    if ratio > 0.5 then Tier(15, Some(ExceptionalLiquidity))
    else if ratio > 0.2 then Tier(10, Some(HighLiquidity))
    else if ratio > 0.1 then Tier(5, Some(AdequateLiquidity))
    else Tier(0, None)
  }

  function VolumeTier(volume: real): (t: Tier<Factor>)
    ensures t.factor.Some? ==> TierOf(t.factor.value) == 4
  {
    if volume > 1000000000.0 then Tier(10, Some(VeryHighVolume))
    else if volume > 100000000.0 then Tier(6, Some(HighVolume))
    else if volume > 10000000.0 then Tier(3, None)
    else Tier(0, None)
  }

  function RsiTier(rsi: Option<real>): (t: Tier<Factor>)
    ensures t.factor.Some? ==> TierOf(t.factor.value) == 5
  {
    if rsi.Some? && rsi.value < 30.0 then Tier(8, Some(RsiOversoldFactor))
    else if rsi.Some? && rsi.value > 70.0 then Tier(-5, Some(RsiOverboughtFactor))
    else Tier(0, None)
  }

  function MacdTier(macd: Option<real>): (t: Tier<Factor>)
    ensures t.factor.Some? ==> TierOf(t.factor.value) == 6
  {
    if macd.None? then Tier(0, None)
    else if macd.value > 0.0 then Tier(5, Some(MacdPositive))
    else Tier(-3, None)
  }

  function DrawdownTier(change24h: real): (t: Tier<Factor>)
    ensures t.factor.Some? ==> TierOf(t.factor.value) == 7
  {
    if change24h < -MAX_DRAWDOWN then Tier(-10, Some(SharpDrop)) else Tier(0, None)
  }

  /** Momentum: the 1h, 24h and 7d tiers add up; at most 12 + 12 + 6. */
  function MomentumPoints(i: ScoreInput): (p: int)
    ensures 0 <= p <= 30
  {
    Change1hTier(i.change1h).points + Change24hTier(i.change24h).points + Change7dTier(i.change7d).points
  }

  /** Liquidity: the ratio tier and the volume tier add up; at most 15 + 10. */
  function LiquidityPoints(i: ScoreInput): (p: int)
    ensures 0 <= p <= 25
  {
    RatioTier(VolumeToMarketCap(i.volume, i.marketCap)).points + VolumeTier(i.volume).points
  }

  /** Technical analysis: the RSI term is in [-5, 8] and the MACD term in [-3, 5]. */
  function TechnicalPoints(i: ScoreInput): (p: int)
    ensures -8 <= p <= 13
  {
    RsiTier(i.rsi).points + MacdTier(i.macd).points
  }

  function RiskPoints(i: ScoreInput): (p: int)
    ensures p == 0 || p == -10
  {
    DrawdownTier(i.change24h).points
  }

  function Clamp(x: int, lo: int, hi: int): int
    requires lo <= hi
  {
    if x < lo then lo else if x > hi then hi else x
  }

  /** The score `_calculate_final_score` assigns: three capped sub-scores plus the risk
      adjustment, clamped to [0, 100]. */
  function FinalScore(i: ScoreInput): (s: int)
    ensures 0 <= s <= 100
  {
    Clamp(Min(MomentumPoints(i), 30) + Min(LiquidityPoints(i), 25) + Min(TechnicalPoints(i), 25)
          + RiskPoints(i), 0, 100)
  }

  /** The factor list `_calculate_final_score` assigns, in evaluation order. */
  function FinalFactors(i: ScoreInput): seq<Factor>
  {
    Emit(Change1hTier(i.change1h)) + Emit(Change24hTier(i.change24h)) + Emit(Change7dTier(i.change7d))
    + Emit(RatioTier(VolumeToMarketCap(i.volume, i.marketCap))) + Emit(VolumeTier(i.volume))
    + Emit(RsiTier(i.rsi)) + Emit(MacdTier(i.macd))
    + Emit(DrawdownTier(i.change24h))
  }


  /** None of the caps (30, 25, 25) or the upper clamp ever binds: the score is the plain
      sum of the four parts floored at 0, and never exceeds 30 + 25 + 13 = 68. */
  lemma CapsNeverBind(i: ScoreInput)
    ensures FinalScore(i) == Max(0, MomentumPoints(i) + LiquidityPoints(i) + TechnicalPoints(i) + RiskPoints(i))
    ensures FinalScore(i) <= 68
  {
  }

  /** The k-th tier of a token, in evaluation order. */
  function TierAt(i: ScoreInput, k: nat): (t: Tier<Factor>)
    requires k < 8
    ensures t.factor.Some? ==> TierOf(t.factor.value) == k
  {
    if k == 0 then Change1hTier(i.change1h)
    else if k == 1 then Change24hTier(i.change24h)
    else if k == 2 then Change7dTier(i.change7d)
    else if k == 3 then RatioTier(VolumeToMarketCap(i.volume, i.marketCap))
    else if k == 4 then VolumeTier(i.volume)
    else if k == 5 then RsiTier(i.rsi)
    else if k == 6 then MacdTier(i.macd)
    else DrawdownTier(i.change24h)
  }

  /** Factors strictly ordered by the tier that reported them. */
  ghost predicate StrictlyByTier(fs: seq<Factor>)
  {
    forall a, b :: 0 <= a < b < |fs| ==> TierOf(fs[a]) < TierOf(fs[b])
  }

  lemma AppendTier(fs: seq<Factor>, t: Tier<Factor>, k: nat)
    requires StrictlyByTier(fs) && forall f :: f in fs ==> TierOf(f) < k
    requires t.factor.Some? ==> TierOf(t.factor.value) == k
    ensures StrictlyByTier(fs + Emit(t)) && forall f :: f in fs + Emit(t) ==> TierOf(f) <= k
    ensures forall f :: f in fs + Emit(t) ==> f in fs || t.factor == Some(f)
  {
    var r := fs + Emit(t);
    forall a, b | 0 <= a < b < |r| ensures TierOf(r[a]) < TierOf(r[b]) {
      if b >= |fs| {
        assert r[a] in fs;
      }
    }
  }

  /** The factors reported by the first n tiers. */
  function EmitUpTo(i: ScoreInput, n: nat): seq<Factor>
    requires n <= 8
  {
    if n == 0 then [] else EmitUpTo(i, n - 1) + Emit(TierAt(i, n - 1))
  }

  lemma {:induction false} EmitUpToOrdered(i: ScoreInput, n: nat)
    requires n <= 8
    ensures StrictlyByTier(EmitUpTo(i, n))
    ensures forall f :: f in EmitUpTo(i, n) ==> TierOf(f) < n && TierAt(i, TierOf(f)).factor == Some(f)
  {
    if n > 0 {
      EmitUpToOrdered(i, n - 1);
      AppendTier(EmitUpTo(i, n - 1), TierAt(i, n - 1), n - 1);
    }
  }

  lemma {:induction false} EmitUpToPrefix(i: ScoreInput, m: nat, n: nat)
    requires m <= n <= 8
    ensures forall f :: f in EmitUpTo(i, m) ==> f in EmitUpTo(i, n)
    decreases n
  {
    if m < n {
      EmitUpToPrefix(i, m, n - 1);
    }
  }

  lemma EmitUpToAll(i: ScoreInput)
    ensures EmitUpTo(i, 8) == FinalFactors(i)
  {
    assert EmitUpTo(i, 1) == Emit(TierAt(i, 0));
    assert EmitUpTo(i, 2) == EmitUpTo(i, 1) + Emit(TierAt(i, 1));
    assert EmitUpTo(i, 3) == EmitUpTo(i, 2) + Emit(TierAt(i, 2));
    assert EmitUpTo(i, 4) == EmitUpTo(i, 3) + Emit(TierAt(i, 3));
    assert EmitUpTo(i, 5) == EmitUpTo(i, 4) + Emit(TierAt(i, 4));
    assert EmitUpTo(i, 6) == EmitUpTo(i, 5) + Emit(TierAt(i, 5));
    assert EmitUpTo(i, 7) == EmitUpTo(i, 6) + Emit(TierAt(i, 6));
  }

  /** Each tier reports at most one factor, and the factors come in evaluation order
      (1h, 24h, 7d, ratio, volume, RSI, MACD, drawdown), hence grouped as momentum,
      then liquidity, then technical, then risk. Every reported factor comes from the
      tier TierOf names. */
  lemma FactorsInEvaluationOrder(i: ScoreInput)
    ensures StrictlyByTier(FinalFactors(i))
    ensures forall a, b :: 0 <= a < b < |FinalFactors(i)|
              ==> FactorGroup(FinalFactors(i)[a]) <= FactorGroup(FinalFactors(i)[b])
    ensures forall f :: f in FinalFactors(i) ==> TierAt(i, TierOf(f)).factor == Some(f)
  {
    EmitUpToOrdered(i, 8);
    EmitUpToAll(i);
  }

  /** A factor is reported exactly when the tier it belongs to selects it. */
  lemma FactorReported(i: ScoreInput, f: Factor)
    ensures f in FinalFactors(i) <==> TierAt(i, TierOf(f)).factor == Some(f)
  {
    FactorsInEvaluationOrder(i);
    EmitUpToAll(i);
    TierEmitted(i, TierOf(f));
  }

  /** The drawdown penalty and its factor apply exactly when the 24h move is below -15
      (strictly). */
  lemma SharpDropRule(i: ScoreInput)
    ensures SharpDrop in FinalFactors(i) <==> i.change24h < -MAX_DRAWDOWN
    ensures RiskPoints(i) == -10 <==> i.change24h < -MAX_DRAWDOWN
  {
    FactorReported(i, SharpDrop);
  }

  /** A 1h factor is reported exactly when the 1h change exceeds 2, so a 1h gain in
      (0, 2] adds 3 points silently. */
  lemma OneHourFactorRule(i: ScoreInput)
    ensures (StrongGrowth1h in FinalFactors(i) || ModerateGrowth1h in FinalFactors(i)) <==> i.change1h > 2.0
  {
    FactorReported(i, StrongGrowth1h);
    FactorReported(i, ModerateGrowth1h);
  }

  /** The factor of tier k, if any, is among the reported factors. */
  lemma TierEmitted(i: ScoreInput, k: nat)
    requires k < 8
    ensures TierAt(i, k).factor.Some? ==> TierAt(i, k).factor.value in EmitUpTo(i, 8)
  {
    EmitUpToPrefix(i, k + 1, 8);
  }

  // ---------------------------------------------------------------------------
  // Risk tier
  // ---------------------------------------------------------------------------

  /** `_determine_risk_level`: strict thresholds, so 80 is medium and 50 is high. */
  function RiskTier(score: int): (r: RiskLevel)
    ensures r == Low <==> score > 80
    ensures r == Medium <==> 50 < score <= 80
    ensures r == High <==> score <= 50
  {
    if score > 80 then Low else if score > 50 then Medium else High
  }

  function RiskRank(r: RiskLevel): nat
  {
    match r
    case Low => 0
    case Medium => 1
    case High => 2
  }

  /** A higher score never means a higher risk tier. */
  lemma RiskTierMonotone(a: int, b: int)
    requires a <= b
    ensures RiskRank(RiskTier(b)) <= RiskRank(RiskTier(a))
  {
  }

  /** Every score the scanner can assign is at most 68, so the low-risk tier is never
      reached: every scored token is medium or high risk. */
  lemma NoLowRiskScore(i: ScoreInput)
    ensures RiskTier(FinalScore(i)) != Low
  {
    CapsNeverBind(i);
  }
}
