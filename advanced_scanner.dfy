/** AdvancedCryptoScanner: the per-token analysis object, the scanner's in-place state
    (indicator cache, last analyses, alert ledger and signal log) and the operations
    that update it, each proved against the pure definitions of AlertLedger,
    TokenScoring, ProviderMerge and ApiRetry. Network answers are parameters: `remote`
    maps a symbol to the indicator frame a history request would produce (a symbol
    whose request fails is absent), `net` gives the answer of each HTTP attempt. */
module AdvancedScanner {
  import opened Common
  import opened AlertLedger
  import opened TokenScoring
  import opened ProviderMerge
  import ApiRetry

  /** Tokens scoring below this are not ranked by `find_best_coins`. */
  const BEST_SCORE_FLOOR: int := 40

  /** The fields of a TokenAnalysis at one moment. */
  datatype Analysis = Analysis(
    symbol: string, name: string,
    price: Option<real>, volume: real, marketCap: Option<real>,
    change1h: real, change24h: real, change7d: real,
    rsi: Option<real>, macd: Option<real>,
    score: int, riskLevel: RiskLevel,
    signals: seq<Signal>, factors: seq<Factor>)

  // ---------------------------------------------------------------------------
  // What the operations compute
  // ---------------------------------------------------------------------------

  /** The indicator frame `fetch_historical_data` yields for a symbol: the cached one if
      there is one, else whatever the network yields. */
  function HistoryFor(cache: map<string, IndicatorTail>, remote: map<string, IndicatorTail>,
                      symbol: string): Option<IndicatorTail>
  {
    if symbol in cache then Some(cache[symbol])
    else if symbol in remote then Some(remote[symbol])
    else None
  }

  /** The cache after `fetch_historical_data(symbol)`: a frame fetched from the network is
      stored, a failed fetch stores nothing. */
  function CacheAfter(cache: map<string, IndicatorTail>, remote: map<string, IndicatorTail>,
                      symbol: string): (c: map<string, IndicatorTail>)
    ensures cache.Keys <= c.Keys && c.Keys <= cache.Keys + {symbol}
  {
    if symbol !in cache && symbol in remote then cache[symbol := remote[symbol]] else cache
  }

  /** Caching never changes what a later request yields, for any symbol. */
  lemma CacheIsTransparent(cache: map<string, IndicatorTail>, remote: map<string, IndicatorTail>,
                           symbol: string, other: string)
    ensures HistoryFor(CacheAfter(cache, remote, symbol), remote, other) == HistoryFor(cache, remote, other)
  {
  }

  /** The score inputs of a record whose market cap is defined; the RSI comes from the
      indicator frame, and the MACD field is never assigned, so it stays undefined. */
  function ScoreInputOf(d: TokenRecord, tail: Option<IndicatorTail>): ScoreInput
    requires d.marketCap.Some?
  {
    ScoreInput(d.change1h, d.change24h, d.change7d, d.volume, d.marketCap.value,
               if tail.Some? then tail.value.rsi else None, None)
  }

  /** `analyze_token` on one record, given the indicator frame the scanner finds for it.
      None stands both for a rejection by the gate and for an exception the method
      swallows (an undefined market cap, or an undefined price compared with the
      Bollinger bands). */
  function Analyze(d: TokenRecord, tail: Option<IndicatorTail>): Option<Analysis>
  {
    if Validate(d.volume, d.marketCap) != Some(true) then None
    else if tail.Some? && d.price.None? then None
    else Some(Accepted(d, tail))
  }

  /** A record is analysed exactly when the gate accepts it and, if there is an indicator
      frame, its price is defined; the analysis keeps the record's identity, scores at
      most 68, is never rated low risk, and reports a sharp drop exactly on a 24h fall
      beyond 15%. */
  lemma AnalyzeOutcome(d: TokenRecord, tail: Option<IndicatorTail>)
    ensures var r := Analyze(d, tail);
      (r.Some? <==> d.marketCap.Some? && Eligible(d.volume, d.marketCap.value)
                    && (tail.Some? ==> d.price.Some?))
      && (r.Some? ==> r.value.symbol == d.symbol && r.value.volume == d.volume
                      && 0 <= r.value.score <= 68
                      && r.value.riskLevel == RiskTier(r.value.score) && r.value.riskLevel != Low
                      && (SharpDrop in r.value.factors <==> d.change24h < -MAX_DRAWDOWN))
  {
    if Analyze(d, tail).Some? {
      CapsNeverBind(ScoreInputOf(d, tail));
      SharpDropRule(ScoreInputOf(d, tail));
    }
  }

  /** The analysis of a record the gate accepts and whose price is defined where needed. */
  function Accepted(d: TokenRecord, tail: Option<IndicatorTail>): Analysis
    requires d.marketCap.Some? && (tail.Some? ==> d.price.Some?)
  {
    var i := ScoreInputOf(d, tail);
    Analysis(d.symbol, d.name, d.price, d.volume, d.marketCap,
             d.change1h, d.change24h, d.change7d, i.rsi, None,
             FinalScore(i), RiskTier(FinalScore(i)),
             VolatilityWarning(d.change24h)
             + (if tail.Some? then IndicatorSignals(d.price.value, tail.value) else []),
             FinalFactors(i))
  }

  /** The analyses of the records that survive `analyze_token`, in input order. */
  function AnalyzeAll(tokens: seq<TokenRecord>, cache: map<string, IndicatorTail>,
                      remote: map<string, IndicatorTail>): (r: seq<Analysis>)
    ensures |r| <= |tokens|
  {
    if tokens == [] then []
    else
      var last := tokens[|tokens| - 1];
      AnalyzeAll(tokens[..|tokens| - 1], cache, remote)
      + match Analyze(last, HistoryFor(cache, remote, last.symbol))
        case Some(a) => [a]
        case None => []
  }

  /** Every analysis comes from one of the input records. */
  lemma {:induction false} AnalyzeAllFromInput(tokens: seq<TokenRecord>, cache: map<string, IndicatorTail>,
                                               remote: map<string, IndicatorTail>, a: Analysis)
    requires a in AnalyzeAll(tokens, cache, remote)
    ensures exists t :: t in tokens && Analyze(t, HistoryFor(cache, remote, t.symbol)) == Some(a)
  {
    var last := tokens[|tokens| - 1];
    var prefix := tokens[..|tokens| - 1];
    if a in AnalyzeAll(prefix, cache, remote) {
      AnalyzeAllFromInput(prefix, cache, remote, a);
      var t :| t in prefix && Analyze(t, HistoryFor(cache, remote, t.symbol)) == Some(a);
      assert t in tokens;
    } else {
      assert Analyze(last, HistoryFor(cache, remote, last.symbol)) == Some(a);
    }
  }

  predicate MeetsFloor(a: Analysis) { a.score >= BEST_SCORE_FLOOR }

  /** What one record contributes to the ranking: its analysis, if it reaches the floor. */
  function Kept(d: TokenRecord, tail: Option<IndicatorTail>): seq<Analysis>
  {
    match Analyze(d, tail)
    case Some(a) => if MeetsFloor(a) then [a] else []
    case None => []
  }

  lemma FilterAnalyzeAllSnoc(tokens: seq<TokenRecord>, cache: map<string, IndicatorTail>,
                             remote: map<string, IndicatorTail>)
    requires tokens != []
    ensures Filter(AnalyzeAll(tokens, cache, remote), MeetsFloor)
         == Filter(AnalyzeAll(tokens[..|tokens| - 1], cache, remote), MeetsFloor)
            + Kept(tokens[|tokens| - 1], HistoryFor(cache, remote, tokens[|tokens| - 1].symbol))
  {
    var last := tokens[|tokens| - 1];
    var done := AnalyzeAll(tokens[..|tokens| - 1], cache, remote);
    var added := match Analyze(last, HistoryFor(cache, remote, last.symbol))
                 case Some(a) => [a]
                 case None => [];
    FilterConcat(done, added, MeetsFloor);
  }

  function ScoreKey(a: Analysis): real { a.score as real }

  /** The analyses `find_best_coins` ranks: those at or above the floor, best first. */
  function Ranked(tokens: seq<TokenRecord>, cache: map<string, IndicatorTail>,
                  remote: map<string, IndicatorTail>): seq<Analysis>
  {
    SortDesc(Filter(AnalyzeAll(tokens, cache, remote), MeetsFloor), ScoreKey)
  }

  /** What `find_best_coins` returns: the first top_n of the ranking. */
  function BestCoins(tokens: seq<TokenRecord>, cache: map<string, IndicatorTail>,
                     remote: map<string, IndicatorTail>, topN: int): seq<Analysis>
  {
    SliceTo(Ranked(tokens, cache, remote), topN)
  }

  /** At most top_n analyses, each of them at or above the floor, in non-increasing score
      order, and nothing left out scores higher than anything kept. */
  lemma BestCoinsRanking(tokens: seq<TokenRecord>, cache: map<string, IndicatorTail>,
                         remote: map<string, IndicatorTail>, topN: int)
    ensures var r := BestCoins(tokens, cache, remote, topN);
      (topN >= 0 ==> |r| == Min(topN, |Filter(AnalyzeAll(tokens, cache, remote), MeetsFloor)|))
      && (forall a :: a in r ==> a.score >= BEST_SCORE_FLOOR && a in AnalyzeAll(tokens, cache, remote))
      && (forall x, y :: 0 <= x < y < |r| ==> r[x].score >= r[y].score)
      && (forall x, y :: 0 <= x < |r| <= y < |Ranked(tokens, cache, remote)|
            ==> r[x].score >= Ranked(tokens, cache, remote)[y].score)
  {
    var q := Filter(AnalyzeAll(tokens, cache, remote), MeetsFloor);
    var s := Ranked(tokens, cache, remote);
    var r := BestCoins(tokens, cache, remote, topN);
    SortDescSorted(q, ScoreKey);
    SortDescPermutes(q, ScoreKey);
    forall a | a in r ensures a.score >= BEST_SCORE_FLOOR && a in AnalyzeAll(tokens, cache, remote) {
      assert a in multiset(s);
      assert a in q;
    }
    forall x, y | 0 <= x < y < |r| ensures r[x].score >= r[y].score {
      assert r[x] == s[x] && r[y] == s[y];
      assert ScoreKey(s[x]) >= ScoreKey(s[y]);
    }
    forall x, y | 0 <= x < |r| <= y < |s| ensures r[x].score >= s[y].score {
      assert r[x] == s[x];
      assert ScoreKey(s[x]) >= ScoreKey(s[y]);
    }
  }

  /** Ties keep input order: among the ranked analyses with one score, the order is the
      order in which their records came. */
  lemma BestCoinsStable(tokens: seq<TokenRecord>, cache: map<string, IndicatorTail>,
                        remote: map<string, IndicatorTail>, v: int)
    ensures Filter(Ranked(tokens, cache, remote), (a: Analysis) => a.score == v)
         == Filter(Filter(AnalyzeAll(tokens, cache, remote), MeetsFloor), (a: Analysis) => a.score == v)
  {
    SortDescStable(Filter(AnalyzeAll(tokens, cache, remote), MeetsFloor), ScoreKey,
                   (a: Analysis) => a.score == v, v as real);
  }

  /** One iteration of the `find_best_coins` loop extends the kept prefix by what the
      next record contributes. */
  lemma RankingStep(tokens: seq<TokenRecord>, i: nat, cache: map<string, IndicatorTail>,
                     remote: map<string, IndicatorTail>, analyzed: seq<(Analysis, TokenAnalysis)>,
                     kept: seq<(Analysis, TokenAnalysis)>)
    requires i < |tokens|
    requires MapSeq(analyzed, Analyzed) == Filter(AnalyzeAll(tokens[..i], cache, remote), MeetsFloor)
    requires MapSeq(kept, Analyzed) == Kept(tokens[i], HistoryFor(cache, remote, tokens[i].symbol))
    ensures MapSeq(analyzed + kept, Analyzed)
         == Filter(AnalyzeAll(tokens[..i + 1], cache, remote), MeetsFloor)
  {
    FilterAnalyzeAllSnoc(tokens[..i + 1], cache, remote);
    assert tokens[..i + 1][..i] == tokens[..i];
    MapSeqConcat(analyzed, kept, Analyzed);
  }

  // ---------------------------------------------------------------------------
  // The analysis object
  // ---------------------------------------------------------------------------

  /** One token under analysis; the scanner's steps fill in its indicator, score, risk,
      signal and factor fields in place. */
  class TokenAnalysis {
    const symbol: string
    const name: string
    const price: Option<real>
    const volume: real
    const marketCap: Option<real>
    const change1h: real
    const change24h: real
    const change7d: real
    var rsi: Option<real>
    var macd: Option<real>
    var score: int
    var riskLevel: RiskLevel
    var signals: seq<Signal>
    var factors: seq<Factor>

    /** A fresh analysis of a record: no indicators, score 0, medium risk, no signals or factors. */
    constructor (d: TokenRecord)
      ensures Snapshot() == Analysis(d.symbol, d.name, d.price, d.volume, d.marketCap,
                                     d.change1h, d.change24h, d.change7d, None, None, 0, Medium, [], [])
    {
      symbol, name, price, volume, marketCap := d.symbol, d.name, d.price, d.volume, d.marketCap;
      change1h, change24h, change7d := d.change1h, d.change24h, d.change7d;
      rsi, macd, score, riskLevel := None, None, 0, Medium;
      signals, factors := [], [];
    }

    function Snapshot(): Analysis
      reads this
    {
      Analysis(symbol, name, price, volume, marketCap, change1h, change24h, change7d,
               rsi, macd, score, riskLevel, signals, factors)
    }

    function Input(): ScoreInput
      reads this`rsi, this`macd
      requires marketCap.Some?
    {
      ScoreInput(change1h, change24h, change7d, volume, marketCap.value, rsi, macd)
    }
  }

  // ---------------------------------------------------------------------------
  // The scanner
  // ---------------------------------------------------------------------------

  class AdvancedCryptoScanner {
    /** Indicator frames already fetched, by symbol. */
    var historicalData: map<string, IndicatorTail>
    /** The latest successful analysis of each symbol. */
    var lastAnalysis: map<string, TokenAnalysis>
    /** The alert ledger. */
    var alertHistory: set<AlertKey>
    /** The signal log file: None while it does not exist. */
    var signalLog: Option<seq<LogRow>>

    /** The in-memory ledger is what a restart would rebuild from the log. */
    ghost predicate LedgerConsistent()
      reads this
    {
      alertHistory == Loaded(signalLog)
    }

    /** A scanner over an existing (or missing) signal log: empty caches, ledger loaded. */
    constructor (log: Option<seq<LogRow>>)
      ensures signalLog == log && alertHistory == Loaded(log)
      ensures historicalData == map[] && lastAnalysis == map[]
      ensures LedgerConsistent()
    {
      historicalData := map[];
      lastAnalysis := map[];
      alertHistory := {};
      signalLog := log;
      new;
      LoadAlertHistory();
    }

    /** `_load_alert_history`: rebuilds the ledger from the rows of the log. */
    method LoadAlertHistory()
      modifies this`alertHistory
      ensures alertHistory == Loaded(signalLog)
    {
      alertHistory := {};
      if signalLog.Some? {
        var rows := signalLog.value;
        var i := 0;
        assert rows[..0] == [];
        while i < |rows|
          invariant 0 <= i <= |rows|
          invariant alertHistory == Project(rows[..i])
        {
          ProjectAppend(rows[..i], rows[i]);
          assert rows[..i + 1] == rows[..i] + [rows[i]];
          alertHistory := alertHistory + {RowKey(rows[i])};
          i := i + 1;
        }
        assert rows[..|rows|] == rows;
      }
    }

    /** `_log_signal` at time `now`: appends a row to the log and records the alert. */
    method LogSignal(now: string, symbol: string, name: string, score: int, reasons: string,
                     timeframe: string, source: string)
      modifies this`signalLog, this`alertHistory
      ensures signalLog == Some(LogRows(old(signalLog))
                                + [SignalRow(now, symbol, name, score, reasons, timeframe, source)])
      ensures alertHistory == Record(old(alertHistory), symbol, timeframe, source, now)
      ensures old(LedgerConsistent()) ==> LedgerConsistent()
    {
      ReloadAfterRecord(signalLog, now, symbol, name, score, reasons, timeframe, source);
      signalLog := Some(LogRows(signalLog) + [SignalRow(now, symbol, name, score, reasons, timeframe, source)]);
      alertHistory := alertHistory + {AlertKey(symbol, timeframe, source, Day(now))};
    }

    /** `_should_alert`, with today's date passed in. */
    predicate ShouldAlertToday(symbol: string, timeframe: string, source: string, today: string)
      reads this
    {
      ShouldAlert(alertHistory, symbol, timeframe, source, today)
    }

    /** `_make_api_request`: the body of the first 200 answer within `retries` attempts,
        with the pauses it took on the way. */
    method MakeApiRequest(net: nat -> ApiRetry.Response, retries: int)
      returns (body: Option<string>, attempts: nat, sleeps: seq<nat>)
      ensures ApiRetry.Outcome(body, attempts, sleeps) == ApiRetry.MakeApiRequest(net, retries)
    {
      body, attempts, sleeps := None, 0, [];
      var attempt: nat := 0;
      while attempt < retries
        invariant attempts == attempt
        invariant ApiRetry.Run(net, retries, 0)
               == Resume(attempt, sleeps, ApiRetry.Run(net, retries, attempt))
        decreases retries - attempt
      {
        var response := net(attempt);
        attempts := attempts + 1;
        if response.Reply? && response.status == ApiRetry.OK {
          body := Some(response.body);
          return;
        } else if response.Reply? && response.status == ApiRetry.RATE_LIMITED {
          var pause := ApiRetry.Pow2(attempt) * ApiRetry.BASE_BACKOFF;
          ResumeAfterRetry(net, retries, attempt, sleeps);
          sleeps := sleeps + [pause];
        } else if response.Reply? {
          return;
        } else {
          // the handler: a connection failure, or a 200 body `response.json()` rejects
          ResumeAfterRetry(net, retries, attempt, sleeps);
          sleeps := sleeps + [ApiRetry.FAILURE_PAUSE];
        }
        attempt := attempt + 1;
      }
    }

    /** `fetch_real_crypto_data`, given what the two providers' fetchers returned
        (CoinMarketCap's list is empty when no API key is configured). */
    method FetchRealCryptoData(cg: seq<TokenRecord>, cmc: seq<TokenRecord>) returns (tokens: seq<TokenRecord>)
      ensures tokens == MergeProviders(cg, cmc)
    {
      var keys, allTokens := InsertAll(cg);
      keys, allTokens := InsertMissing(keys, allTokens, cmc);
      PutMissingIsWinner(cg, cmc);
      tokens := SortedValues(cg, cmc, keys, allTokens);
    }

    /** The CoinGecko pass: every record is stored under its symbol, a later one
        overwriting an earlier one; `keys` is the dictionary's insertion order. */
    method InsertAll(cg: seq<TokenRecord>) returns (keys: seq<string>, allTokens: map<string, TokenRecord>)
      ensures (keys, allTokens) == PutAll([], map[], cg)
    {
      keys, allTokens := [], map[];
      var i := 0;
      while i < |cg|
        invariant 0 <= i <= |cg|
        invariant (keys, allTokens) == PutAll([], map[], cg[..i])
      {
        var t := cg[i];
        assert cg[..i + 1][..i] == cg[..i];
        if t.symbol !in allTokens {
          keys := keys + [t.symbol];
        }
        allTokens := allTokens[t.symbol := t];
        i := i + 1;
      }
      assert cg[..|cg|] == cg;
    }

    /** The CoinMarketCap pass: a record is stored only when its symbol is not there yet. */
    method InsertMissing(keys0: seq<string>, allTokens0: map<string, TokenRecord>, cmc: seq<TokenRecord>)
      returns (keys: seq<string>, allTokens: map<string, TokenRecord>)
      ensures (keys, allTokens) == PutMissing(keys0, allTokens0, cmc)
    {
      keys, allTokens := keys0, allTokens0;
      var j := 0;
      while j < |cmc|
        invariant 0 <= j <= |cmc|
        invariant (keys, allTokens) == PutMissing(keys0, allTokens0, cmc[..j])
      {
        var t := cmc[j];
        assert cmc[..j + 1][..j] == cmc[..j];
        if t.symbol !in allTokens {
          keys := keys + [t.symbol];
          allTokens := allTokens[t.symbol := t];
        }
        j := j + 1;
      }
      assert cmc[..|cmc|] == cmc;
    }

    /** `list(all_tokens.values())`, sorted by volume, largest first. */
    method SortedValues(cg: seq<TokenRecord>, cmc: seq<TokenRecord>,
                        keys: seq<string>, allTokens: map<string, TokenRecord>)
      returns (tokens: seq<TokenRecord>)
      requires keys == Dedup(Symbols(cg) + Symbols(cmc))
      requires forall k :: k in keys ==> k in Symbols(cg) || k in Symbols(cmc)
      requires forall k :: k in allTokens <==> k in Symbols(cg) || k in Symbols(cmc)
      requires forall k :: k in allTokens ==> Some(allTokens[k]) == Winner(cg, cmc, k)
      ensures tokens == MergeProviders(cg, cmc)
    {
      var merged: seq<TokenRecord> := [];
      var n := 0;
      while n < |keys|
        invariant 0 <= n <= |keys|
        invariant forall k :: k in keys[..n] ==> k in Symbols(cg) || k in Symbols(cmc)
        invariant merged == Winners(cg, cmc, keys[..n])
      {
        WinnersSnoc(cg, cmc, keys, n);
        assert keys[n] in keys;
        merged := merged + [allTokens[keys[n]]];
        n := n + 1;
      }
      assert keys[..|keys|] == keys;
      tokens := SortDesc(merged, VolumeKey);
    }

    /** `fetch_historical_data`: the cached frame, else the fetched one, which is cached. */
    method FetchHistoricalData(symbol: string, remote: map<string, IndicatorTail>)
      returns (h: Option<IndicatorTail>)
      modifies this`historicalData
      ensures h == HistoryFor(old(historicalData), remote, symbol)
      ensures historicalData == CacheAfter(old(historicalData), remote, symbol)
    {
      if symbol in historicalData {
        return Some(historicalData[symbol]);
      }
      if symbol in remote {
        historicalData := historicalData[symbol := remote[symbol]];
        return Some(remote[symbol]);
      }
      return None;
    }

    /** `_validate_token`: the gate's verdict (None for the exception an undefined market
        cap raises); an accepted token with a 24h move beyond 20% gets a warning signal. */
    method ValidateToken(token: TokenAnalysis) returns (ok: Option<bool>)
      modifies token`signals
      ensures ok == Validate(token.volume, token.marketCap)
      ensures token.signals == old(token.signals)
                               + (if ok == Some(true) then VolatilityWarning(token.change24h) else [])
    {
      if token.volume < MIN_VOLUME {
        return Some(false);
      }
      if token.marketCap.None? {
        return None;
      }
      if token.marketCap.value < MIN_MARKET_CAP {
        return Some(false);
      }
      if token.marketCap.value > MAX_MARKET_CAP {
        return Some(false);
      }
      if Abs(token.change24h) > MAX_VOLATILITY {
        token.signals := token.signals + [HighVolatility(token.change24h)];
      }
      return Some(true);
    }

    /** `_calculate_technical_indicators`: copies the last RSI into the token and appends
        the RSI, crossover and band signals; false stands for the exception raised when
        an undefined price meets the band comparison. */
    method CalculateTechnicalIndicators(token: TokenAnalysis, remote: map<string, IndicatorTail>)
      returns (ok: bool)
      modifies this`historicalData, token`rsi, token`signals
      ensures var h := HistoryFor(old(historicalData), remote, token.symbol);
        (ok <==> !(h.Some? && token.price.None?))
        && (ok ==> token.signals == old(token.signals)
                                    + (if h.Some? then IndicatorSignals(token.price.value, h.value) else []))
        && token.rsi == (if h.Some? then h.value.rsi else old(token.rsi))
      ensures historicalData == CacheAfter(old(historicalData), remote, token.symbol)
    {
      var df := FetchHistoricalData(token.symbol, remote);
      if df.None? {
        return true;
      }
      var t := df.value;
      ghost var before := token.signals;
      token.rsi := t.rsi;
      if t.rsi.Some? && t.rsi.value > RSI_OVERBOUGHT {
        token.signals := token.signals + [Overbought(t.rsi.value)];
      } else if t.rsi.Some? && t.rsi.value < RSI_OVERSOLD {
        token.signals := token.signals + [Oversold(t.rsi.value)];
      }
      ghost var afterRsi := token.signals;
      assert afterRsi == before + RsiSignals(t.rsi);
      if Above(t.macd, t.macdSignal) && AtMost(t.prevMacd, t.prevMacdSignal) {
        token.signals := token.signals + [MacdBullishCross];
      } else if Above(t.macdSignal, t.macd) && AtMost(t.prevMacdSignal, t.prevMacd) {
        token.signals := token.signals + [MacdBearishCross];
      }
      ghost var afterCross := token.signals;
      assert afterCross == afterRsi + CrossSignals(t);
      if token.price.None? {
        return false;
      }
      var price := token.price.value;
      if t.bbHigh.Some? && price >= t.bbHigh.value {
        token.signals := token.signals + [NearUpperBand];
      } else if t.bbLow.Some? && price <= t.bbLow.value {
        token.signals := token.signals + [NearLowerBand];
      }
      assert token.signals == afterCross + BandSignals(price, t);
      AppendThree(before, RsiSignals(t.rsi), CrossSignals(t), BandSignals(price, t));
      return true;
    }

    /** `_calculate_final_score`: the three capped sub-scores plus the risk adjustment,
        clamped to [0, 100], and the factors in evaluation order. */
    method CalculateFinalScore(token: TokenAnalysis)
      requires token.marketCap.Some?
      modifies token`score, token`factors
      ensures token.score == FinalScore(token.Input())
      ensures token.factors == FinalFactors(token.Input())
    {
      ghost var i := token.Input();
      var score := 0;
      var factors: seq<Factor>;
      var priceScore;
      priceScore, factors := MomentumBlock(token.change1h, token.change24h, token.change7d);
      score := score + Min(priceScore, 30);
      var liquidityScore;
      liquidityScore, factors := LiquidityBlock(token.volume, token.marketCap.value, factors);
      score := score + Min(liquidityScore, 25);
      var taScore;
      taScore, factors := TechnicalBlock(token.rsi, token.macd, factors);
      score := score + Min(taScore, 25);
      var riskScore := 0;
      if token.change24h < -MAX_DRAWDOWN {
        riskScore := riskScore - 10;
        factors := factors + [SharpDrop];
      }
      assert factors == FinalFactors(i);
      token.score := Max(0, Min(score + riskScore, 100));
      token.factors := factors;
      assert token.Input() == i;
    }

    /** The momentum block of `_calculate_final_score`: the 1h, 24h and 7d tiers. */
    method MomentumBlock(change1h: real, change24h: real, change7d: real)
      returns (priceScore: int, factors: seq<Factor>)
      ensures priceScore == Change1hTier(change1h).points + Change24hTier(change24h).points
                            + Change7dTier(change7d).points
      ensures factors == Emit(Change1hTier(change1h)) + Emit(Change24hTier(change24h))
                         + Emit(Change7dTier(change7d))
    {
      priceScore, factors := 0, [];
      if change1h > 5.0 {
        priceScore := priceScore + 12;
        factors := factors + [StrongGrowth1h];
      } else if change1h > 2.0 {
        priceScore := priceScore + 8;
        factors := factors + [ModerateGrowth1h];
      } else if change1h > 0.0 {
        priceScore := priceScore + 3;
      }
      assert priceScore == Change1hTier(change1h).points && factors == Emit(Change1hTier(change1h));
      if change24h > 15.0 {
        priceScore := priceScore + 12;
        factors := factors + [ExplosiveGrowth24h];
      } else if change24h > 7.0 {
        priceScore := priceScore + 8;
        factors := factors + [StrongGrowth24h];
      } else if change24h > 3.0 {
        priceScore := priceScore + 4;
        factors := factors + [ModerateGrowth24h];
      }
      assert priceScore == Change1hTier(change1h).points + Change24hTier(change24h).points;
      assert factors == Emit(Change1hTier(change1h)) + Emit(Change24hTier(change24h));
      if change7d > 30.0 {
        priceScore := priceScore + 6;
        factors := factors + [StrongWeeklyUptrend];
      } else if change7d > 15.0 {
        priceScore := priceScore + 4;
        factors := factors + [WeeklyUptrend];
      } else if change7d > 0.0 {
        priceScore := priceScore + 2;
      }
    }

    /** The liquidity block: the volume/market-cap ratio tier and the volume tier, appending
        their factors to `factors0`. */
    method LiquidityBlock(volume: real, marketCap: real, factors0: seq<Factor>)
      returns (liquidityScore: int, factors: seq<Factor>)
      ensures liquidityScore == RatioTier(VolumeToMarketCap(volume, marketCap)).points + VolumeTier(volume).points
      ensures factors == factors0 + Emit(RatioTier(VolumeToMarketCap(volume, marketCap))) + Emit(VolumeTier(volume))
    {
      liquidityScore, factors := 0, factors0;
      var volumeToMcap := VolumeToMarketCap(volume, marketCap);
      if volumeToMcap > 0.5 {
        liquidityScore := liquidityScore + 15;
        factors := factors + [ExceptionalLiquidity];
      } else if volumeToMcap > 0.2 {
        liquidityScore := liquidityScore + 10;
        factors := factors + [HighLiquidity];
      } else if volumeToMcap > 0.1 {
        liquidityScore := liquidityScore + 5;
        factors := factors + [AdequateLiquidity];
      }
      if volume > 1000000000.0 {
        liquidityScore := liquidityScore + 10;
        factors := factors + [VeryHighVolume];
      } else if volume > 100000000.0 {
        liquidityScore := liquidityScore + 6;
        factors := factors + [HighVolume];
      } else if volume > 10000000.0 {
        liquidityScore := liquidityScore + 3;
      }
    }

    /** The technical-analysis block: the RSI tier and the MACD tier, each only when defined,
        appending their factors to `factors0`. */
    method TechnicalBlock(rsi: Option<real>, macd: Option<real>, factors0: seq<Factor>)
      returns (taScore: int, factors: seq<Factor>)
      ensures taScore == RsiTier(rsi).points + MacdTier(macd).points
      ensures factors == factors0 + Emit(RsiTier(rsi)) + Emit(MacdTier(macd))
    {
      taScore, factors := 0, factors0;
      if rsi.Some? {
        if rsi.value < 30.0 {
          taScore := taScore + 8;
          factors := factors + [RsiOversoldFactor];
        } else if rsi.value > 70.0 {
          taScore := taScore - 5;
          factors := factors + [RsiOverboughtFactor];
        }
      }
      if macd.Some? {
        if macd.value > 0.0 {
          taScore := taScore + 5;
          factors := factors + [MacdPositive];
        } else {
          taScore := taScore - 3;
        }
      }
    }

    /** `_determine_risk_level`. */
    method DetermineRiskLevel(token: TokenAnalysis)
      modifies token`riskLevel
      ensures token.riskLevel == RiskTier(token.score)
    {
      if token.score > 80 {
        token.riskLevel := Low;
      } else if token.score > 50 {
        token.riskLevel := Medium;
      } else {
        token.riskLevel := High;
      }
    }

    /** `analyze_token`: a fresh analysis of the record, or None; a successful one is
        remembered as the symbol's last analysis. */
    method AnalyzeToken(d: TokenRecord, remote: map<string, IndicatorTail>) returns (r: Option<TokenAnalysis>)
      modifies this`historicalData, this`lastAnalysis
      ensures r.Some? <==> Analyze(d, HistoryFor(old(historicalData), remote, d.symbol)).Some?
      ensures r.Some? ==> fresh(r.value)
                          && Some(r.value.Snapshot()) == Analyze(d, HistoryFor(old(historicalData), remote, d.symbol))
      ensures historicalData == if Validate(d.volume, d.marketCap) == Some(true)
                                then CacheAfter(old(historicalData), remote, d.symbol) else old(historicalData)
      ensures lastAnalysis == if r.Some? then old(lastAnalysis)[d.symbol := r.value] else old(lastAnalysis)
    {
      ghost var h := HistoryFor(historicalData, remote, d.symbol);
      var token := new TokenAnalysis(d);
      var valid := ValidateToken(token);
      if valid != Some(true) {
        return None;
      }
      var ok := CalculateTechnicalIndicators(token, remote);
      if !ok {
        return None;
      }
      ghost var i := ScoreInputOf(d, h);
      assert token.Input() == i;
      assert token.signals == VolatilityWarning(d.change24h)
                              + (if h.Some? then IndicatorSignals(d.price.value, h.value) else []);
      CalculateFinalScore(token);
      DetermineRiskLevel(token);
      assert token.Snapshot() == Accepted(d, h);
      lastAnalysis := lastAnalysis[token.symbol := token];
      return Some(token);
    }

    /** `find_best_coins`: analyses every record, keeps those at or above the floor, and
        returns the first top_n of them by score, best first. */
    method FindBestCoins(tokens: seq<TokenRecord>, topN: int, remote: map<string, IndicatorTail>)
      returns (best: seq<TokenAnalysis>)
      modifies this`historicalData, this`lastAnalysis
      ensures |best| == |BestCoins(tokens, old(historicalData), remote, topN)|
      ensures forall k :: 0 <= k < |best| ==>
                best[k].Snapshot() == BestCoins(tokens, old(historicalData), remote, topN)[k]
      ensures forall s :: HistoryFor(historicalData, remote, s) == HistoryFor(old(historicalData), remote, s)
    {
      ghost var cache := historicalData;
      var analyzed := AnalyzeEach(tokens, remote);
      var top := TopPairs(analyzed, topN);
      best := MapSeq(top, Object);
      forall k | 0 <= k < |best|
        ensures best[k].Snapshot() == BestCoins(tokens, cache, remote, topN)[k]
      {
        assert top[k] in analyzed;
        var j :| 0 <= j < |analyzed| && analyzed[j] == top[k];
        TrackedAt(analyzed, j);
      }
    }

    /** The loop of `find_best_coins`: every record analysed in order, those at or above
        the floor kept with their analysis objects. */
    method AnalyzeEach(tokens: seq<TokenRecord>, remote: map<string, IndicatorTail>)
      returns (analyzed: seq<(Analysis, TokenAnalysis)>)
      modifies this`historicalData, this`lastAnalysis
      ensures MapSeq(analyzed, Analyzed) == Filter(AnalyzeAll(tokens, old(historicalData), remote), MeetsFloor)
      ensures Tracked(analyzed)
      ensures forall s :: HistoryFor(historicalData, remote, s) == HistoryFor(old(historicalData), remote, s)
    {
      ghost var cache := historicalData;
      analyzed := [];
      var i := 0;
      assert tokens[..0] == [];
      while i < |tokens|
        invariant 0 <= i <= |tokens|
        invariant forall s :: HistoryFor(historicalData, remote, s) == HistoryFor(cache, remote, s)
        invariant MapSeq(analyzed, Analyzed) == Filter(AnalyzeAll(tokens[..i], cache, remote), MeetsFloor)
        invariant Tracked(analyzed)
      {
        analyzed := AnalyzeNext(tokens, i, cache, remote, analyzed);
        i := i + 1;
      }
      assert tokens[..|tokens|] == tokens;
    }

    /** One round of the loop in `find_best_coins`: analyze tokens[i] and keep it when it
        clears the score floor. */
    method AnalyzeNext(tokens: seq<TokenRecord>, i: nat, ghost cache: map<string, IndicatorTail>,
                       remote: map<string, IndicatorTail>, analyzed: seq<(Analysis, TokenAnalysis)>)
      returns (next: seq<(Analysis, TokenAnalysis)>)
      requires i < |tokens|
      requires forall s :: HistoryFor(historicalData, remote, s) == HistoryFor(cache, remote, s)
      requires MapSeq(analyzed, Analyzed) == Filter(AnalyzeAll(tokens[..i], cache, remote), MeetsFloor)
      requires Tracked(analyzed)
      modifies this`historicalData, this`lastAnalysis
      ensures forall s :: HistoryFor(historicalData, remote, s) == HistoryFor(cache, remote, s)
      ensures MapSeq(next, Analyzed) == Filter(AnalyzeAll(tokens[..i + 1], cache, remote), MeetsFloor)
      ensures Tracked(next)
    {
      assert HistoryFor(historicalData, remote, tokens[i].symbol) == HistoryFor(cache, remote, tokens[i].symbol);
      var kept := AnalyzeAndKeep(tokens[i], remote);
      RankingStep(tokens, i, cache, remote, analyzed, kept);
      TrackedAppend(analyzed, kept);
      next := analyzed + kept;
    }

    /** The sort and the slice of `find_best_coins`, on the kept (analysis, object) pairs. */
    method TopPairs(analyzed: seq<(Analysis, TokenAnalysis)>, topN: int)
      returns (top: seq<(Analysis, TokenAnalysis)>)
      ensures MapSeq(top, Analyzed) == SliceTo(SortDesc(MapSeq(analyzed, Analyzed), ScoreKey), topN)
      ensures forall p :: p in top ==> p in analyzed
    {
      var sorted := SortDesc(analyzed, PairKey);
      top := SliceTo(sorted, topN);
      SortDescMap(analyzed, Analyzed, PairKey, ScoreKey);
      SortDescPermutes(analyzed, PairKey);
      forall p | p in top ensures p in analyzed {
        assert p in sorted;
        assert p in multiset(sorted);
      }
    }

    /** One step of the `find_best_coins` loop: analyses the record and keeps the result,
        paired with the analysis object, when it reaches the floor. */
    method AnalyzeAndKeep(d: TokenRecord, remote: map<string, IndicatorTail>)
      returns (kept: seq<(Analysis, TokenAnalysis)>)
      modifies this`historicalData, this`lastAnalysis
      ensures MapSeq(kept, Analyzed) == Kept(d, HistoryFor(old(historicalData), remote, d.symbol))
      ensures Tracked(kept) && |kept| <= 1
      ensures forall s :: HistoryFor(historicalData, remote, s) == HistoryFor(old(historicalData), remote, s)
    {
      ghost var before := historicalData;
      var token := AnalyzeToken(d, remote);
      forall s ensures HistoryFor(historicalData, remote, s) == HistoryFor(before, remote, s) {
        CacheIsTransparent(before, remote, d.symbol, s);
      }
      if token.Some? && token.value.score >= BEST_SCORE_FLOOR {
        kept := [(token.value.Snapshot(), token.value)];
        assert MapSeq(kept, Analyzed) == [token.value.Snapshot()];
        assert kept[..0] == [];
      } else {
        kept := [];
      }
    }
  }

  /** The outcome of a run that has made `attempt` attempts and taken `sleeps` pauses so
      far, then continues as `rest`. */
  function Resume(attempt: nat, sleeps: seq<nat>, rest: ApiRetry.Outcome): ApiRetry.Outcome
  {
    ApiRetry.Outcome(rest.body, attempt + rest.attempts, sleeps + rest.sleeps)
  }

  /** One retried attempt moves its pause from the rest of the run into the pauses taken. */
  lemma ResumeAfterRetry(net: nat -> ApiRetry.Response, retries: int, attempt: nat, sleeps: seq<nat>)
    requires attempt < retries && ApiRetry.Retryable(net(attempt))
    ensures Resume(attempt, sleeps, ApiRetry.Run(net, retries, attempt))
         == Resume(attempt + 1, sleeps + [ApiRetry.PauseAfter(net(attempt), attempt)], ApiRetry.Run(net, retries, attempt + 1))
  {
    var rest := ApiRetry.Run(net, retries, attempt + 1);
    var p := ApiRetry.PauseAfter(net(attempt), attempt);
    assert ApiRetry.Run(net, retries, attempt) == ApiRetry.Outcome(rest.body, rest.attempts + 1, [p] + rest.sleeps);
    assert sleeps + ([p] + rest.sleeps) == sleeps + [p] + rest.sleeps;
  }

  function Analyzed(p: (Analysis, TokenAnalysis)): Analysis { p.0 }

  /** Each analysis object still holds the analysis it is paired with. */
  ghost predicate Tracked(pairs: seq<(Analysis, TokenAnalysis)>)
    reads set k | 0 <= k < |pairs| :: pairs[k].1
  {
    pairs == [] || (Tracked(pairs[..|pairs| - 1]) && pairs[|pairs| - 1].1.Snapshot() == pairs[|pairs| - 1].0)
  }

  lemma {:induction false} TrackedAt(pairs: seq<(Analysis, TokenAnalysis)>, k: int)
    requires Tracked(pairs) && 0 <= k < |pairs|
    ensures pairs[k].1.Snapshot() == pairs[k].0
    decreases |pairs|
  {
    if k < |pairs| - 1 {
      TrackedAt(pairs[..|pairs| - 1], k);
    }
  }

  lemma TrackedAppend(pairs: seq<(Analysis, TokenAnalysis)>, kept: seq<(Analysis, TokenAnalysis)>)
    requires Tracked(pairs) && Tracked(kept) && |kept| <= 1
    ensures Tracked(pairs + kept)
  {
    if |kept| == 1 {
      assert (pairs + kept)[..|pairs|] == pairs;
      assert kept[..0] == [];
    } else {
      assert pairs + kept == pairs;
    }
  }

  function Object(p: (Analysis, TokenAnalysis)): TokenAnalysis { p.1 }

  function PairKey(p: (Analysis, TokenAnalysis)): real { ScoreKey(p.0) }
}
